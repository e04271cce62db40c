/** The link analyzer: each anchor's destination is classified as empty, a `javascript:` URL or a
    bare `#`, anchors without text are flagged, and buttons without an action are flagged. */
module Links {
  import opened Wrappers
  import opened HtmlTypes
  import Text

  /** No destination: the href is null or empty. */
  predicate HasEmptyHref(l: LinkInfo) {
    !Present(l.href)
  }

  predicate HasJavascriptHref(l: LinkInfo) {
    Present(l.href) && Text.StartsWith(l.href.value, "javascript:")
  }

  predicate HasHashOnlyHref(l: LinkInfo) {
    l.href == Some("#")
  }

  predicate HasNoText(l: LinkInfo) {
    l.text == ""
  }

  /** A button acts when it has an onclick handler or is a submit button. */
  predicate LacksAction(b: LinkInfo) {
    !b.hasOnclick && b.buttonType != Some("submit")
  }

  /** The destination issue of one anchor; the three classes are tried in order. */
  function HrefIssue(l: LinkInfo): seq<LinkIssue> {
    if !Present(l.href) then [Issue(Error, EmptyHref, l)]
    else if Text.StartsWith(l.href.value, "javascript:") then [Issue(Warning, JavascriptVoid, l)]
    else if l.href.value == "#" then [Issue(Warning, HashOnly, l)]
    else []
  }

  /** An anchor falls in at most one destination class, and the order of the tests does not
      matter: a `#` destination is never a `javascript:` one. */
  lemma HrefClassesExclusive(l: LinkInfo)
    ensures !(HasEmptyHref(l) && HasJavascriptHref(l))
    ensures !(HasEmptyHref(l) && HasHashOnlyHref(l))
    ensures !(HasJavascriptHref(l) && HasHashOnlyHref(l))
    ensures HrefIssue(l) == (if HasEmptyHref(l) then [Issue(Error, EmptyHref, l)]
                             else if HasJavascriptHref(l) then [Issue(Warning, JavascriptVoid, l)]
                             else if HasHashOnlyHref(l) then [Issue(Warning, HashOnly, l)]
                             else [])
  {
    if HasHashOnlyHref(l) {
      assert l.href.value[0] == '#';
      assert !Text.StartsWith(l.href.value, "javascript:");
    }
  }

  /** The issues of one anchor: its destination issue, then a missing-text issue. */
  function AnchorIssues(l: LinkInfo): seq<LinkIssue> {
    HrefIssue(l) + (if l.text == "" then [Issue(Warning, NoText, l)] else [])
  }

  /** The anchor issues of a page, anchor by anchor. */
  function AnchorsIssues(links: seq<LinkInfo>): seq<LinkIssue> {
    Gather(links, AnchorIssues)
  }

  /** The issues of one anchor, by type. */
  lemma AnchorIssueCounts(l: LinkInfo)
    ensures KindCount(AnchorIssues(l), EmptyHref) == (if HasEmptyHref(l) then 1 else 0)
    ensures KindCount(AnchorIssues(l), JavascriptVoid) == (if HasJavascriptHref(l) then 1 else 0)
    ensures KindCount(AnchorIssues(l), HashOnly) == (if HasHashOnlyHref(l) then 1 else 0)
    ensures KindCount(AnchorIssues(l), NoText) == (if HasNoText(l) then 1 else 0)
    ensures KindCount(AnchorIssues(l), ButtonNoAction) == 0
  {
    HrefClassesExclusive(l);
    KindCountsAppend(HrefIssue(l), if l.text == "" then [Issue(Warning, NoText, l)] else []);
  }

  /** Each issue type occurs once per anchor of its class. */
  lemma AnchorsIssuesCounts(links: seq<LinkInfo>)
    ensures KindCount(AnchorsIssues(links), EmptyHref) == Count(links, HasEmptyHref)
    ensures KindCount(AnchorsIssues(links), JavascriptVoid) == Count(links, HasJavascriptHref)
    ensures KindCount(AnchorsIssues(links), HashOnly) == Count(links, HasHashOnlyHref)
    ensures KindCount(AnchorsIssues(links), NoText) == Count(links, HasNoText)
    ensures KindCount(AnchorsIssues(links), ButtonNoAction) == 0
  {
    forall l: LinkInfo
      ensures KindCount(AnchorIssues(l), EmptyHref) == (if HasEmptyHref(l) then 1 else 0)
      ensures KindCount(AnchorIssues(l), JavascriptVoid) == (if HasJavascriptHref(l) then 1 else 0)
      ensures KindCount(AnchorIssues(l), HashOnly) == (if HasHashOnlyHref(l) then 1 else 0)
      ensures KindCount(AnchorIssues(l), NoText) == (if HasNoText(l) then 1 else 0)
      ensures KindCount(AnchorIssues(l), ButtonNoAction) == 0
    {
      AnchorIssueCounts(l);
    }
    GatherKindCount(links, AnchorIssues, EmptyHref, HasEmptyHref);
    GatherKindCount(links, AnchorIssues, JavascriptVoid, HasJavascriptHref);
    GatherKindCount(links, AnchorIssues, HashOnly, HasHashOnlyHref);
    GatherKindCount(links, AnchorIssues, NoText, HasNoText);
    var never := (l: LinkInfo) => false;
    GatherKindCount(links, AnchorIssues, ButtonNoAction, never);
    CountNone(links, never);
  }

  /** The destination classes together cover every anchor at most once. */
  lemma {:induction false} DestinationClassesBound(links: seq<LinkInfo>)
    ensures Count(links, HasEmptyHref) + Count(links, HasJavascriptHref) + Count(links, HasHashOnlyHref) <= |links|
  {
    if |links| > 0 {
      DestinationClassesBound(links[..|links| - 1]);
      HrefClassesExclusive(links[|links| - 1]);
    }
  }

  /** One button-no-action issue per button without an action, in page order. */
  function ButtonsIssues(buttons: seq<LinkInfo>): seq<LinkIssue> {
    if |buttons| == 0 then []
    else
      var b := buttons[|buttons| - 1];
      ButtonsIssues(buttons[..|buttons| - 1]) + (if LacksAction(b) then [Issue(Warning, ButtonNoAction, b)] else [])
  }

  /** Every button issue is a button-no-action issue. */
  lemma {:induction false} ButtonsIssuesKinds(buttons: seq<LinkInfo>)
    ensures KindCount(ButtonsIssues(buttons), ButtonNoAction) == Count(buttons, LacksAction) == |ButtonsIssues(buttons)|
    ensures forall k :: k != ButtonNoAction ==> KindCount(ButtonsIssues(buttons), k) == 0
  {
    if |buttons| > 0 {
      var front := buttons[..|buttons| - 1];
      var b := buttons[|buttons| - 1];
      ButtonsIssuesKinds(front);
      KindCountsAppend(ButtonsIssues(front), if LacksAction(b) then [Issue(Warning, ButtonNoAction, b)] else []);
    }
  }

  /** A button gets the button-no-action issue exactly when it lacks an action. */
  lemma {:induction false} ButtonsIssuesFacts(buttons: seq<LinkInfo>)
    ensures forall i :: 0 <= i < |buttons| && LacksAction(buttons[i]) ==>
      Issue(Warning, ButtonNoAction, buttons[i]) in ButtonsIssues(buttons)
    ensures forall x :: x in ButtonsIssues(buttons) ==> x.kind == ButtonNoAction && x.subject in buttons && LacksAction(x.subject)
  {
    if |buttons| > 0 {
      var front := buttons[..|buttons| - 1];
      ButtonsIssuesFacts(front);
      assert forall i :: 0 <= i < |front| ==> front[i] == buttons[i];
    }
  }

  datatype AnchorTally = AnchorTally(issues: seq<LinkIssue>, emptyHref: nat, javascriptVoid: nat, hashOnly: nat, noText: nat)

  /** One anchor's turn in the pass: its issues are appended and its counters bumped. */
  method AnchorStep(link: LinkInfo, t: AnchorTally) returns (t': AnchorTally)
    ensures t'.issues == t.issues + AnchorIssues(link)
    ensures t'.emptyHref == t.emptyHref + (if HasEmptyHref(link) then 1 else 0)
    ensures t'.javascriptVoid == t.javascriptVoid + (if HasJavascriptHref(link) then 1 else 0)
    ensures t'.hashOnly == t.hashOnly + (if HasHashOnlyHref(link) then 1 else 0)
    ensures t'.noText == t.noText + (if HasNoText(link) then 1 else 0)
  {
    HrefClassesExclusive(link);
    t' := t;
    if link.href.None? || link.href.value == "" {
      t' := t'.(emptyHref := t'.emptyHref + 1, issues := t'.issues + [Issue(Error, EmptyHref, link)]);
    } else if Text.StartsWith(link.href.value, "javascript:") {
      t' := t'.(javascriptVoid := t'.javascriptVoid + 1, issues := t'.issues + [Issue(Warning, JavascriptVoid, link)]);
    } else if link.href.value == "#" {
      t' := t'.(hashOnly := t'.hashOnly + 1, issues := t'.issues + [Issue(Warning, HashOnly, link)]);
    }
    assert t'.issues == t.issues + HrefIssue(link);
    if link.text == "" {
      t' := t'.(noText := t'.noText + 1, issues := t'.issues + [Issue(Warning, NoText, link)]);
    }
  }

  /** The anchor pass: the issues and the four counters. */
  method AnchorPass(links: seq<LinkInfo>) returns (t: AnchorTally)
    ensures t.issues == AnchorsIssues(links)
    ensures t.emptyHref == Count(links, HasEmptyHref)
    ensures t.javascriptVoid == Count(links, HasJavascriptHref)
    ensures t.hashOnly == Count(links, HasHashOnlyHref)
    ensures t.noText == Count(links, HasNoText)
  {
    t := AnchorTally([], 0, 0, 0, 0);
    var i := 0;
    while i < |links|
      invariant 0 <= i <= |links|
      invariant t.issues == AnchorsIssues(links[..i])
      invariant t.emptyHref == Count(links[..i], HasEmptyHref)
      invariant t.javascriptVoid == Count(links[..i], HasJavascriptHref)
      invariant t.hashOnly == Count(links[..i], HasHashOnlyHref)
      invariant t.noText == Count(links[..i], HasNoText)
    {
      GatherPrefixStep(links, i, AnchorIssues);
      CountPrefixStep(links, i, HasEmptyHref);
      CountPrefixStep(links, i, HasJavascriptHref);
      CountPrefixStep(links, i, HasHashOnlyHref);
      CountPrefixStep(links, i, HasNoText);
      t := AnchorStep(links[i], t);
      i := i + 1;
    }
    assert links[..i] == links;
  }

  /** The button pass: the issues and the button-no-action counter. */
  method ButtonPass(buttons: seq<LinkInfo>) returns (issues: seq<LinkIssue>, buttonNoAction: nat)
    ensures issues == ButtonsIssues(buttons)
    ensures buttonNoAction == Count(buttons, LacksAction)
  {
    issues := [];
    buttonNoAction := 0;
    var i := 0;
    while i < |buttons|
      invariant 0 <= i <= |buttons|
      invariant issues == ButtonsIssues(buttons[..i])
      invariant buttonNoAction == Count(buttons[..i], LacksAction)
    {
      var btn := buttons[i];
      assert buttons[..i + 1][..i] == buttons[..i];
      var isSubmit := btn.buttonType == Some("submit");
      var hasAction := btn.hasOnclick || isSubmit;
      if !hasAction {
        buttonNoAction := buttonNoAction + 1;
        issues := issues + [Issue(Warning, ButtonNoAction, btn)];
      }
      i := i + 1;
    }
    assert buttons[..i] == buttons;
  }

  /** The link analysis of a page. Each counter equals both the number of elements of its class
      and the number of issues of its type; no anchor is counted in two destination classes. */
  method AnalyzeLinks(url: string, links: seq<LinkInfo>, buttons: seq<LinkInfo>) returns (r: LinkAnalysis)
    ensures r.url == url && r.links == links && r.buttons == buttons
    ensures r.issues == AnchorsIssues(links) + ButtonsIssues(buttons)
    ensures r.stats.totalLinks == |links| && r.stats.totalButtons == |buttons|
    ensures r.stats.emptyHref == Count(links, HasEmptyHref) == KindCount(r.issues, EmptyHref)
    ensures r.stats.javascriptVoid == Count(links, HasJavascriptHref) == KindCount(r.issues, JavascriptVoid)
    ensures r.stats.hashOnly == Count(links, HasHashOnlyHref) == KindCount(r.issues, HashOnly)
    ensures r.stats.noText == Count(links, HasNoText) == KindCount(r.issues, NoText)
    ensures r.stats.buttonNoAction == Count(buttons, LacksAction) == KindCount(r.issues, ButtonNoAction)
    ensures r.stats.emptyHref + r.stats.javascriptVoid + r.stats.hashOnly <= r.stats.totalLinks
    ensures forall i :: 0 <= i < |buttons| ==>
      (LacksAction(buttons[i]) ==> Issue(Warning, ButtonNoAction, buttons[i]) in r.issues)
  {
    var anchors := AnchorPass(links);
    var buttonIssues, buttonNoAction := ButtonPass(buttons);
    var stats := LinkStats(|links|, |buttons|, anchors.emptyHref, anchors.javascriptVoid,
                           anchors.hashOnly, anchors.noText, buttonNoAction);
    r := LinkAnalysis(url, links, buttons, anchors.issues + buttonIssues, stats);
    AnchorsIssuesCounts(links);
    DestinationClassesBound(links);
    ButtonsIssuesKinds(buttons);
    ButtonsIssuesFacts(buttons);
    KindCountsAppend(anchors.issues, buttonIssues);
  }
}
