/** The form analyzer: forms without a submit button, inputs without a label (or labelled only by
    a placeholder), and inputs whose name asks for an email or telephone type they do not have.
    Hidden and submit inputs are counted but otherwise skipped. */
module Forms {
  import opened Wrappers
  import opened HtmlTypes
  import Text

  const EmailFields: seq<string> := ["email", "e-mail", "mail"]
  const PhoneFields: seq<string> := ["phone", "tel", "telephone", "mobile"]

  /** `fields.some((f) => name.includes(f))`. */
  predicate MentionsAny(name: string, fields: seq<string>) {
    exists i :: 0 <= i < |fields| && Text.Contains(name, fields[i])
  }

  /** The input's name, lower-cased, or "" when it has none. */
  function LowerName(input: FormInputInfo): string {
    Text.ToLowerAscii(if Present(input.name) then input.name.value else "")
  }

  predicate IsSkipped(input: FormInputInfo) {
    input.inputType == "hidden" || input.inputType == "submit"
  }

  predicate IsLabelled(input: FormInputInfo) {
    !IsSkipped(input) && input.hasLabel
  }

  predicate IsUnlabelled(input: FormInputInfo) {
    !IsSkipped(input) && !input.hasLabel
  }

  /** An unlabelled input with a placeholder and no aria-label relies on the placeholder. */
  predicate UsesPlaceholder(input: FormInputInfo) {
    IsUnlabelled(input) && Present(input.placeholder) && !Present(input.ariaLabel)
  }

  predicate WantsEmail(input: FormInputInfo) {
    !IsSkipped(input) && MentionsAny(LowerName(input), EmailFields) && input.inputType != "email"
  }

  predicate WantsTel(input: FormInputInfo) {
    !IsSkipped(input) && MentionsAny(LowerName(input), PhoneFields) && input.inputType != "tel"
  }

  predicate LacksSubmit(form: FormInfo) {
    !form.hasSubmit
  }

  /** Every email field name contains "mail", so the email check asks exactly that. */
  lemma EmailFieldsAreMail(name: string)
    ensures MentionsAny(name, EmailFields) <==> Text.Contains(name, "mail")
  {
    if Text.Contains(name, "email") {
      assert "e" + "mail" + "" == "email";
      Text.ContainsInfix(name, "e", "mail", "");
    }
    if Text.Contains(name, "e-mail") {
      assert "e-" + "mail" + "" == "e-mail";
      Text.ContainsInfix(name, "e-", "mail", "");
    }
    if Text.Contains(name, "mail") {
      assert Text.Contains(name, EmailFields[2]);
    }
  }

  /** "telephone" contains "tel", so the telephone check asks for "phone", "tel" or "mobile". */
  lemma PhoneFieldsReduce(name: string)
    ensures MentionsAny(name, PhoneFields) <==>
      Text.Contains(name, "phone") || Text.Contains(name, "tel") || Text.Contains(name, "mobile")
  {
    if Text.Contains(name, "telephone") {
      assert "" + "tel" + "ephone" == "telephone";
      Text.ContainsInfix(name, "", "tel", "ephone");
    }
    if Text.Contains(name, "phone") {
      assert Text.Contains(name, PhoneFields[0]);
    }
    if Text.Contains(name, "tel") {
      assert Text.Contains(name, PhoneFields[1]);
    }
    if Text.Contains(name, "mobile") {
      assert Text.Contains(name, PhoneFields[3]);
    }
  }

  /** An unlabelled input without a usable placeholder has no label at all. */
  predicate LabelMissing(input: FormInputInfo) {
    IsUnlabelled(input) && !UsesPlaceholder(input)
  }

  /** The label issue of a checked input at `at`: none when labelled, else placeholder-as-label
      when a placeholder stands in, else missing-label. */
  function LabelIssue(at: FormSubject, input: FormInputInfo): seq<FormIssue> {
    if input.hasLabel then []
    else if Present(input.placeholder) && !Present(input.ariaLabel) then [Issue(Warning, PlaceholderAsLabel, at)]
    else [Issue(Error, MissingLabel, at)]
  }

  /** The wrong-type issue of a checked input at `at` whose name mentions one of `fields` but whose
      type is not `wanted`; the issue suggests `wanted`. */
  function TypeIssue(at: FormSubject, input: FormInputInfo, fields: seq<string>, wanted: string): seq<FormIssue> {
    if MentionsAny(LowerName(input), fields) && input.inputType != wanted
    then [Issue(Warning, WrongInputType, at.(suggestedType := Some(wanted)))] else []
  }

  /** The issues of one input of form `formIndex`: a label issue, then the wrong-type issues. */
  function InputIssues(formIndex: int, input: FormInputInfo): seq<FormIssue> {
    if IsSkipped(input) then []
    else
      var at := FormSubject(formIndex, Some(input.index), None);
      LabelIssue(at, input) + TypeIssue(at, input, EmailFields, "email") + TypeIssue(at, input, PhoneFields, "tel")
  }

  function InputsIssues(formIndex: int, inputs: seq<FormInputInfo>): seq<FormIssue> {
    Gather(inputs, (input: FormInputInfo) => InputIssues(formIndex, input))
  }

  /** The issues of one form: a missing submit button, then its inputs' issues. */
  function FormIssues(form: FormInfo): seq<FormIssue> {
    (if form.hasSubmit then [] else [Issue(Warning, NoSubmit, FormSubject(form.index, None, None))])
    + InputsIssues(form.index, form.inputs)
  }

  function FormsIssues(forms: seq<FormInfo>): seq<FormIssue> {
    Gather(forms, FormIssues)
  }

  /** Every input of every form, in page order. */
  function AllInputs(forms: seq<FormInfo>): seq<FormInputInfo> {
    if |forms| == 0 then [] else AllInputs(forms[..|forms| - 1]) + forms[|forms| - 1].inputs
  }

  /** The label issue of one checked input, by type. */
  lemma LabelIssueCounts(at: FormSubject, input: FormInputInfo)
    requires !IsSkipped(input)
    ensures KindCount(LabelIssue(at, input), MissingLabel) == (if LabelMissing(input) then 1 else 0)
    ensures KindCount(LabelIssue(at, input), PlaceholderAsLabel) == (if UsesPlaceholder(input) then 1 else 0)
    ensures KindCount(LabelIssue(at, input), WrongInputType) == 0
    ensures KindCount(LabelIssue(at, input), NoSubmit) == 0
  {
  }

  /** The wrong-type issue of one checked input, by type. */
  lemma TypeIssueCounts(at: FormSubject, input: FormInputInfo, fields: seq<string>, wanted: string)
    ensures KindCount(TypeIssue(at, input, fields, wanted), WrongInputType) ==
      (if MentionsAny(LowerName(input), fields) && input.inputType != wanted then 1 else 0)
    ensures KindCount(TypeIssue(at, input, fields, wanted), MissingLabel) == 0
    ensures KindCount(TypeIssue(at, input, fields, wanted), PlaceholderAsLabel) == 0
    ensures KindCount(TypeIssue(at, input, fields, wanted), NoSubmit) == 0
  {
  }

  /** The issues of one input, by type. */
  lemma InputIssueCounts(formIndex: int, input: FormInputInfo)
    ensures KindCount(InputIssues(formIndex, input), MissingLabel) == (if LabelMissing(input) then 1 else 0)
    ensures KindCount(InputIssues(formIndex, input), PlaceholderAsLabel) == (if UsesPlaceholder(input) then 1 else 0)
    ensures KindCount(InputIssues(formIndex, input), WrongInputType) ==
      (if WantsEmail(input) then 1 else 0) + (if WantsTel(input) then 1 else 0)
    ensures KindCount(InputIssues(formIndex, input), NoSubmit) == 0
  {
    if !IsSkipped(input) {
      var at := FormSubject(formIndex, Some(input.index), None);
      var labelIssue := LabelIssue(at, input);
      var email := TypeIssue(at, input, EmailFields, "email");
      var tel := TypeIssue(at, input, PhoneFields, "tel");
      LabelIssueCounts(at, input);
      TypeIssueCounts(at, input, EmailFields, "email");
      TypeIssueCounts(at, input, PhoneFields, "tel");
      assert InputIssues(formIndex, input) == labelIssue + email + tel;
      KindCountAppend(labelIssue, email, MissingLabel);
      KindCountAppend(labelIssue, email, PlaceholderAsLabel);
      KindCountAppend(labelIssue, email, WrongInputType);
      KindCountAppend(labelIssue, email, NoSubmit);
      KindCountAppend(labelIssue + email, tel, MissingLabel);
      KindCountAppend(labelIssue + email, tel, PlaceholderAsLabel);
      KindCountAppend(labelIssue + email, tel, WrongInputType);
      KindCountAppend(labelIssue + email, tel, NoSubmit);
    }
  }

  /** Every unlabelled input either relies on a placeholder or has no label at all. */
  lemma {:induction false} UnlabelledPartition(inputs: seq<FormInputInfo>)
    ensures Count(inputs, LabelMissing) + Count(inputs, UsesPlaceholder) == Count(inputs, IsUnlabelled)
  {
    if |inputs| > 0 {
      UnlabelledPartition(inputs[..|inputs| - 1]);
    }
  }

  /** The issues of a form's inputs, by type. */
  lemma InputsIssueCounts(formIndex: int, inputs: seq<FormInputInfo>)
    ensures KindCount(InputsIssues(formIndex, inputs), MissingLabel)
      + KindCount(InputsIssues(formIndex, inputs), PlaceholderAsLabel) == Count(inputs, IsUnlabelled)
    ensures KindCount(InputsIssues(formIndex, inputs), PlaceholderAsLabel) == Count(inputs, UsesPlaceholder)
    ensures KindCount(InputsIssues(formIndex, inputs), WrongInputType) ==
      Count(inputs, WantsEmail) + Count(inputs, WantsTel)
    ensures KindCount(InputsIssues(formIndex, inputs), NoSubmit) == 0
  {
    var issuesOf := (input: FormInputInfo) => InputIssues(formIndex, input);
    forall input: FormInputInfo
      ensures KindCount(issuesOf(input), MissingLabel) == (if LabelMissing(input) then 1 else 0)
      ensures KindCount(issuesOf(input), PlaceholderAsLabel) == (if UsesPlaceholder(input) then 1 else 0)
      ensures KindCount(issuesOf(input), WrongInputType) ==
        (if WantsEmail(input) then 1 else 0) + (if WantsTel(input) then 1 else 0)
      ensures KindCount(issuesOf(input), NoSubmit) == 0
    {
      InputIssueCounts(formIndex, input);
    }
    var never := (input: FormInputInfo) => false;
    GatherKindCount(inputs, issuesOf, MissingLabel, LabelMissing);
    GatherKindCount(inputs, issuesOf, PlaceholderAsLabel, UsesPlaceholder);
    GatherKindCount2(inputs, issuesOf, WrongInputType, WantsEmail, WantsTel);
    GatherKindCount(inputs, issuesOf, NoSubmit, never);
    CountNone(inputs, never);
    UnlabelledPartition(inputs);
  }

  /** The issues of one form, by type. */
  lemma FormIssueCounts(form: FormInfo)
    ensures KindCount(FormIssues(form), NoSubmit) == (if LacksSubmit(form) then 1 else 0)
    ensures KindCount(FormIssues(form), MissingLabel)
      + KindCount(FormIssues(form), PlaceholderAsLabel) == Count(form.inputs, IsUnlabelled)
    ensures KindCount(FormIssues(form), PlaceholderAsLabel) == Count(form.inputs, UsesPlaceholder)
    ensures KindCount(FormIssues(form), WrongInputType) ==
      Count(form.inputs, WantsEmail) + Count(form.inputs, WantsTel)
  {
    var submit: seq<FormIssue> := if form.hasSubmit then [] else [Issue(Warning, NoSubmit, FormSubject(form.index, None, None))];
    var inputs := InputsIssues(form.index, form.inputs);
    InputsIssueCounts(form.index, form.inputs);
    KindCountAppend(submit, inputs, NoSubmit);
    KindCountAppend(submit, inputs, MissingLabel);
    KindCountAppend(submit, inputs, PlaceholderAsLabel);
    KindCountAppend(submit, inputs, WrongInputType);
  }

  /** The issues of a page's forms, by type: one no-submit issue per form without a submit
      button, one label issue per unlabelled input and one wrong-type issue per mismatch. */
  lemma {:induction false} FormsIssueCounts(forms: seq<FormInfo>)
    ensures KindCount(FormsIssues(forms), NoSubmit) == Count(forms, LacksSubmit)
    ensures KindCount(FormsIssues(forms), MissingLabel)
      + KindCount(FormsIssues(forms), PlaceholderAsLabel) == Count(AllInputs(forms), IsUnlabelled)
    ensures KindCount(FormsIssues(forms), PlaceholderAsLabel) == Count(AllInputs(forms), UsesPlaceholder)
    ensures KindCount(FormsIssues(forms), WrongInputType) ==
      Count(AllInputs(forms), WantsEmail) + Count(AllInputs(forms), WantsTel)
  {
    if |forms| > 0 {
      var front := forms[..|forms| - 1];
      var form := forms[|forms| - 1];
      var before := FormsIssues(front);
      assert FormsIssues(forms) == before + FormIssues(form);
      assert AllInputs(forms) == AllInputs(front) + form.inputs;
      FormsIssueCounts(front);
      FormIssueCounts(form);
      KindCountAppend(before, FormIssues(form), NoSubmit);
      KindCountAppend(before, FormIssues(form), MissingLabel);
      KindCountAppend(before, FormIssues(form), PlaceholderAsLabel);
      KindCountAppend(before, FormIssues(form), WrongInputType);
      CountAppend(AllInputs(front), form.inputs, IsUnlabelled);
      CountAppend(AllInputs(front), form.inputs, UsesPlaceholder);
      CountAppend(AllInputs(front), form.inputs, WantsEmail);
      CountAppend(AllInputs(front), form.inputs, WantsTel);
    }
  }

  /** Skipped inputs are neither labelled nor unlabelled, so the two counts leave them out. */
  lemma {:induction false} LabelCountsBound(inputs: seq<FormInputInfo>)
    ensures Count(inputs, IsLabelled) + Count(inputs, IsUnlabelled) <= |inputs|
  {
    if |inputs| > 0 {
      LabelCountsBound(inputs[..|inputs| - 1]);
    }
  }

  datatype FormTally = FormTally(issues: seq<FormIssue>, totalInputs: nat, inputsWithLabels: nat, inputsWithoutLabels: nat)

  /** The label check of the input pass for a checked input at `at`. */
  method LabelStep(at: FormSubject, input: FormInputInfo, t: FormTally) returns (u: FormTally)
    ensures u.issues == t.issues + LabelIssue(at, input)
    ensures u.totalInputs == t.totalInputs
    ensures u.inputsWithLabels == t.inputsWithLabels + (if input.hasLabel then 1 else 0)
    ensures u.inputsWithoutLabels == t.inputsWithoutLabels + (if input.hasLabel then 0 else 1)
  {
    u := t;
    if !input.hasLabel {
      u := u.(inputsWithoutLabels := u.inputsWithoutLabels + 1);
      if Present(input.placeholder) && !Present(input.ariaLabel) {
        u := u.(issues := u.issues + [Issue(Warning, PlaceholderAsLabel, at)]);
      } else {
        u := u.(issues := u.issues + [Issue(Error, MissingLabel, at)]);
      }
    } else {
      u := u.(inputsWithLabels := u.inputsWithLabels + 1);
    }
  }

  /** One type check of the input pass for a checked input at `at` whose lower-cased name is
      `name`. */
  method TypeStep(at: FormSubject, input: FormInputInfo, name: string, fields: seq<string>, wanted: string,
                  issues: seq<FormIssue>) returns (issues': seq<FormIssue>)
    requires name == LowerName(input)
    ensures issues' == issues + TypeIssue(at, input, fields, wanted)
  {
    issues' := issues;
    if MentionsAny(name, fields) && input.inputType != wanted {
      issues' := issues' + [Issue(Warning, WrongInputType, at.(suggestedType := Some(wanted)))];
    }
  }

  /** One input of the input pass: count it, then, unless it is hidden or a submit button, count
      its label and add its issues. */
  method InputStep(formIndex: int, input: FormInputInfo, t: FormTally) returns (u: FormTally)
    ensures u.issues == t.issues + InputIssues(formIndex, input)
    ensures u.totalInputs == t.totalInputs + 1
    ensures u.inputsWithLabels == t.inputsWithLabels + (if IsLabelled(input) then 1 else 0)
    ensures u.inputsWithoutLabels == t.inputsWithoutLabels + (if IsUnlabelled(input) then 1 else 0)
  {
    u := t.(totalInputs := t.totalInputs + 1);
    if input.inputType == "hidden" || input.inputType == "submit" {
      return;
    }
    var at := FormSubject(formIndex, Some(input.index), None);
    u := LabelStep(at, input, u);
    var name := LowerName(input);
    var issues := TypeStep(at, input, name, EmailFields, "email", u.issues);
    issues := TypeStep(at, input, name, PhoneFields, "tel", issues);
    AppendAssoc(t.issues, LabelIssue(at, input), TypeIssue(at, input, EmailFields, "email"));
    AppendAssoc(t.issues, LabelIssue(at, input) + TypeIssue(at, input, EmailFields, "email"), TypeIssue(at, input, PhoneFields, "tel"));
    u := u.(issues := issues);
  }

  /** The input pass over one form. */
  method InputPass(form: FormInfo) returns (u: FormTally)
    ensures u.issues == InputsIssues(form.index, form.inputs)
    ensures u.totalInputs == |form.inputs|
    ensures u.inputsWithLabels == Count(form.inputs, IsLabelled)
    ensures u.inputsWithoutLabels == Count(form.inputs, IsUnlabelled)
  {
    u := FormTally([], 0, 0, 0);
    var inputs := form.inputs;
    var j := 0;
    while j < |inputs|
      invariant 0 <= j <= |inputs|
      invariant u.issues == InputsIssues(form.index, inputs[..j])
      invariant u.totalInputs == j
      invariant u.inputsWithLabels == Count(inputs[..j], IsLabelled)
      invariant u.inputsWithoutLabels == Count(inputs[..j], IsUnlabelled)
    {
      GatherPrefixStep(inputs, j, (input: FormInputInfo) => InputIssues(form.index, input));
      CountPrefixStep(inputs, j, IsLabelled);
      CountPrefixStep(inputs, j, IsUnlabelled);
      u := InputStep(form.index, inputs[j], u);
      j := j + 1;
    }
    assert inputs[..j] == inputs;
  }

  /** The form analysis of a page. The input total counts every input, the labelled and unlabelled
      counts leave hidden and submit inputs out, and the issue counts match the classes they flag. */
  method AnalyzeForms(url: string, forms: seq<FormInfo>) returns (r: FormAnalysis)
    ensures r.url == url && r.forms == forms
    ensures r.issues == FormsIssues(forms)
    ensures r.stats.totalForms == |forms|
    ensures r.stats.totalInputs == |AllInputs(forms)|
    ensures r.stats.inputsWithLabels == Count(AllInputs(forms), IsLabelled)
    ensures r.stats.inputsWithoutLabels == Count(AllInputs(forms), IsUnlabelled)
    ensures r.stats.inputsWithLabels + r.stats.inputsWithoutLabels <= r.stats.totalInputs
    ensures KindCount(r.issues, NoSubmit) == Count(forms, LacksSubmit)
    ensures KindCount(r.issues, MissingLabel) + KindCount(r.issues, PlaceholderAsLabel) == r.stats.inputsWithoutLabels
    ensures KindCount(r.issues, PlaceholderAsLabel) == Count(AllInputs(forms), UsesPlaceholder)
    ensures KindCount(r.issues, WrongInputType) == Count(AllInputs(forms), WantsEmail) + Count(AllInputs(forms), WantsTel)
  {
    var t := FormTally([], 0, 0, 0);
    var i := 0;
    while i < |forms|
      invariant 0 <= i <= |forms|
      invariant t.issues == FormsIssues(forms[..i])
      invariant t.totalInputs == |AllInputs(forms[..i])|
      invariant t.inputsWithLabels == Count(AllInputs(forms[..i]), IsLabelled)
      invariant t.inputsWithoutLabels == Count(AllInputs(forms[..i]), IsUnlabelled)
    {
      var form := forms[i];
      assert forms[..i + 1][..i] == forms[..i];
      CountAppend(AllInputs(forms[..i]), form.inputs, IsLabelled);
      CountAppend(AllInputs(forms[..i]), form.inputs, IsUnlabelled);
      var submit: seq<FormIssue> := [];
      if !form.hasSubmit {
        submit := [Issue(Warning, NoSubmit, FormSubject(form.index, None, None))];
      }
      var u := InputPass(form);
      AppendAssoc(t.issues, submit, u.issues);
      t := FormTally(t.issues + submit + u.issues, t.totalInputs + u.totalInputs,
                     t.inputsWithLabels + u.inputsWithLabels, t.inputsWithoutLabels + u.inputsWithoutLabels);
      i := i + 1;
    }
    assert forms[..i] == forms;
    r := FormAnalysis(url, forms, t.issues, FormStats(|forms|, t.totalInputs, t.inputsWithLabels, t.inputsWithoutLabels));
    FormsIssueCounts(forms);
    LabelCountsBound(AllInputs(forms));
  }
}
