/** The JavaScript string built-ins the rule loader and the rule engine rely on: `trim`,
    `trimStart`, `startsWith`, `endsWith`, `includes`, `indexOf`, `split`, `join`, the
    quote-stripping `replace(/^["']|["']$/g, "")`, and `toLowerCase` as far as its result is
    compared with ASCII words. */
module Text {
  import opened Wrappers

  /** The code points `String.prototype.trim` removes: ECMAScript WhiteSpace and LineTerminator. */
  predicate IsSpace(c: char) {
    var n := c as int;
    n == 0x09 || n == 0x0A || n == 0x0B || n == 0x0C || n == 0x0D || n == 0x20
    || n == 0xA0 || n == 0x1680 || 0x2000 <= n <= 0x200A || n == 0x2028 || n == 0x2029
    || n == 0x202F || n == 0x205F || n == 0x3000 || n == 0xFEFF
  }

  predicate AllSpace(s: string) {
    forall i :: 0 <= i < |s| ==> IsSpace(s[i])
  }

  /** Neither end of `s` is whitespace. */
  predicate Trimmed(s: string) {
    |s| == 0 || (!IsSpace(s[0]) && !IsSpace(s[|s| - 1]))
  }

  /** `s.trimStart()`: drops the leading whitespace and nothing else. */
  function TrimStart(s: string): (r: string)
    ensures |r| <= |s| && r == s[|s| - |r|..]
    ensures AllSpace(s[..|s| - |r|])
    ensures |r| == 0 || !IsSpace(r[0])
  {
    if |s| > 0 && IsSpace(s[0]) then
      var r := TrimStart(s[1..]);
      assert s[..|s| - |r|] == [s[0]] + s[1..][..|s| - 1 - |r|];
      r
    else s
  }

  /** `s.trimEnd()`: drops the trailing whitespace and nothing else. */
  function TrimEnd(s: string): (r: string)
    ensures |r| <= |s| && r == s[..|r|]
    ensures AllSpace(s[|r|..])
    ensures |r| == 0 || !IsSpace(r[|r| - 1])
  {
    if |s| > 0 && IsSpace(s[|s| - 1]) then
      var r := TrimEnd(s[..|s| - 1]);
      assert s[|r|..] == s[..|s| - 1][|r|..] + [s[|s| - 1]];
      r
    else s
  }

  /** `s.trim()`. */
  function Trim(s: string): (r: string)
    ensures Trimmed(r)
    ensures |r| <= |s|
  {
    TrimEnd(TrimStart(s))
  }

  lemma TrimStartAfterSpaces(a: string, t: string)
    requires AllSpace(a)
    ensures TrimStart(a + t) == TrimStart(t)
  {
    if |a| > 0 {
      assert (a + t)[1..] == a[1..] + t;
      TrimStartAfterSpaces(a[1..], t);
    } else {
      assert a + t == t;
    }
  }

  lemma TrimEndBeforeSpaces(t: string, b: string)
    requires AllSpace(b)
    ensures TrimEnd(t + b) == TrimEnd(t)
  {
    if |b| > 0 {
      assert (t + b)[..|t + b| - 1] == t + b[..|b| - 1];
      TrimEndBeforeSpaces(t, b[..|b| - 1]);
    } else {
      assert t + b == t;
    }
  }

  /** Trimming removes exactly the whitespace around a trimmed core, whatever that whitespace is. */
  lemma {:induction false} TrimPadded(a: string, m: string, b: string)
    requires AllSpace(a) && AllSpace(b) && Trimmed(m)
    ensures Trim(a + m + b) == m
  {
    assert a + m + b == a + (m + b);
    TrimStartAfterSpaces(a, m + b);
    if |m| == 0 {
      assert m + b == b;
      assert TrimStart(b) == "";
    } else {
      assert TrimStart(m + b) == m + b;
    }
    TrimEndBeforeSpaces(m, b);
  }

  /** A trimmed string is its own trim, so trimming twice is trimming once. */
  lemma TrimOfTrimmed(s: string)
    requires Trimmed(s)
    ensures Trim(s) == s
  {
    TrimPadded("", s, "");
    assert "" + s + "" == s;
  }

  /** A string is blank after trimming exactly when it consists of whitespace only. */
  lemma TrimEmptyIff(s: string)
    ensures Trim(s) == "" <==> AllSpace(s)
  {
    if AllSpace(s) {
      TrimPadded(s, "", "");
      assert s + "" + "" == s;
    }
  }

  predicate StartsWith(s: string, p: string) {
    |p| <= |s| && s[..|p|] == p
  }

  predicate EndsWith(s: string, p: string) {
    |p| <= |s| && s[|s| - |p|..] == p
  }

  /** `p` occurs in `s` starting at index `i`. */
  predicate OccursAt(s: string, p: string, i: int) {
    0 <= i && i + |p| <= |s| && s[i..i + |p|] == p
  }

  lemma OccursShift(s: string, p: string)
    requires |s| > 0
    ensures forall j :: 1 <= j ==> (OccursAt(s, p, j) <==> OccursAt(s[1..], p, j - 1))
  {
    forall j | 1 <= j
      ensures OccursAt(s, p, j) <==> OccursAt(s[1..], p, j - 1)
    {
      if j + |p| <= |s| {
        var u, t := s[j..j + |p|], s[1..][j - 1..j - 1 + |p|];
        forall k | 0 <= k < |p|
          ensures u[k] == t[k]
        {
        }
        assert u == t;
      }
    }
  }

  /** `s.indexOf(p)`, with `None` for JavaScript's -1: the first index at which `p` occurs. */
  function Find(s: string, p: string): (r: Option<nat>)
    ensures r.Some? ==> OccursAt(s, p, r.value)
    ensures r.Some? ==> forall j :: 0 <= j < r.value ==> !OccursAt(s, p, j)
    ensures r.None? ==> forall j :: !OccursAt(s, p, j)
    decreases |s|
  {
    if |s| < |p| then None
    else if s[..|p|] == p then Some(0)
    else
      OccursShift(s, p);
      match Find(s[1..], p)
      case None => None
      case Some(i) => Some(i + 1)
  }

  /** `s.includes(p)`. */
  predicate Contains(s: string, p: string) {
    Find(s, p).Some?
  }

  lemma ContainsIff(s: string, p: string)
    ensures Contains(s, p) <==> exists j :: OccursAt(s, p, j)
  {
  }

  /** A text containing `a + p + b` contains `p`. */
  lemma ContainsInfix(s: string, a: string, p: string, b: string)
    requires Contains(s, a + p + b)
    ensures Contains(s, p)
  {
    ContainsIff(s, a + p + b);
    var j :| OccursAt(s, a + p + b, j);
    forall k | 0 <= k < |p|
      ensures s[j + |a| + k] == p[k]
    {
      assert s[j..j + |a + p + b|][|a| + k] == (a + p + b)[|a| + k];
    }
    assert OccursAt(s, p, j + |a|);
    ContainsIff(s, p);
  }

  /** A prefix that ends before the first occurrence of `p` does not contain `p`. */
  lemma NoOccurrenceBefore(s: string, p: string, i: nat)
    requires |p| > 0 && i <= |s|
    requires forall j :: 0 <= j < i ==> !OccursAt(s, p, j)
    ensures !Contains(s[..i], p)
  {
    forall j | 0 <= j
      ensures !OccursAt(s[..i], p, j)
    {
      if j + |p| <= i {
        assert s[..i][j..j + |p|] == s[j..j + |p|];
        assert !OccursAt(s, p, j);
      }
    }
  }

  /** `s.split(sep)` for a non-empty separator: the pieces between the occurrences of `sep`,
      found left to right without overlap. */
  function Split(s: string, sep: string): (parts: seq<string>)
    requires |sep| > 0
    ensures |parts| >= 1
    ensures |parts| >= 2 <==> Contains(s, sep)
    decreases |s|
  {
    match Find(s, sep)
    case None => [s]
    case Some(i) =>
      [s[..i]] + Split(s[i + |sep|..], sep)
  }

  /** No piece of a split holds the separator. */
  lemma {:induction false} SplitPiecesFree(s: string, sep: string)
    requires |sep| > 0
    ensures forall k :: 0 <= k < |Split(s, sep)| ==> !Contains(Split(s, sep)[k], sep)
    decreases |s|
  {
    match Find(s, sep)
    case None =>
    case Some(i) =>
      NoOccurrenceBefore(s, sep, i);
      SplitPiecesFree(s[i + |sep|..], sep);
  }

  /** `parts.join(sep)`. */
  function Join(parts: seq<string>, sep: string): string {
    if |parts| == 0 then ""
    else if |parts| == 1 then parts[0]
    else parts[0] + sep + Join(parts[1..], sep)
  }

  /** Joining two non-empty lists of pieces is joining each and putting one separator between. */
  lemma {:induction false} JoinAppend(p: seq<string>, q: seq<string>, sep: string)
    requires |p| > 0 && |q| > 0
    ensures Join(p + q, sep) == Join(p, sep) + sep + Join(q, sep)
    decreases |p|
  {
    assert (p + q)[0] == p[0];
    assert (p + q)[1..] == p[1..] + q;
    if |p| > 1 {
      JoinAppend(p[1..], q, sep);
    } else {
      assert p[1..] + q == q;
    }
  }

  /** A character in neither the pieces nor the separator is not in their join. */
  lemma {:induction false} JoinCharFree(parts: seq<string>, sep: string, c: char)
    requires c !in sep && forall k :: 0 <= k < |parts| ==> c !in parts[k]
    ensures c !in Join(parts, sep)
    decreases |parts|
  {
    if |parts| > 1 {
      JoinCharFree(parts[1..], sep, c);
      assert c !in parts[0];
    }
  }

  /** Splitting and joining back with the same separator gives the original text. */
  lemma {:induction false} SplitThenJoin(s: string, sep: string)
    requires |sep| > 0
    ensures Join(Split(s, sep), sep) == s
    decreases |s|
  {
    match Find(s, sep)
    case None =>
    case Some(i) =>
      var rest := Split(s[i + |sep|..], sep);
      SplitThenJoin(s[i + |sep|..], sep);
      assert Split(s, sep) == [s[..i]] + rest;
      assert ([s[..i]] + rest)[1..] == rest;
      assert s[i..i + |sep|] == sep;
      assert s == s[..i] + s[i..i + |sep|] + s[i + |sep|..];
  }

  /** Text free of the separator is one piece. */
  lemma SplitWhole(s: string, sep: string)
    requires |sep| > 0 && !Contains(s, sep)
    ensures Split(s, sep) == [s]
  {
  }

  /** The first occurrence of `sep` in `a + sep + b` is the one after `a`, provided no occurrence
      starts inside `a` (not even one that runs into the separator that follows it). */
  lemma {:induction false} FindAfter(a: string, sep: string, b: string)
    requires |sep| > 0
    requires !Contains(a + sep[..|sep| - 1], sep)
    ensures Find(a + sep + b, sep) == Some(|a|)
  {
    var s := a + sep + b;
    var w := a + sep[..|sep| - 1];
    assert s[|a|..|a| + |sep|] == sep;
    assert OccursAt(s, sep, |a|);
    forall j | 0 <= j < |a|
      ensures !OccursAt(s, sep, j)
    {
      if j + |sep| <= |s| {
        assert s[j..j + |sep|] == w[j..j + |sep|];
      }
      assert !OccursAt(w, sep, j);
    }
  }

  /** The first piece ends at the first separator, under the condition of `FindAfter`. */
  lemma SplitAfter(a: string, sep: string, b: string)
    requires |sep| > 0
    requires !Contains(a + sep[..|sep| - 1], sep)
    ensures Split(a + sep + b, sep) == [a] + Split(b, sep)
  {
    var s := a + sep + b;
    FindAfter(a, sep, b);
    assert s[..|a|] == a;
    assert s[|a| + |sep|..] == b;
  }

  /** For a one-character pattern, `includes` is membership. */
  lemma ContainsChar(s: string, c: char)
    ensures Contains(s, [c]) <==> c in s
  {
    ContainsIff(s, [c]);
    if c in s {
      var j :| 0 <= j < |s| && s[j] == c;
      assert s[j..j + 1] == [c];
      assert OccursAt(s, [c], j);
    }
    if Contains(s, [c]) {
      var j :| OccursAt(s, [c], j);
      assert s[j] == s[j..j + 1][0];
    }
  }

  /** A text whose first character is not whitespace keeps that character first when trimmed. */
  lemma TrimKeepsFirst(s: string)
    requires |s| > 0 && !IsSpace(s[0])
    ensures TrimStart(s) == s
    ensures |Trim(s)| > 0 && Trim(s)[0] == s[0]
  {
    assert TrimStart(s) == s;
    var r := TrimEnd(s);
    assert !AllSpace(s);
    assert Trim(s) == r;
  }

  /** `StartsWith` with a one-character prefix looks at the first character. */
  lemma StartsWithChar(s: string, c: char)
    ensures StartsWith(s, [c]) <==> |s| > 0 && s[0] == c
  {
    if |s| > 0 {
      assert s[..1] == [s[0]];
    }
  }

  /** Joining pieces free of a one-character separator and splitting again gives the pieces. */
  lemma {:induction false} JoinThenSplit(parts: seq<string>, c: char)
    requires |parts| >= 1
    requires forall k :: 0 <= k < |parts| ==> !Contains(parts[k], [c])
    ensures Split(Join(parts, [c]), [c]) == parts
    decreases |parts|
  {
    if |parts| == 1 {
      SplitWhole(parts[0], [c]);
    } else {
      assert parts[0] + [c][..0] == parts[0];
      SplitAfter(parts[0], [c], Join(parts[1..], [c]));
      JoinThenSplit(parts[1..], c);
      assert parts == [parts[0]] + parts[1..];
    }
  }

  /** An occurrence in a text is an occurrence, shifted, in any text that ends with it. */
  lemma OccursAfterPrefix(a: string, t: string, p: string, j: int)
    requires OccursAt(t, p, j)
    ensures OccursAt(a + t, p, |a| + j)
  {
    assert (a + t)[|a| + j..|a| + j + |p|] == t[j..j + |p|];
  }

  /** A text contains each piece it was joined from. */
  lemma {:induction false} JoinContainsParts(parts: seq<string>, sep: string)
    ensures forall i :: 0 <= i < |parts| ==> Contains(Join(parts, sep), parts[i])
    decreases |parts|
  {
    if |parts| == 1 {
      assert OccursAt(parts[0], parts[0], 0);
    } else if |parts| > 1 {
      var rest := Join(parts[1..], sep);
      var head := parts[0] + sep;
      assert Join(parts, sep) == head + rest;
      JoinContainsParts(parts[1..], sep);
      assert (head + rest)[..|parts[0]|] == parts[0];
      assert OccursAt(head + rest, parts[0], 0);
      forall i | 1 <= i < |parts|
        ensures Contains(head + rest, parts[i])
      {
        assert Contains(rest, parts[1..][i - 1]);
        ContainsIff(rest, parts[i]);
        var j :| OccursAt(rest, parts[i], j);
        OccursAfterPrefix(head, rest, parts[i], j);
      }
    }
  }

  predicate IsQuote(c: char) {
    c == '"' || c == '\''
  }

  /** `s.replace(/^["']|["']$/g, "")`: removes one leading quote character and one trailing
      quote character, each independently of the other. */
  function StripQuotes(s: string): (r: string)
    ensures |r| <= |s| <= |r| + 2
    ensures (|s| == 0 || (!IsQuote(s[0]) && !IsQuote(s[|s| - 1]))) ==> r == s
  {
    var t := if |s| > 0 && IsQuote(s[0]) then s[1..] else s;
    if |t| > 0 && IsQuote(t[|t| - 1]) then t[..|t| - 1] else t
  }

  /** Exactly one layer of quotes goes, and the two quote characters need not match. */
  lemma StripOneLayer(q1: char, m: string, q2: char)
    requires IsQuote(q1) && IsQuote(q2)
    ensures StripQuotes([q1] + m + [q2]) == m
  {
    assert ([q1] + m + [q2])[1..] == m + [q2];
    assert (m + [q2])[..|m|] == m;
  }

  /** A leading quote goes alone when the text after it does not end in a quote. */
  lemma StripLeadingOnly(q: char, m: string)
    requires IsQuote(q) && (|m| == 0 || !IsQuote(m[|m| - 1]))
    ensures StripQuotes([q] + m) == m
  {
    assert ([q] + m)[1..] == m;
  }

  function LowerChar(c: char): char {
    if 'A' <= c <= 'Z' then (c as int + 32) as char else c
  }

  /** `s.toLowerCase()` on ASCII letters. Every comparison the model makes is against an
      ASCII word none of whose letters another code point lower-cases to, so this is exact there. */
  function ToLowerAscii(s: string): (r: string)
    ensures |r| == |s|
    ensures forall i :: 0 <= i < |s| ==> r[i] == LowerChar(s[i])
  {
    seq(|s|, i requires 0 <= i < |s| => LowerChar(s[i]))
  }
}
