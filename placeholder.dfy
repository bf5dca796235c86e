/**
 * Templates with `{name}` placeholders, filled by chained first-occurrence
 * `replace` calls. A template is described by its segments (literal text and
 * named holes); when the literal text and the substituted values carry no `{`,
 * each `replace` fills exactly the first hole of its name, and a chain of them
 * fills the first hole of each name, in the chain's order.
 */
module Placeholder {
  import opened JsString

  datatype Segment = Lit(text: string) | Hole(name: string)

  /** The placeholder token for `name`. */
  function Token(name: string): string {
    "{" + name + "}"
  }

  /** A placeholder name: no braces inside. */
  predicate ValidName(name: string) {
    '{' !in name && '}' !in name
  }

  function SegmentText(seg: Segment): string {
    match seg
    case Lit(t) => t
    case Hole(n) => Token(n)
  }

  /** Literal text holds no `{`; a hole has a valid name. */
  predicate SegmentOk(seg: Segment) {
    match seg
    case Lit(t) => '{' !in t
    case Hole(n) => ValidName(n)
  }

  predicate WellFormed(segs: seq<Segment>) {
    forall k :: 0 <= k < |segs| ==> SegmentOk(segs[k])
  }

  /** The template text the segments spell out. */
  function Render(segs: seq<Segment>): string {
    if segs == [] then "" else SegmentText(segs[0]) + Render(segs[1..])
  }

  /** The segments with the first hole named `name` turned into the literal `value`. */
  function FillFirst(segs: seq<Segment>, name: string, value: string): (r: seq<Segment>)
    ensures |r| == |segs|
    ensures (forall k :: 0 <= k < |segs| ==> segs[k] != Hole(name)) ==> r == segs
    ensures WellFormed(segs) && '{' !in value ==> WellFormed(r)
  {
    if segs == [] then []
    else if segs[0] == Hole(name) then [Lit(value)] + segs[1..]
    else [segs[0]] + FillFirst(segs[1..], name, value)
  }

  /** The segments with `FillFirst` applied for each (name, value) pair in order. */
  function FillAll(segs: seq<Segment>, subs: seq<(string, string)>): seq<Segment>
    decreases |subs|
  {
    if subs == [] then segs else FillAll(FillFirst(segs, subs[0].0, subs[0].1), subs[1..])
  }

  /** `s.replace('{n1}', v1).replace('{n2}', v2)...`: one first-occurrence replace per pair, each acting on the previous result. */
  function Substitute(s: string, subs: seq<(string, string)>): string
    decreases |subs|
  {
    if subs == [] then s else Substitute(Replace(s, Token(subs[0].0), subs[0].1), subs[1..])
  }

  /** Text without an opening brace. */
  predicate NoBrace(s: string) {
    '{' !in s
  }

  /** Every name is valid and no value carries a `{`. */
  predicate CleanSubs(subs: seq<(string, string)>) {
    forall k :: 0 <= k < |subs| ==> ValidName(subs[k].0) && '{' !in subs[k].1
  }

  // ---------------------------------------------------------------------
  // Proofs

  lemma OccursShift(a: string, s: string, pat: string, k: nat)
    ensures OccursAt(a + s, pat, |a| + k) <==> OccursAt(s, pat, k)
  {
    if k + |pat| <= |s| {
      assert (a + s)[|a| + k..|a| + k + |pat|] == s[k..k + |pat|];
    }
  }

  /** With no occurrence in `a` and none in `s`, there is none in `a + s`. */
  lemma NoOccurrenceInJoin(a: string, s: string, pat: string)
    requires forall k: nat :: k < |a| ==> !OccursAt(a + s, pat, k)
    requires !Contains(s, pat)
    ensures !Contains(a + s, pat)
  {
    forall j: nat ensures !OccursAt(a + s, pat, j) {
      if j >= |a| {
        OccursShift(a, s, pat, j - |a|);
      }
    }
  }

  /** The first occurrence in `s` is the first in `a + s`, when none starts in `a`. */
  lemma FirstOccurrenceInJoin(a: string, s: string, pat: string, i: nat)
    requires forall k: nat :: k < |a| ==> !OccursAt(a + s, pat, k)
    requires FirstOccurrence(s, pat, i)
    ensures FirstOccurrence(a + s, pat, |a| + i)
  {
    OccursShift(a, s, pat, i);
    forall j: nat | j < |a| + i ensures !OccursAt(a + s, pat, j) {
      if j >= |a| {
        OccursShift(a, s, pat, j - |a|);
      }
    }
  }

  /** A prefix in which `pat` cannot start is passed over by `replace`. */
  lemma ReplaceAfterSafePrefix(a: string, s: string, pat: string, rep: string)
    requires forall k: nat :: k < |a| ==> !OccursAt(a + s, pat, k)
    ensures Replace(a + s, pat, rep) == a + Replace(s, pat, rep)
  {
    if Contains(s, pat) {
      ReplaceFoundAfterPrefix(a, s, pat, rep, IndexOf(s, pat).value);
    } else {
      NoOccurrenceInJoin(a, s, pat);
    }
  }

  lemma ReplaceFoundAfterPrefix(a: string, s: string, pat: string, rep: string, i: nat)
    requires forall k: nat :: k < |a| ==> !OccursAt(a + s, pat, k)
    requires FirstOccurrence(s, pat, i)
    ensures Replace(a + s, pat, rep) == a + Replace(s, pat, rep)
  {
    FirstOccurrenceInJoin(a, s, pat, i);
    SliceAroundJoin(a, s, pat, rep, i);
  }

  lemma SliceAroundJoin(a: string, s: string, pat: string, rep: string, i: nat)
    requires FirstOccurrence(a + s, pat, |a| + i)
    requires FirstOccurrence(s, pat, i)
    ensures Replace(a + s, pat, rep) == a + Replace(s, pat, rep)
  {
    ReplaceAt(a + s, pat, rep, |a| + i);
    ReplaceAt(s, pat, rep, i);
    SpliceJoin(a, s, pat, rep, i);
  }

  lemma ReplaceAt(s: string, pat: string, rep: string, k: nat)
    requires FirstOccurrence(s, pat, k)
    ensures Replace(s, pat, rep) == s[..k] + rep + s[k + |pat|..]
  {
  }

  lemma SpliceJoin(a: string, s: string, pat: string, rep: string, i: nat)
    requires i + |pat| <= |s|
    ensures (a + s)[..|a| + i] + rep + (a + s)[|a| + i + |pat|..] == a + (s[..i] + rep + s[i + |pat|..])
  {
    var t := a + s;
    var k := |a| + i;
    assert t[..k] == a + s[..i];
    assert t[k + |pat|..] == s[i + |pat|..];
  }

  /** No placeholder token can start inside text free of `{`. */
  lemma NoTokenInLiteral(t: string, rest: string, n: string)
    requires '{' !in t
    ensures forall k: nat :: k < |t| ==> !OccursAt(t + rest, Token(n), k)
  {
    forall k: nat | k < |t| ensures !OccursAt(t + rest, Token(n), k) {
      assert (t + rest)[k] == t[k];
    }
  }

  /** A token for another valid name is no start for `Token(n)`. */
  lemma NoTokenInOtherToken(m: string, rest: string, n: string)
    requires ValidName(m) && ValidName(n) && m != n
    ensures forall k: nat :: k < |Token(m)| ==> !OccursAt(Token(m) + rest, Token(n), k)
  {
    var s := Token(m) + rest;
    forall k: nat | 0 < k < |Token(m)| ensures !OccursAt(s, Token(n), k) {
      assert s[k] != '{' by {
        if k <= |m| {
          assert s[k] == m[k - 1];
        } else {
          assert s[k] == '}';
        }
      }
    }
    if |n| < |m| {
      assert s[|n| + 1] == m[|n|];
      assert Token(n)[|n| + 1] == '}';
    } else if |n| > |m| {
      assert s[|m| + 1] == '}';
      assert Token(n)[|m| + 1] == n[|m|];
    } else {
      var i :| 0 <= i < |m| && m[i] != n[i];
      assert s[i + 1] == m[i];
      assert Token(n)[i + 1] == n[i];
    }
  }

  lemma RenderCons(segs: seq<Segment>)
    requires segs != []
    ensures Render(segs) == SegmentText(segs[0]) + Render(segs[1..])
  {
  }

  lemma WellFormedTail(segs: seq<Segment>)
    requires segs != [] && WellFormed(segs)
    ensures WellFormed(segs[1..])
  {
    forall k | 0 <= k < |segs[1..]| ensures segs[1..][k] == segs[k + 1] { }
  }

  /** The first segment is the hole being filled. */
  lemma ReplaceHoleAtHead(segs: seq<Segment>, n: string, v: string)
    requires segs != [] && segs[0] == Hole(n)
    ensures Replace(Render(segs), Token(n), v) == Render(FillFirst(segs, n, v))
  {
    var rest := Render(segs[1..]);
    var s := Token(n) + rest;
    RenderCons(segs);
    assert FirstOccurrence(s, Token(n), 0);
    assert s[..0] == [] && s[|Token(n)|..] == rest;
    var filled := [Lit(v)] + segs[1..];
    assert FillFirst(segs, n, v) == filled;
    RenderCons(filled);
    assert filled[1..] == segs[1..];
  }

  /** The first segment is passed over; the replace acts on the rest. */
  lemma ReplacePastHead(segs: seq<Segment>, n: string, v: string)
    requires segs != [] && segs[0] != Hole(n) && SegmentOk(segs[0]) && ValidName(n)
    ensures Replace(Render(segs), Token(n), v) == SegmentText(segs[0]) + Replace(Render(segs[1..]), Token(n), v)
  {
    var rest := Render(segs[1..]);
    RenderCons(segs);
    match segs[0]
    case Lit(t) =>
      NoTokenInLiteral(t, rest, n);
      ReplaceAfterSafePrefix(t, rest, Token(n), v);
    case Hole(m) =>
      NoTokenInOtherToken(m, rest, n);
      ReplaceAfterSafePrefix(Token(m), rest, Token(n), v);
  }

  /** On a well-formed template, `replace` of a token fills the first hole of that name. */
  lemma {:induction false} ReplaceFillsFirstHole(segs: seq<Segment>, n: string, v: string)
    requires WellFormed(segs) && ValidName(n)
    ensures Replace(Render(segs), Token(n), v) == Render(FillFirst(segs, n, v))
  {
    if segs == [] {
      assert !OccursAt("", Token(n), 0);
      assert !Contains("", Token(n));
    } else if segs[0] == Hole(n) {
      ReplaceHoleAtHead(segs, n, v);
    } else {
      WellFormedTail(segs);
      ReplacePastHead(segs, n, v);
      ReplaceFillsFirstHole(segs[1..], n, v);
      var filled := FillFirst(segs, n, v);
      assert filled == [segs[0]] + FillFirst(segs[1..], n, v);
      RenderCons(filled);
      assert filled[1..] == FillFirst(segs[1..], n, v);
    }
  }

  /** On a well-formed template, a chain of `replace` calls with brace-free values fills the first hole of each name, in order. */
  lemma {:induction false} SubstituteFillsHoles(segs: seq<Segment>, subs: seq<(string, string)>)
    requires WellFormed(segs) && CleanSubs(subs)
    ensures Substitute(Render(segs), subs) == Render(FillAll(segs, subs))
    decreases |subs|
  {
    if subs != [] {
      ReplaceFillsFirstHole(segs, subs[0].0, subs[0].1);
      var segs' := FillFirst(segs, subs[0].0, subs[0].1);
      assert CleanSubs(subs[1..]) by {
        forall k | 0 <= k < |subs[1..]| ensures subs[1..][k] == subs[k + 1] { }
      }
      SubstituteFillsHoles(segs', subs[1..]);
    }
  }

  /** A chain split in two runs its first part, then its second part on that result. */
  lemma {:induction false} SubstituteAppend(s: string, a: seq<(string, string)>, b: seq<(string, string)>)
    ensures Substitute(s, a + b) == Substitute(Substitute(s, a), b)
    decreases |a|
  {
    if a != [] {
      assert (a + b)[0] == a[0] && (a + b)[1..] == a[1..] + b;
      SubstituteAppend(Replace(s, Token(a[0].0), a[0].1), a[1..], b);
    } else {
      assert a + b == b;
    }
  }

  /** Text without `{` holds no token, so every `replace` of a token leaves it as it is. */
  lemma {:induction false} NoBraceUnchanged(s: string, subs: seq<(string, string)>)
    requires '{' !in s
    ensures Substitute(s, subs) == s
    decreases |subs|
  {
    if subs != [] {
      var pat := Token(subs[0].0);
      forall j: nat | j + |pat| <= |s| ensures !OccursAt(s, pat, j) {
        assert s[j..j + |pat|][0] == s[j];
      }
      assert !Contains(s, pat);
      NoBraceUnchanged(s, subs[1..]);
    }
  }

  /** The first token in `a + Token(n) + rest`, when `a` holds no `{`, is the one after `a`. */
  lemma ReplaceAfterBraceFree(a: string, n: string, rest: string, v: string)
    requires '{' !in a
    ensures Replace(a + Token(n) + rest, Token(n), v) == a + v + rest
  {
    var s := a + Token(n) + rest;
    var pat := Token(n);
    assert s[|a|..|a| + |pat|] == pat;
    forall j: nat | j < |a| ensures !OccursAt(s, pat, j) {
      assert s[j] == a[j];
    }
    assert FirstOccurrence(s, pat, |a|);
    assert s[..|a|] == a && s[|a| + |pat|..] == rest;
  }

  /** A chain whose first name's token follows a brace-free prefix fills that token and goes on. */
  lemma SubstituteFillsAfterBraceFree(a: string, n: string, rest: string, v: string, subs: seq<(string, string)>)
    requires '{' !in a
    ensures Substitute(a + Token(n) + rest, [(n, v)] + subs) == Substitute(a + v + rest, subs)
  {
    ReplaceAfterBraceFree(a, n, rest, v);
    assert ([(n, v)] + subs)[0] == (n, v) && ([(n, v)] + subs)[1..] == subs;
  }

  /** Joining two brace-free texts gives a brace-free text. */
  lemma NoBraceAppend(x: string, y: string)
    requires NoBrace(x) && NoBrace(y)
    ensures NoBrace(x + y)
  {
  }

  /** Text without `{` holds no token. */
  lemma NoBraceNoToken(s: string, n: string)
    requires '{' !in s
    ensures !Contains(s, Token(n))
  {
    forall j: nat | j + |Token(n)| <= |s| ensures !OccursAt(s, Token(n), j) {
      assert s[j..j + |Token(n)|][0] == s[j];
    }
  }

  /** A brace-free prefix and the token of another name add no occurrence of `Token(n)`. */
  lemma NoTokenAfterOther(a: string, m: string, rest: string, n: string)
    requires '{' !in a && ValidName(m) && ValidName(n) && m != n
    requires !Contains(rest, Token(n))
    ensures !Contains(a + Token(m) + rest, Token(n))
  {
    NoTokenInOtherToken(m, rest, n);
    NoOccurrenceInJoin(Token(m), rest, Token(n));
    NoTokenInLiteral(a, Token(m) + rest, n);
    assert a + Token(m) + rest == a + (Token(m) + rest);
    NoOccurrenceInJoin(a, Token(m) + rest, Token(n));
  }

  /** A chain step whose token is absent leaves the text as it is. */
  lemma SubstituteSkipsMissing(s: string, n: string, v: string, subs: seq<(string, string)>)
    requires !Contains(s, Token(n))
    ensures Substitute(s, [(n, v)] + subs) == Substitute(s, subs)
  {
    assert ([(n, v)] + subs)[0] == (n, v) && ([(n, v)] + subs)[1..] == subs;
  }

  // ---------------------------------------------------------------------
  // Chains that follow the template's own order

  /**
   * One link of a replace chain read against a template laid out in the
   * chain's order: `Fill` meets its token next, followed by the literal text
   * `after`; `Skip` names a placeholder the rest of the template lacks.
   */
  datatype Step = Fill(name: string, value: string, after: string) | Skip(name: string, value: string)

  /** The template text the steps lay out: each `Fill`'s token, then its text. */
  function Blank(steps: seq<Step>): string {
    if steps == [] then ""
    else
      match steps[0]
      case Fill(n, _, a) => Token(n) + a + Blank(steps[1..])
      case Skip(_, _) => Blank(steps[1..])
  }

  /** The same text with each `Fill`'s value in place of its token. */
  function Filled(steps: seq<Step>): string {
    if steps == [] then ""
    else
      match steps[0]
      case Fill(_, v, a) => v + a + Filled(steps[1..])
      case Skip(_, _) => Filled(steps[1..])
  }

  /** `subs` is the replace chain of the steps: one (name, value) pair per step, in order. */
  predicate ChainOf(subs: seq<(string, string)>, steps: seq<Step>) {
    |subs| == |steps| && forall k :: 0 <= k < |steps| ==> subs[k] == (steps[k].name, steps[k].value)
  }

  predicate StepOk(step: Step) {
    ValidName(step.name) && '{' !in step.value && (step.Fill? ==> '{' !in step.after)
  }

  /** No later step fills `name`, and the text after the steps holds no token for it. */
  predicate AbsentLater(name: string, later: seq<Step>, tail: string) {
    (forall j :: 0 <= j < |later| ==> !(later[j].Fill? && later[j].name == name)) && !Contains(tail, Token(name))
  }

  predicate InOrder(steps: seq<Step>, tail: string) {
    forall k :: 0 <= k < |steps| ==> StepOk(steps[k]) && (steps[k].Skip? ==> AbsentLater(steps[k].name, steps[k + 1..], tail))
  }

  lemma InOrderTail(steps: seq<Step>, tail: string)
    requires steps != [] && InOrder(steps, tail)
    ensures InOrder(steps[1..], tail)
  {
    forall k | 0 <= k < |steps[1..]|
      ensures steps[1..][k] == steps[k + 1] && steps[1..][k + 1..] == steps[k + 2..]
    {
    }
  }

  lemma {:induction false} NoTokenInBlank(steps: seq<Step>, tail: string, n: string)
    requires ValidName(n) && !Contains(tail, Token(n))
    requires forall k :: 0 <= k < |steps| ==> ValidName(steps[k].name) && (steps[k].Fill? ==> '{' !in steps[k].after && steps[k].name != n)
    ensures !Contains(Blank(steps) + tail, Token(n))
  {
    if steps != [] {
      var rest := steps[1..];
      assert forall k :: 0 <= k < |rest| ==> rest[k] == steps[k + 1];
      NoTokenInBlank(rest, tail, n);
      match steps[0]
      case Fill(m, _, a) =>
        var b := Blank(rest) + tail;
        NoTokenInLiteral(a, b, n);
        NoOccurrenceInJoin(a, b, Token(n));
        NoTokenInOtherToken(m, a + b, n);
        NoOccurrenceInJoin(Token(m), a + b, Token(n));
        AppendAssoc(Token(m), a, b);
        AppendAssoc(Token(m) + a, Blank(rest), tail);
      case Skip(_, _) =>
    } else {
      assert Blank(steps) + tail == tail;
    }
  }

  /**
   * A chain that follows the template's order, with brace-free text and
   * values, fills each `Fill` step's token right where it stands and leaves
   * the text after the steps as it is, even where it holds a token of a name
   * the chain has already used.
   */
  lemma {:induction false} SubstituteInOrder(first: string, steps: seq<Step>, tail: string, subs: seq<(string, string)>,
                                             template: string)
    requires '{' !in first && InOrder(steps, tail) && ChainOf(subs, steps)
    requires template == first + Blank(steps) + tail
    ensures Substitute(template, subs) == first + Filled(steps) + tail
    decreases |steps|
  {
    if steps != [] {
      var rest := steps[1..];
      InOrderTail(steps, tail);
      var subs' := subs[1..];
      assert subs == [(steps[0].name, steps[0].value)] + subs';
      assert ChainOf(subs', rest) by {
        forall k | 0 <= k < |rest| ensures subs'[k] == (rest[k].name, rest[k].value) {
          assert subs'[k] == subs[k + 1] && rest[k] == steps[k + 1];
        }
      }
      match steps[0]
      case Fill(n, v, a) =>
        var b := Blank(rest);
        AppendAssoc(first, Token(n) + a + b, tail);
        AppendAssoc(Token(n) + a, b, tail);
        AppendAssoc(Token(n), a, b + tail);
        AppendAssoc(first, Token(n), a + (b + tail));
        AppendAssoc(a, b, tail);
        SubstituteFillsAfterBraceFree(first, n, a + b + tail, v, subs');
        AppendAssoc(first + v, a, b + tail);
        AppendAssoc(first + v + a, b, tail);
        SubstituteInOrder(first + v + a, rest, tail, subs', first + v + a + b + tail);
        var f := Filled(rest);
        AppendAssoc(first, v + a + f, tail);
        AppendAssoc(first, v + a, f);
        AppendAssoc(first, v, a);
      case Skip(n, v) =>
        assert AbsentLater(n, rest, tail);
        NoTokenInBlank(rest, tail, n);
        NoTokenInLiteral(first, Blank(rest) + tail, n);
        NoOccurrenceInJoin(first, Blank(rest) + tail, Token(n));
        AppendAssoc(first, Blank(rest), tail);
        SubstituteSkipsMissing(first + Blank(rest) + tail, n, v, subs');
        SubstituteInOrder(first, rest, tail, subs', first + Blank(rest) + tail);
    }
  }

  /** Four `Fill` steps, one per placeholder of a template that holds each once, in chain order. */
  function FourFills(n1: string, v1: string, a1: string, n2: string, v2: string, a2: string,
                     n3: string, v3: string, a3: string, n4: string, v4: string, a4: string): seq<Step> {
    [Fill(n1, v1, a1), Fill(n2, v2, a2), Fill(n3, v3, a3), Fill(n4, v4, a4)]
  }

  lemma FourFillsLayout(a0: string, n1: string, v1: string, a1: string, n2: string, v2: string, a2: string,
                        n3: string, v3: string, a3: string, n4: string, v4: string, a4: string)
    ensures var steps := FourFills(n1, v1, a1, n2, v2, a2, n3, v3, a3, n4, v4, a4);
      && a0 + Blank(steps) + "" == a0 + Token(n1) + a1 + Token(n2) + a2 + Token(n3) + a3 + Token(n4) + a4
      && a0 + Filled(steps) + "" == a0 + v1 + a1 + v2 + a2 + v3 + a3 + v4 + a4
  {
    var steps := FourFills(n1, v1, a1, n2, v2, a2, n3, v3, a3, n4, v4, a4);
    var s1, s2, s3 := steps[1..], steps[2..], steps[3..];
    assert s1[1..] == s2 && s2[1..] == s3 && s3[1..] == [];
    assert Blank(s3) == Token(n4) + a4 + "";
    assert Blank(s2) == Token(n3) + a3 + Blank(s3);
    assert Blank(s1) == Token(n2) + a2 + Blank(s2);
    assert Blank(steps) == Token(n1) + a1 + Blank(s1);
    assert Filled(s3) == v4 + a4 + "";
    assert Filled(s2) == v3 + a3 + Filled(s3);
    assert Filled(s1) == v2 + a2 + Filled(s2);
    assert Filled(steps) == v1 + a1 + Filled(s1);
  }

  /**
   * A template holding four placeholders once each, between brace-free
   * texts, run through the chain of those four names in the same order,
   * comes out with the four values in their places.
   */
  lemma SubstituteFourInOrder(a0: string, n1: string, v1: string, a1: string, n2: string, v2: string, a2: string,
                              n3: string, v3: string, a3: string, n4: string, v4: string, a4: string,
                              subs: seq<(string, string)>)
    requires ValidName(n1) && ValidName(n2) && ValidName(n3) && ValidName(n4)
    requires '{' !in a0 && '{' !in a1 && '{' !in a2 && '{' !in a3 && '{' !in a4
    requires '{' !in v1 && '{' !in v2 && '{' !in v3 && '{' !in v4
    requires ChainOf(subs, FourFills(n1, v1, a1, n2, v2, a2, n3, v3, a3, n4, v4, a4))
    ensures Substitute(a0 + Token(n1) + a1 + Token(n2) + a2 + Token(n3) + a3 + Token(n4) + a4, subs)
         == a0 + v1 + a1 + v2 + a2 + v3 + a3 + v4 + a4
  {
    var steps := FourFills(n1, v1, a1, n2, v2, a2, n3, v3, a3, n4, v4, a4);
    assert InOrder(steps, "");
    FourFillsLayout(a0, n1, v1, a1, n2, v2, a2, n3, v3, a3, n4, v4, a4);
    SubstituteInOrder(a0, steps, "", subs, a0 + Token(n1) + a1 + Token(n2) + a2 + Token(n3) + a3 + Token(n4) + a4);
  }

  /** The token of one valid name holds no token of another. */
  lemma NoTokenInOtherName(m: string, n: string)
    requires ValidName(m) && ValidName(n) && m != n
    ensures !Contains(Token(m), Token(n))
  {
    NoBraceNoToken("", n);
    NoTokenAfterOther("", m, "", n);
    assert "" + Token(m) + "" == Token(m);
  }

  /** Only the first `{name}` is replaced: `"Hi {name}, {name}!"` with `name = "A"` gives `"Hi A, {name}!"`. */
  lemma FirstOccurrenceOnly()
    ensures Replace("Hi {name}, {name}!", "{name}", "A") == "Hi A, {name}!"
  {
    var s := "Hi {name}, {name}!";
    assert s[3..9] == "{name}";
    forall j: nat | j < 3 ensures !OccursAt(s, "{name}", j) {
      assert s[j] != '{';
    }
    assert FirstOccurrence(s, "{name}", 3);
    assert s[..3] == "Hi ";
    assert s[9..] == ", {name}!";
  }
}
