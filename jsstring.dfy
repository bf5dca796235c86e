/**
 * The JavaScript string built-ins the bot's text builders rely on, on strings
 * of Unicode code points: `indexOf`, `includes`, `startsWith`, `replace` with a
 * string pattern (first occurrence only, replacement taken literally), `trim`,
 * `split` on one character, `join`, `repeat` and `replace(/\s+/g, '')`.
 */
module JsString {
  import opened Wrappers

  /** `pat` occurs in `s` starting at index `k`. */
  predicate OccursAt(s: string, pat: string, k: nat) {
    k + |pat| <= |s| && s[k..k + |pat|] == pat
  }

  /** `k` is the first index at which `pat` occurs in `s`. */
  predicate FirstOccurrence(s: string, pat: string, k: nat) {
    OccursAt(s, pat, k) && forall j: nat :: j < k ==> !OccursAt(s, pat, j)
  }

  /** `s.indexOf(pat, from)`: the first index at or after `from` where `pat` occurs. */
  function IndexOfFrom(s: string, pat: string, from: nat): (r: Option<nat>)
    decreases |s| - from
    ensures r.Some? ==> from <= r.value && OccursAt(s, pat, r.value)
    ensures r.Some? ==> forall j: nat :: from <= j < r.value ==> !OccursAt(s, pat, j)
    ensures r.None? ==> forall j: nat :: from <= j ==> !OccursAt(s, pat, j)
  {
    if from + |pat| > |s| then None
    else if s[from..from + |pat|] == pat then Some(from)
    else IndexOfFrom(s, pat, from + 1)
  }

  /** `s.indexOf(pat)`, with `None` for JavaScript's -1. */
  function IndexOf(s: string, pat: string): (r: Option<nat>)
    ensures r.Some? <==> exists j: nat :: OccursAt(s, pat, j)
    ensures r.Some? ==> FirstOccurrence(s, pat, r.value)
  {
    IndexOfFrom(s, pat, 0)
  }

  /** `s.includes(pat)`. */
  predicate Contains(s: string, pat: string) {
    IndexOf(s, pat).Some?
  }

  /** `s.startsWith(p)`. */
  predicate StartsWith(s: string, p: string) {
    |p| <= |s| && s[..|p|] == p
  }

  /** `s` ends with `p`. */
  predicate EndsWith(s: string, p: string) {
    |p| <= |s| && s[|s| - |p|..] == p
  }

  lemma AppendAssoc(x: string, y: string, z: string)
    ensures x + (y + z) == x + y + z
  {
  }

  lemma StartsWithAppend(a: string, b: string)
    ensures StartsWith(a + b, a)
  {
    assert (a + b)[..|a|] == a;
  }

  /** Appending to a text keeps every prefix it had. */
  lemma StartsWithExtend(s: string, p: string, t: string)
    requires StartsWith(s, p)
    ensures StartsWith(s + t, p)
  {
    assert (s + t)[..|p|] == s[..|p|];
  }

  lemma EndsWithAppend(a: string, b: string)
    ensures EndsWith(a + b, b)
  {
    assert (a + b)[|a + b| - |b|..] == b;
  }

  /** A text holds every piece it is glued from. */
  lemma ContainsMiddle(a: string, s: string, b: string)
    ensures Contains(a + s + b, s)
  {
    assert (a + s + b)[|a|..|a| + |s|] == s;
    assert OccursAt(a + s + b, s, |a|);
  }

  /** A text made of four parts opens with the first and closes with the last non-empty one of the final two. */
  lemma FramedBy(head: string, middle: string, last: string, tail: string)
    ensures StartsWith(head + middle + last + tail, head)
    ensures EndsWith(head + middle + last + tail, tail)
    ensures tail == "" ==> EndsWith(head + middle + last + tail, last)
  {
    assert head + middle + last + tail == head + (middle + last + tail);
    StartsWithAppend(head, middle + last + tail);
    EndsWithAppend(head + middle + last, tail);
    if tail == "" {
      assert head + middle + last + tail == head + middle + last;
      EndsWithAppend(head + middle, last);
    }
  }

  /**
   * `s.replace(pat, rep)` with a string pattern: the first occurrence of `pat`
   * is replaced by `rep`; when `pat` does not occur, `s` is returned.
   */
  function Replace(s: string, pat: string, rep: string): (r: string)
    ensures !Contains(s, pat) ==> r == s
    ensures forall k: nat {:trigger FirstOccurrence(s, pat, k)} ::
              FirstOccurrence(s, pat, k) ==> r == s[..k] + rep + s[k + |pat|..]
  {
    match IndexOf(s, pat)
    case None => s
    case Some(i) => s[..i] + rep + s[i + |pat|..]
  }

  /** Only the first occurrence is replaced: every later, non-overlapping occurrence survives verbatim, shifted by the length change. */
  lemma ReplaceKeepsLaterOccurrences(s: string, pat: string, rep: string, k: nat, j: nat)
    requires FirstOccurrence(s, pat, k)
    requires OccursAt(s, pat, j) && k + |pat| <= j
    ensures OccursAt(Replace(s, pat, rep), pat, j - |pat| + |rep|)
  {
    var r := Replace(s, pat, rep);
    assert r == s[..k] + rep + s[k + |pat|..];
    var j' := j - |pat| + |rep|;
    var head, tail := s[..k] + rep, s[k + |pat|..];
    assert |head| == k + |rep|;
    assert r == head + tail;
    assert r[j'..j' + |pat|] == tail[j - k - |pat|..j - k];
    assert tail[j - k - |pat|..j - k] == s[j..j + |pat|];
  }

  // ---------------------------------------------------------------------
  // Whitespace and trim

  /**
   * The characters JavaScript's `trim` strips and `\s` matches:
   * WhiteSpace (tab, vertical tab, form feed, space, no-break space,
   * zero-width no-break space, the Zs category) and LineTerminator.
   */
  predicate IsWhitespace(c: char) {
    || c == '\t' || c == '\n' || c == '\U{000B}' || c == '\U{000C}' || c == '\r' || c == ' '
    || c == '\U{00A0}' || c == '\U{1680}' || ('\U{2000}' <= c <= '\U{200A}')
    || c == '\U{2028}' || c == '\U{2029}' || c == '\U{202F}' || c == '\U{205F}'
    || c == '\U{3000}' || c == '\U{FEFF}'
  }

  /** No whitespace at either end. */
  predicate Trimmed(s: string) {
    s == [] || (!IsWhitespace(s[0]) && !IsWhitespace(s[|s| - 1]))
  }

  /** The number of whitespace characters `s` starts with. */
  function LeadingWhitespace(s: string): (n: nat)
    ensures n <= |s|
    ensures forall i :: 0 <= i < n ==> IsWhitespace(s[i])
    ensures n < |s| ==> !IsWhitespace(s[n])
  {
    if s != [] && IsWhitespace(s[0]) then 1 + LeadingWhitespace(s[1..]) else 0
  }

  /** The number of whitespace characters `s` ends with. */
  function TrailingWhitespace(s: string): (n: nat)
    ensures n <= |s|
    ensures forall i :: |s| - n <= i < |s| ==> IsWhitespace(s[i])
    ensures n < |s| ==> !IsWhitespace(s[|s| - 1 - n])
  {
    if s != [] && IsWhitespace(s[|s| - 1]) then 1 + TrailingWhitespace(s[..|s| - 1]) else 0
  }

  /**
   * `s.trim()`: a slice of `s`, starting after its leading whitespace, with
   * no whitespace at either end and only whitespace outside it.
   */
  function Trim(s: string): (r: string)
    ensures Trimmed(r)
    ensures Trimmed(s) ==> r == s
    ensures var i := LeadingWhitespace(s);
      && i + |r| <= |s| && r == s[i..i + |r|]
      && forall k :: 0 <= k < |s| && !(i <= k < i + |r|) ==> IsWhitespace(s[k])
    ensures (forall i :: 0 <= i < |s| ==> IsWhitespace(s[i])) ==> r == []
  {
    var n := LeadingWhitespace(s);
    if n == |s| then []
    else
      s[n..|s| - TrailingWhitespace(s)]
  }

  /**
   * `trim` has one answer: any slice of `s` with no whitespace at its ends
   * and only whitespace around it is `Trim(s)`.
   */
  lemma TrimUnique(s: string, i: nat, j: nat)
    requires i <= j <= |s| && Trimmed(s[i..j])
    requires forall k :: 0 <= k < |s| && !(i <= k < j) ==> IsWhitespace(s[k])
    ensures Trim(s) == s[i..j]
  {
  }

  /** `trim` is idempotent. */
  lemma TrimIdempotent(s: string)
    ensures Trim(Trim(s)) == Trim(s)
  {
  }

  /**
   * `s.replace(/\s+/g, '')`: no whitespace remains and every other
   * character of `s` is kept as often as it occurs; `RemoveWhitespaceAppend`
   * gives the order.
   */
  function RemoveWhitespace(s: string): (r: string)
    ensures forall i :: 0 <= i < |r| ==> !IsWhitespace(r[i])
    ensures |r| <= |s|
    ensures forall c :: !IsWhitespace(c) ==> multiset(r)[c] == multiset(s)[c]
    ensures (forall i :: 0 <= i < |s| ==> !IsWhitespace(s[i])) ==> r == s
  {
    if s == [] then []
    else
      assert s == [s[0]] + s[1..];
      if IsWhitespace(s[0]) then RemoveWhitespace(s[1..])
      else [s[0]] + RemoveWhitespace(s[1..])
  }

  /** Removing whitespace works piece by piece, so the kept characters stay in their order. */
  lemma {:induction false} RemoveWhitespaceAppend(a: string, b: string)
    ensures RemoveWhitespace(a + b) == RemoveWhitespace(a) + RemoveWhitespace(b)
  {
    if a == [] {
      assert a + b == b;
    } else {
      assert (a + b)[0] == a[0] && (a + b)[1..] == a[1..] + b;
      RemoveWhitespaceAppend(a[1..], b);
    }
  }

  /** One character: removed when it is whitespace, kept otherwise. */
  lemma RemoveWhitespaceChar(c: char)
    ensures RemoveWhitespace([c]) == if IsWhitespace(c) then [] else [c]
  {
    assert [c][1..] == [];
  }

  // ---------------------------------------------------------------------
  // split, join, repeat

  /**
   * `s.split(sep)` for a one-character separator: the pieces between
   * separators, in order; an empty string gives one empty piece.
   */
  function Split(s: string, sep: char): (r: seq<string>)
    ensures |r| >= 1
    ensures forall k :: 0 <= k < |r| ==> sep !in r[k]
  {
    if s == [] then [[]]
    else
      var rest := Split(s[1..], sep);
      if s[0] == sep then [[]] + rest
      else [[s[0]] + rest[0]] + rest[1..]
  }

  /** `xs.join(sep)`: the empty string for no pieces, otherwise from the first piece to the last. */
  function Join(xs: seq<string>, sep: string): (r: string)
    ensures |xs| == 0 ==> r == ""
    ensures |xs| >= 1 ==> StartsWith(r, xs[0]) && EndsWith(r, xs[|xs| - 1])
  {
    if |xs| == 0 then ""
    else if |xs| == 1 then
      assert xs[0][..|xs[0]|] == xs[0] && xs[0][0..] == xs[0];
      xs[0]
    else
      var rest := Join(xs[1..], sep);
      var r := xs[0] + sep + rest;
      assert r[..|xs[0]|] == xs[0];
      assert r[|r| - |xs[|xs| - 1]|..] == rest[|rest| - |xs[|xs| - 1]|..];
      r
  }

  /** Joining two runs of pieces puts one separator between them. */
  lemma {:induction false} JoinAppend(xs: seq<string>, ys: seq<string>, sep: string)
    requires |xs| >= 1 && |ys| >= 1
    ensures Join(xs + ys, sep) == Join(xs, sep) + sep + Join(ys, sep)
  {
    if |xs| == 1 {
      assert (xs + ys)[1..] == ys;
    } else {
      assert (xs + ys)[1..] == xs[1..] + ys;
      JoinAppend(xs[1..], ys, sep);
    }
  }

  /** Splitting at a separator splits the pieces on either side of it apart. */
  lemma {:induction false} SplitAppend(a: string, b: string, sep: char)
    ensures Split(a + [sep] + b, sep) == Split(a, sep) + Split(b, sep)
  {
    var s := a + [sep] + b;
    if a == [] {
      assert s[1..] == b;
    } else {
      assert s[0] == a[0] && s[1..] == a[1..] + [sep] + b;
      SplitAppend(a[1..], b, sep);
      var ra := Split(a[1..], sep);
      if a[0] != sep {
        assert (ra + Split(b, sep))[1..] == ra[1..] + Split(b, sep);
      }
    }
  }

  /** Splitting and joining back with the same separator gives the original string. */
  lemma {:induction false} JoinSplit(s: string, sep: char)
    ensures Join(Split(s, sep), [sep]) == s
  {
    if s != [] {
      JoinSplit(s[1..], sep);
      var rest := Split(s[1..], sep);
      if s[0] == sep {
        assert Split(s, sep) == [[]] + rest;
        if |rest| == 1 {
          assert Join([[]] + rest, [sep]) == [] + [sep] + rest[0];
        } else {
          assert ([[]] + rest)[1..] == rest;
        }
        assert s == [s[0]] + s[1..];
      } else {
        var first := [s[0]] + rest[0];
        assert Split(s, sep) == [first] + rest[1..];
        if |rest| == 1 {
          assert Join(rest, [sep]) == rest[0];
        } else {
          assert Join(rest, [sep]) == rest[0] + [sep] + Join(rest[1..], [sep]);
          assert ([first] + rest[1..])[1..] == rest[1..];
        }
        assert s == [s[0]] + s[1..];
      }
    }
  }

  /** Splitting a separator-free prefix glued to the rest extends the first piece. */
  lemma {:induction false} SplitPrefix(x: string, s: string, sep: char)
    requires sep !in x
    ensures Split(x + s, sep) == [x + Split(s, sep)[0]] + Split(s, sep)[1..]
  {
    if x != [] {
      var r := Split(s, sep);
      SplitPrefix(x[1..], s, sep);
      assert (x + s)[1..] == x[1..] + s;
      assert (x + s)[0] == x[0] && x[0] != sep;
      var inner := Split(x[1..] + s, sep);
      assert inner[0] == x[1..] + r[0] && inner[1..] == r[1..];
      assert Split(x + s, sep) == [[x[0]] + inner[0]] + inner[1..];
      assert [x[0]] + (x[1..] + r[0]) == x + r[0];
    } else {
      var r := Split(s, sep);
      assert x + s == s;
      assert x + r[0] == r[0];
      assert r == [r[0]] + r[1..];
    }
  }

  /** Joining separator-free pieces and splitting again gives the pieces back. */
  lemma {:induction false} SplitJoin(xs: seq<string>, sep: char)
    requires |xs| >= 1
    requires forall k :: 0 <= k < |xs| ==> sep !in xs[k]
    ensures Split(Join(xs, [sep]), sep) == xs
  {
    if |xs| == 1 {
      SplitPrefix(xs[0], [], sep);
      assert xs[0] + [] == xs[0];
    } else {
      var j := Join(xs[1..], [sep]);
      SplitJoin(xs[1..], sep);
      assert Join(xs, [sep]) == xs[0] + ([sep] + j);
      SplitPrefix(xs[0], [sep] + j, sep);
      assert ([sep] + j)[1..] == j;
      assert Split([sep] + j, sep) == [[]] + xs[1..];
      assert xs[0] + [] == xs[0];
    }
  }

  /** A string without the separator is one piece. */
  lemma SplitWithoutSeparator(s: string, sep: char)
    ensures sep !in s ==> Split(s, sep) == [s]
  {
    if sep !in s {
      SplitPrefix(s, [], sep);
      assert s + [] == s;
    }
  }

  /** Two separators in a row make an empty piece between their neighbours. */
  lemma SplitDoubleSeparator(x: string, y: string, sep: char)
    requires sep !in x && sep !in y
    ensures Split(x + [sep, sep] + y, sep) == [x, [], y]
  {
    SplitWithoutSeparator(y, sep);
    var second := [sep] + y;
    assert second[1..] == y;
    assert Split(second, sep) == [[], y];
    var first := [sep] + second;
    assert first[1..] == second;
    assert Split(first, sep) == [[], [], y];
    SplitPrefix(x, first, sep);
    assert x + [] == x;
    assert x + [sep, sep] + y == x + first;
  }

  /** A string of separators and whitespace splits into pieces that are all whitespace. */
  lemma {:induction false} SplitBlankPieces(s: string, sep: char)
    requires forall i :: 0 <= i < |s| ==> s[i] == sep || IsWhitespace(s[i])
    ensures forall k, i :: 0 <= k < |Split(s, sep)| && 0 <= i < |Split(s, sep)[k]| ==>
      IsWhitespace(Split(s, sep)[k][i])
  {
    if s != [] {
      SplitBlankPieces(s[1..], sep);
    }
  }

  /** `c.repeat(n)`. */
  function Repeat(c: char, n: nat): (r: string)
    ensures |r| == n
    ensures forall i :: 0 <= i < n ==> r[i] == c
  {
    seq(n, _ => c)
  }
}
