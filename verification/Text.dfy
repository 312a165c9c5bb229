/**
 The string operations of the source language that the other modules rely on, with the facts
 about substrings their proofs need. A `char` is one character outside the surrogates.
 */
module Text {
  import opened Wrappers

  // ---- White space ----

  predicate IsLineEnd(c: char) { c == '\n' || c == '\r' || c == '\U{2028}' || c == '\U{2029}' }

  /** White space as trim() and the \s of a pattern understand it. */
  predicate IsSpace(c: char) {
    || '\t' <= c <= '\r' || c == ' ' || c == '\U{00A0}' || c == '\U{1680}'
    || '\U{2000}' <= c <= '\U{200A}' || IsLineEnd(c)
    || c == '\U{202F}' || c == '\U{205F}' || c == '\U{3000}' || c == '\U{FEFF}'
  }

  /** The index of the first visible character at or after `i`, or the end. */
  function SkipSpaces(s: string, i: nat): (r: nat)
    requires i <= |s|
    ensures i <= r <= |s|
    ensures forall k | i <= k < r :: IsSpace(s[k])
    ensures r < |s| ==> !IsSpace(s[r])
    decreases |s| - i
  {
    if i < |s| && IsSpace(s[i]) then SkipSpaces(s, i + 1) else i
  }

  /** The end of the last visible character before `i`, or the start. */
  function BackOverSpaces(s: string, i: nat): (r: nat)
    requires i <= |s|
    ensures r <= i
    ensures forall k | r <= k < i :: IsSpace(s[k])
    ensures r > 0 ==> !IsSpace(s[r - 1])
  {
    if i > 0 && IsSpace(s[i - 1]) then BackOverSpaces(s, i - 1) else i
  }

  function TrimStart(s: string): (r: string)
    ensures |r| <= |s|
    ensures r != [] ==> !IsSpace(r[0])
  {
    s[SkipSpaces(s, 0)..]
  }

  function TrimEnd(s: string): (r: string)
    ensures |r| <= |s|
    ensures r != [] ==> !IsSpace(r[|r| - 1])
  {
    s[..BackOverSpaces(s, |s|)]
  }

  function Trim(s: string): string { TrimEnd(TrimStart(s)) }

  predicate Trimmed(s: string) { s == [] || (!IsSpace(s[0]) && !IsSpace(s[|s| - 1])) }

  lemma TrimIsTrimmed(s: string)
    ensures Trimmed(Trim(s))
    ensures Trimmed(s) ==> Trim(s) == s
  {
  }

  predicate AllSpace(s: string) { forall k | 0 <= k < |s| :: IsSpace(s[k]) }

  /** White space around a visible text is exactly what trimming takes. */
  lemma TrimBetween(before: string, x: string, after: string)
    requires AllSpace(before) && AllSpace(after) && x != "" && Trimmed(x)
    ensures Trim(before + x + after) == x
  {
    var s := before + x + after;
    assert forall k | 0 <= k < |x| :: s[|before| + k] == x[k];
    assert s[|before|..] == x + after;
    assert SkipSpaces(s, 0) == |before|;
    assert forall k | |x| <= k < |x + after| :: (x + after)[k] == after[k - |x|];
    assert (x + after)[|x| - 1] == x[|x| - 1];
    assert BackOverSpaces(x + after, |x + after|) == |x|;
    assert (x + after)[..|x|] == x;
  }

  // ---- Substrings ----

  predicate At(s: string, p: string, i: nat) {
    i + |p| <= |s| && s[i..i + |p|] == p
  }

  predicate Occurs(p: string, s: string) {
    exists i | 0 <= i <= |s| :: At(s, p, i)
  }

  /** The first occurrence of `p` at or after `from`. */
  function Find(s: string, p: string, from: nat): (r: Option<nat>)
    requires from <= |s|
    ensures r.Some? ==> from <= r.value && At(s, p, r.value) && forall i | from <= i < r.value :: !At(s, p, i)
    ensures r.None? ==> forall i | from <= i <= |s| :: !At(s, p, i)
    decreases |s| - from
  {
    if At(s, p, from) then Some(from)
    else if from == |s| then None
    else Find(s, p, from + 1)
  }

  /** s.split(p).join(r): every occurrence of `p`, left to right and not overlapping, is replaced. */
  function ReplaceAll(s: string, p: string, r: string): string
    requires p != []
    decreases |s|
  {
    var k := Find(s, p, 0);
    if k.None? then s else s[..k.value] + r + ReplaceAll(s[k.value + |p|..], p, r)
  }

  /** s.split(p): the parts between the occurrences. */
  function Split(s: string, p: string): (parts: seq<string>)
    requires p != []
    ensures parts != []
    decreases |s|
  {
    var k := Find(s, p, 0);
    if k.None? then [s] else [s[..k.value]] + Split(s[k.value + |p|..], p)
  }

  function Join(parts: seq<string>, r: string): string
    requires parts != []
  {
    if |parts| == 1 then parts[0] else parts[0] + r + Join(parts[1..], r)
  }

  /** Replacing keeps the parts and their order, and puts `r` between them. */
  lemma {:induction false} ReplaceIsSplitJoin(s: string, p: string, r: string)
    requires p != []
    ensures ReplaceAll(s, p, r) == Join(Split(s, p), r)
    decreases |s|
  {
    var k := Find(s, p, 0);
    if k.Some? {
      ReplaceIsSplitJoin(s[k.value + |p|..], p, r);
      assert Split(s, p)[1..] == Split(s[k.value + |p|..], p);
    }
  }

  /** The parts are the text's own, and `p` first occurs behind each of them. */
  lemma {:induction false} SplitIsExact(s: string, p: string)
    requires p != []
    ensures Join(Split(s, p), p) == s
    ensures !Occurs(p, Split(s, p)[|Split(s, p)| - 1])
    ensures forall i | 0 <= i < |Split(s, p)| - 1 :: FirstBehind(Split(s, p)[i], p)
    decreases |s|
  {
    var k := Find(s, p, 0);
    if k.Some? {
      var rest := s[k.value + |p|..];
      SplitIsExact(rest, p);
      assert Split(s, p)[1..] == Split(rest, p);
      assert s == s[..k.value] + p + rest;
      FindInFront(s, p, k.value);
    }
  }

  /** The first occurrence of `p` in the part and `p` together is the one at the end. */
  predicate FirstBehind(part: string, p: string) { forall j | 0 <= j < |part| :: !At(part + p, p, j) }

  lemma FindInFront(s: string, p: string, k: nat)
    requires k + |p| <= |s| && At(s, p, k) && forall j | 0 <= j < k :: !At(s, p, j)
    ensures FirstBehind(s[..k], p)
  {
    assert s[..k] + p == s[..k + |p|];
    forall j | 0 <= j < k ensures !At(s[..k] + p, p, j) {
      if At(s[..k] + p, p, j) {
        AtMeansEqual(s[..k] + p, p, j);
        AtMeansEqual(s, p, j);
      }
    }
  }

  lemma AtMeansEqual(s: string, p: string, i: nat)
    requires i + |p| <= |s|
    ensures At(s, p, i) <==> forall k | 0 <= k < |p| :: s[i + k] == p[k]
  {
    var part := s[i..i + |p|];
    assert forall k | 0 <= k < |p| :: part[k] == s[i + k];
  }

  lemma AtCovers(s: string, p: string, i: nat, k: nat)
    requires At(s, p, i) && i <= k < i + |p|
    ensures s[k] in p
  {
    assert s[k] == s[i..i + |p|][k - i];
  }

  lemma OccursInWider(p: string, s: string, from: nat, to: nat)
    requires from <= to <= |s|
    ensures Occurs(p, s[from..to]) ==> Occurs(p, s)
  {
    var part := s[from..to];
    if Occurs(p, part) {
      var i :| 0 <= i <= |part| && At(part, p, i);
      AtMeansEqual(part, p, i);
      AtMeansEqual(s, p, from + i);
    }
  }

  lemma OccursInRest(p: string, s: string, n: nat)
    requires n <= |s|
    ensures Occurs(p, s[n..]) ==> Occurs(p, s)
  {
    OccursInWider(p, s, n, |s|);
    assert s[n..|s|] == s[n..];
  }

  lemma AtBehind(head: string, tail: string, p: string, j: nat)
    requires |head| <= j && At(head + tail, p, j)
    ensures At(tail, p, j - |head|)
  {
    AtMeansEqual(head + tail, p, j);
    AtMeansEqual(tail, p, j - |head|);
  }

  /** A pattern without the character `c` cannot straddle it. */
  lemma OccursAcross(p: string, x: string, c: char, y: string)
    requires p != [] && c !in p && Occurs(p, x + [c] + y)
    ensures Occurs(p, x) || Occurs(p, y)
  {
    var s := x + [c] + y;
    var i :| 0 <= i <= |s| && At(s, p, i);
    AtMeansEqual(s, p, i);
    if i + |p| <= |x| {
      AtMeansEqual(x, p, i);
    } else if i > |x| {
      AtMeansEqual(y, p, i - |x| - 1);
    } else {
      AtCovers(s, p, i, |x|);
      assert false;
    }
  }

  lemma TooShortToOccur(p: string, s: string)
    requires |s| < |p|
    ensures !Occurs(p, s)
  {
  }

  /** No character of `r` is in `p`: an occurrence of `p` cannot touch `r`. */
  predicate Apart(p: string, r: string) {
    p != [] && r != [] && forall i | 0 <= i < |r| :: r[i] !in p
  }

  lemma OccurrenceEndsBefore(p: string, c: string, r: string, z: string, j: nat)
    requires Apart(p, r) && j < |c| + |r| && At(c + r + z, p, j)
    ensures j + |p| <= |c| && At(c, p, j)
  {
    var text := c + r + z;
    assert forall i | |c| <= i < |c| + |r| :: text[i] == r[i - |c|];
    if j + |p| <= |c| {
      AtMeansEqual(text, p, j);
      AtMeansEqual(c, p, j);
    } else if j < |c| {
      AtCovers(text, p, j, |c|);
      assert false;
    } else {
      AtCovers(text, p, j, j);
      assert false;
    }
  }

  lemma FirstAt(s: string, p: string, k: nat)
    requires k <= |s| && At(s, p, k) && forall j: nat | j < k :: !At(s, p, j)
    ensures Find(s, p, 0) == Some(k)
  {
  }

  /** Behind text without `p` and a separator apart from it, `p` is first found right after the separator. */
  lemma FindAfter(p: string, c: string, r: string, z: string)
    requires Apart(p, r) && !Occurs(p, c)
    ensures Find(c + r + (p + z), p, 0) == Some(|c| + |r|)
  {
    var text := c + r + (p + z);
    assert text[|c| + |r|..|c| + |r| + |p|] == p;
    forall j: nat | j < |c| + |r| ensures !At(text, p, j) {
      if At(text, p, j) { OccurrenceEndsBefore(p, c, r, p + z, j); }
    }
    FirstAt(text, p, |c| + |r|);
  }

  /** In front of such a separator, it is found where it was without it. */
  lemma FindWithin(p: string, c: string, r: string, z: string)
    requires Apart(p, r) && Occurs(p, c)
    ensures Find(c, p, 0).Some? && Find(c + r + z, p, 0) == Find(c, p, 0)
  {
    var k := Find(c, p, 0).value;
    var text := c + r + z;
    AtMeansEqual(c, p, k);
    AtMeansEqual(text, p, k);
    forall j: nat | j < k ensures !At(text, p, j) {
      if At(text, p, j) { OccurrenceEndsBefore(p, c, r, z, j); }
    }
    FirstAt(text, p, k);
  }

  // ---- Letter case, as the i flag of a pattern folds it ----

  function Lower(c: char): char { if 'A' <= c <= 'Z' then c + ('a' - 'A') else c }

  function Lowered(s: string): string { seq(|s|, i requires 0 <= i < |s| => Lower(s[i])) }
}
