/** What merging an interest into notes and reading it back gives, for all notes and interests. */
module AvailabilityRoundTrip {
  import opened Wrappers
  import opened Text
  import opened FlatJson
  import opened FlatJsonWall
  import opened AvailabilityInterest

  // ---- The first object of a printed text ----

  lemma FirstBrace(s: string, x: string, y: string)
    requires s == x + "}" + y && '}' !in x && x != [] && x[0] == '{'
    ensures FirstObject(s) == Some(x + "}")
  {
    assert s[0] == '{' && s[|x|] == '}';
    assert forall k | 0 <= k < |x| :: s[k] == x[k];
    assert s[0..|x| + 1] == x + "}";
  }

  /** An object text before its last string: no brace closes it there. */
  predicate Openable(before: seq<Entry>, key: string) {
    AllPrintable(before) && '}' !in key && forall i | 0 <= i < |before| :: BraceFree(before[i])
  }

  function Opened(before: seq<Entry>, key: string): string
    requires AllPrintable(before)
  {
    "{" + Opening(before, key)
  }

  lemma TextShape(before: seq<Entry>, key: string, x: string)
    requires AllPrintable(before)
    ensures Stringify(WithLast(before, key, x)) == Opened(before, key) + (Escape(x) + "\"}")
  {
    PrintsOpening(before, key, x);
    FlatJson.Associates("{", Opening(before, key), Escape(x) + "\"}");
  }

  /** The first closing brace of a printed object ends it, unless the last string holds one. */
  lemma WholeTextIsFirst(before: seq<Entry>, key: string, x: string)
    requires Openable(before, key) && '}' !in x
    ensures FirstObject(Stringify(WithLast(before, key, x))) == Some(Stringify(WithLast(before, key, x)))
  {
    var text := Stringify(WithLast(before, key, x));
    var all := Opened(before, key) + (Escape(x) + "\"");
    TextShape(before, key, x);
    OpeningHasNoBrace(before, key);
    EscapeKeepsBraces(x);
    assert text == all + "}" + [];
    FirstBrace(text, all, []);
    assert all + "}" == text;
  }

  predicate Unreadable(text: Option<string>) { text.None? || ParseObject(text.value).None? }

  lemma CutOpenedFails(before: seq<Entry>, key: string, x: string)
    requires AllPrintable(before)
    ensures ParseObject(Opened(before, key) + Escape(x)) == None
  {
    CutIsOpening(before, key, x);
    CutObjectFails(before, key, x);
    FlatJson.Associates("{", Opening(before, key), Escape(x));
  }

  lemma CutAroundBrace(x: string, tail: string, m: nat)
    requires '}' !in x && x != [] && x[0] == '{' && m <= |x + "}" + tail|
    ensures FirstObject((x + "}" + tail)[..m]) == if m <= |x| then None else Some(x + "}")
  {
    var cut := (x + "}" + tail)[..m];
    if m <= |x| {
      assert cut == x[..m];
    } else {
      var rest := tail[..m - |x| - 1];
      assert cut == x + "}" + rest;
      FirstBrace(cut, x, rest);
    }
  }

  /** A prefix that stops before the first brace of the last string, or after it, holds no readable object. */
  lemma EarlyBraceFails(before: seq<Entry>, key: string, x: string, y: string, m: nat)
    requires Openable(before, key) && '}' !in x
    requires m <= |Stringify(WithLast(before, key, x + "}" + y))|
    ensures Unreadable(FirstObject(Stringify(WithLast(before, key, x + "}" + y))[..m]))
  {
    var upTo := Opened(before, key) + Escape(x);
    EarlyBraceShape(before, key, x, y);
    OpeningHasNoBrace(before, key);
    EscapeKeepsBraces(x);
    CutAroundBrace(upTo, Escape(y) + "\"}", m);
    BracedFails(before, key, x);
  }

  lemma BracedFails(before: seq<Entry>, key: string, x: string)
    requires AllPrintable(before)
    ensures ParseObject(Opened(before, key) + Escape(x) + "}") == None
  {
    CutOpenedFails(before, key, x + "}");
    EscapeAppends(x, "}");
    EscapedBrace();
    FlatJson.Associates(Opened(before, key), Escape(x), "}");
  }

  lemma EscapedBrace()
    ensures Escape("}") == "}"
  {
  }

  lemma EarlyBraceShape(before: seq<Entry>, key: string, x: string, y: string)
    requires AllPrintable(before)
    ensures Stringify(WithLast(before, key, x + "}" + y))
            == Opened(before, key) + Escape(x) + "}" + (Escape(y) + "\"}")
  {
    TextShape(before, key, x + "}" + y);
    EscapeAppends(x + "}", y);
    EscapeAppends(x, "}");
    EscapedBrace();
    Regroup(Opened(before, key), Escape(x), Escape(y));
  }

  lemma Regroup(o: string, e: string, f: string)
    ensures o + (e + "}" + f + "\"}") == o + e + "}" + (f + "\"}")
  {
  }

  lemma PlainCutFails(before: seq<Entry>, key: string, x: string, m: nat)
    requires Openable(before, key) && '}' !in x && m < |Stringify(WithLast(before, key, x))|
    ensures FirstObject(Stringify(WithLast(before, key, x))[..m]) == None
  {
    TextShape(before, key, x);
    OpeningHasNoBrace(before, key);
    EscapeKeepsBraces(x);
    CutAroundBrace(Opened(before, key) + (Escape(x) + "\""), [], m);
  }

  lemma SplitAtBrace(x: string) returns (u: string, v: string)
    requires '}' in x
    ensures x == u + "}" + v && '}' !in u
  {
    var k := IndexOf(x, '}', 0).value;
    u, v := x[..k], x[k + 1..];
  }

  /** A printed object that is cut, or closed early by a brace in its last string, is unreadable. */
  lemma CutTextFails(before: seq<Entry>, key: string, x: string, m: nat)
    requires Openable(before, key) && m <= |Stringify(WithLast(before, key, x))|
    requires m < |Stringify(WithLast(before, key, x))| || '}' in x
    ensures Unreadable(FirstObject(Stringify(WithLast(before, key, x))[..m]))
  {
    if '}' in x {
      var u, v := SplitAtBrace(x);
      EarlyBraceFails(before, key, u, v, m);
    } else {
      PlainCutFails(before, key, x, m);
    }
  }

  // ---- The object of an interest ----

  lemma LiteralsHaveNoBrace(o: Offering)
    ensures '}' !in OfferingName(o) && '}' !in "requestedOffering" && '}' !in "notifyWhenAvailable"
        && '}' !in "capturedAt"
  {
  }

  lemma BeforeIsOpenable(o: Offering)
    ensures Openable(Before(o), "capturedAt")
  {
    LiteralsHaveNoBrace(o);
    assert Before(o) == [Before(o)[0], Before(o)[1]];
  }

  lemma LookupThree(a: Entry, b: Entry, c: Entry)
    requires a.key != b.key && b.key != c.key && a.key != c.key
    ensures Lookup([a, b, c], a.key) == Some(a.value)
    ensures Lookup([a, b, c], b.key) == Some(b.value)
    ensures Lookup([a, b, c], c.key) == Some(c.value)
  {
    assert [a, b, c][..2] == [a, b] && [a, b][..1] == [a];
    assert Lookup([a, b], a.key) == Lookup([a], a.key) == Some(a.value);
  }

  lemma KeysDiffer()
    ensures "requestedOffering" != "capturedAt" && "capturedAt" != "notifyWhenAvailable"
    ensures "requestedOffering" != "notifyWhenAvailable"
  {
    assert |"requestedOffering"| == 17 && |"notifyWhenAvailable"| == 19 && |"capturedAt"| == 10;
  }

  lemma NormalizedThree(o: Offering, at: string, offeringKey: string, notifyKey: string, atKey: string)
    requires offeringKey != notifyKey && notifyKey != atKey && offeringKey != atKey
    ensures var offering, notify := Entry(offeringKey, VString(OfferingName(o))), Entry(notifyKey, VBool(true));
            NormalizeBy([offering, notify, Entry(atKey, VString(at))], offeringKey, notifyKey, atKey)
            == Some(Interest(o, Trim(at)))
  {
    LookupThree(Entry(offeringKey, VString(OfferingName(o))), Entry(notifyKey, VBool(true)), Entry(atKey, VString(at)));
  }

  lemma ThreeEntries(a: Entry, b: Entry, c: Entry)
    ensures [a, b] + [c] == [a, b, c]
  {
  }

  lemma NormalizedMembers(i: Interest)
    ensures Normalize(Members(i)) == Some(Interest(i.offering, Trim(i.capturedAt)))
  {
    KeysDiffer();
    ThreeEntries(Before(i.offering)[0], Before(i.offering)[1], Entry("capturedAt", VString(i.capturedAt)));
    NormalizedThree(i.offering, i.capturedAt, "requestedOffering", "notifyWhenAvailable", "capturedAt");
  }

  lemma PrintedReads(before: seq<Entry>, key: string, x: string, m: nat)
    requires Openable(before, key) && m <= |Stringify(WithLast(before, key, x))|
    ensures var text := Stringify(WithLast(before, key, x));
            if m == |text| && '}' !in x then
              FirstObject(text[..m]) == Some(text) && ParseObject(text) == Some(WithLast(before, key, x))
            else Unreadable(FirstObject(text[..m]))
  {
    var text := Stringify(WithLast(before, key, x));
    if m == |text| && '}' !in x {
      assert text[..m] == text;
      WholeTextIsFirst(before, key, x);
      ObjectParses(WithLast(before, key, x));
    } else {
      CutTextFails(before, key, x, m);
    }
  }

  lemma PrintedMeans(before: seq<Entry>, key: string, x: string, m: nat)
    requires Openable(before, key) && m <= |Stringify(WithLast(before, key, x))|
    ensures var text := Stringify(WithLast(before, key, x));
            ReadObject(FirstObject(text[..m])) ==
            if m == |text| && '}' !in x then Normalize(WithLast(before, key, x)) else None
  {
    PrintedReads(before, key, x, m);
  }

  /** The object reads back as the interest exactly when it is whole and no brace in the time closes it early. */
  lemma ObjectReads(i: Interest, m: nat)
    requires m <= |ObjectText(i)|
    ensures ReadObject(FirstObject(ObjectText(i)[..m])) ==
            if m == |ObjectText(i)| && '}' !in i.capturedAt then Some(Interest(i.offering, Trim(i.capturedAt)))
            else None
  {
    BeforeIsOpenable(i.offering);
    PrintedMeans(Before(i.offering), "capturedAt", i.capturedAt, m);
    NormalizedMembers(i);
  }

  // ---- The first object does not depend on what surrounds it ----

  /** Text without an opening brace in front makes no difference. */
  lemma {:induction false} FirstObjectSkips(p: string, s: string)
    requires '{' !in p
    ensures FirstObject(p + s) == FirstObject(s)
  {
    if p == [] {
      assert p + s == s;
    } else {
      FirstObjectSkips(p[1..], s);
      assert (p + s)[1..] == p[1..] + s;
      FirstObjectSkipsOne(p + s);
    }
  }

  lemma FirstObjectSkipsOne(s: string)
    requires s != [] && s[0] != '{'
    ensures FirstObject(s) == FirstObject(s[1..])
  {
    var t := s[1..];
    var open, open' := IndexOf(s, '{', 0), IndexOf(t, '{', 0);
    assert forall i | 0 <= i < |t| :: t[i] == s[i + 1];
    assert forall i | 1 <= i < |s| :: s[i] == t[i - 1];
    if open.Some? {
      assert open'.Some? && open'.value + 1 == open.value;
      var close, close' := IndexOf(s, '}', open.value), IndexOf(t, '}', open'.value);
      if close.Some? {
        assert close'.Some? && close'.value + 1 == close.value;
        assert s[open.value..close.value + 1] == t[open'.value..close'.value + 1];
      }
    }
  }

  /** Text after a complete object makes no difference. */
  lemma FirstObjectStays(s: string, z: string)
    requires FirstObject(s).Some?
    ensures FirstObject(s + z) == FirstObject(s)
  {
    var open := IndexOf(s, '{', 0).value;
    var close := IndexOf(s, '}', open).value;
    assert forall i | 0 <= i < |s| :: (s + z)[i] == s[i];
    assert IndexOf(s + z, '{', 0) == Some(open);
    assert IndexOf(s + z, '}', open) == Some(close);
    assert (s + z)[open..close + 1] == s[open..close + 1];
  }

  /** Nor does text without a closing brace. */
  lemma FirstObjectDrops(s: string, z: string)
    requires '}' !in z
    ensures FirstObject(s + z) == FirstObject(s)
  {
    if FirstObject(s).Some? {
      FirstObjectStays(s, z);
    } else {
      assert forall i | 0 <= i < |s| :: (s + z)[i] == s[i];
      assert forall i | |s| <= i < |s + z| :: (s + z)[i] in z;
    }
  }

  lemma FirstObjectTrimStart(s: string)
    ensures FirstObject(TrimStart(s)) == FirstObject(s)
  {
    var k := SkipSpaces(s, 0);
    assert s == s[..k] + s[k..];
    FirstObjectSkips(s[..k], s[k..]);
  }

  lemma FirstObjectTrimEnd(s: string)
    ensures FirstObject(TrimEnd(s)) == FirstObject(s)
  {
    var k := BackOverSpaces(s, |s|);
    assert s == s[..k] + s[k..];
    FirstObjectDrops(s[..k], s[k..]);
  }

  lemma FirstObjectTrim(s: string)
    ensures FirstObject(Trim(s)) == FirstObject(s)
  {
    FirstObjectTrimStart(s);
    FirstObjectTrimEnd(TrimStart(s));
  }

  lemma ReadsUntrimmed(notes: string, k: nat)
    requires Find(notes, MARKER, 0) == Some(k)
    ensures Parse(notes) == ReadObject(FirstObject(notes[k + |MARKER|..]))
  {
    FirstObjectTrim(notes[k + |MARKER|..]);
  }

  // ---- Reading merged notes ----

  lemma MarkerHasNoBrace()
    ensures '{' !in MARKER && '}' !in MARKER
  {
  }

  lemma MarkerHasNoQuote()
    ensures '"' !in MARKER && '\\' !in MARKER
  {
  }

  lemma MarkerIsPlain()
    ensures Apart(MARKER, RULE) && '{' !in MARKER && '{' !in RULE && '"' !in MARKER && '\\' !in MARKER
    ensures MARKER[0] == 's' && |MARKER| == 29 && |RULE| == 5
  {
    MarkerHasNoBrace();
    MarkerHasNoQuote();
  }

  /** The kept text holds a marker with an opening brace somewhere after it. */
  predicate OpensObject(c: string) {
    var k := Find(c, MARKER, 0);
    k.Some? && '{' in c[k.value + |MARKER|..]
  }

  lemma AfterPrefix(p: string, s: string)
    ensures (p + s)[|p|..] == s
  {
  }

  /** Notes that are the marker and a text read back as that text does. */
  lemma MarkedReads(text: string)
    ensures Parse(WithMarker(text)) == ReadObject(FirstObject(text))
  {
    var notes := WithMarker(text);
    assert notes[0..|MARKER|] == MARKER;
    FirstAt(notes, MARKER, 0);
    ReadsUntrimmed(notes, 0);
    AfterPrefix(MARKER, " " + text);
    FirstObjectSkips(" ", text);
  }

  /** So do notes with marker-free text and a rule in front. */
  lemma PlainKeptReads(c: string, text: string)
    requires !Occurs(MARKER, c)
    ensures Parse(c + RULE + WithMarker(text)) == ReadObject(FirstObject(text))
  {
    MarkerIsPlain();
    FindAfter(MARKER, c, RULE, " " + text);
    ReadsUntrimmed(c + RULE + WithMarker(text), |c + RULE|);
    AfterTwoPrefixes(c + RULE, MARKER, " " + text);
    FirstObjectSkips(" ", text);
  }

  lemma AfterTwoPrefixes(a: string, b: string, s: string)
    ensures (a + (b + s))[|a| + |b|..] == s
  {
  }

  /** A marker in the kept text is the one that is read, with everything after it. */
  lemma MarkedKeptReads(c: string, text: string, k: nat)
    requires Find(c, MARKER, 0) == Some(k)
    ensures Parse(c) == ReadObject(FirstObject(c[k + |MARKER|..]))
    ensures Parse(c + RULE + WithMarker(text)) == ReadObject(FirstObject(c[k + |MARKER|..] + (RULE + WithMarker(text))))
  {
    MarkerIsPlain();
    assert Occurs(MARKER, c);
    FindWithin(MARKER, c, RULE, WithMarker(text));
    ReadsUntrimmed(c, k);
    ReadsUntrimmed(c + RULE + WithMarker(text), k);
    DropInFront(c, RULE, WithMarker(text), k + |MARKER|);
  }

  lemma DropInFront(c: string, r: string, z: string, k: nat)
    requires k <= |c|
    ensures (c + r + z)[k..] == c[k..] + (r + z)
  {
  }

  /** Behind an opening brace that no brace of the kept text closes, the rule's dashes make the object unreadable. */
  lemma UnclosedKeptFails(t: string, z: string)
    requires '{' in t && FirstObject(t) == None
    ensures Unreadable(FirstObject(t + (RULE + z)))
  {
    var s := t + (RULE + z);
    var open := IndexOf(t, '{', 0).value;
    assert forall i | 0 <= i < |t| :: s[i] == t[i];
    assert IndexOf(s, '{', 0) == Some(open);
    var close := IndexOf(s, '}', open);
    if close.Some? {
      assert close.value >= |t|;
      RuleInside(t, z, open, close.value);
    }
  }

  lemma RuleInside(t: string, z: string, open: nat, close: nat)
    requires open < |t| <= close < |t + (RULE + z)|
    requires (t + (RULE + z))[open] == '{' && (t + (RULE + z))[close] == '}'
    ensures ParseObject((t + (RULE + z))[open..close + 1]) == None
  {
    var s := t + (RULE + z);
    assert s[|t|] == '\n' && s[|t| + 1] == '-' && s[|t| + 2] == '-' && s[|t| + 3] == '-' && s[|t| + 4] == '\n';
    var text := s[open..close + 1];
    NoObjectAcross(text, close + 1 - |t|);
  }

  /**
   Notes with a marker of their own read back alike before and after the appendix, once a brace follows that
   marker.
   */
  lemma OpeningKeptReads(c: string, text: string)
    requires OpensObject(c)
    ensures Parse(c + RULE + WithMarker(text)) == Parse(c)
  {
    var k := Find(c, MARKER, 0).value;
    var t := c[k + |MARKER|..];
    MarkedKeptReads(c, text, k);
    if FirstObject(t).Some? {
      FirstObjectStays(t, RULE + WithMarker(text));
    } else {
      UnclosedKeptFails(t, WithMarker(text));
    }
  }

  /** Without such a brace the appended text decides, whether or not the kept text holds a marker. */
  lemma QuietKeptReads(c: string, text: string)
    requires !OpensObject(c)
    ensures Parse(c + RULE + WithMarker(text)) == ReadObject(FirstObject(text))
  {
    var k := Find(c, MARKER, 0);
    if k.None? {
      PlainKeptReads(c, text);
    } else {
      var t := c[k.value + |MARKER|..];
      MarkedKeptReads(c, text, k.value);
      MarkerIsPlain();
      QuietInFront(t, RULE, MARKER, text);
    }
  }

  lemma QuietInFront(t: string, r: string, p: string, text: string)
    requires '{' !in t && '{' !in r && '{' !in p
    ensures FirstObject(t + (r + (p + (" " + text)))) == FirstObject(text)
  {
    FirstObjectSkips(" ", text);
    FirstObjectSkips(p, " " + text);
    FirstObjectSkips(r, p + (" " + text));
    FirstObjectSkips(t, r + (p + (" " + text)));
  }

  // ---- The round trip ----

  predicate Fits(i: Interest) { |Appendix(i)| <= NOTES_LIMIT }

  /** What the appended object itself reads back as, when it is whole or not. */
  function ReadBack(i: Interest, whole: bool): Option<Interest> {
    if whole && '}' !in i.capturedAt then Some(Interest(i.offering, Trim(i.capturedAt))) else None
  }

  function Appended(i: Interest): Option<Interest> { ReadBack(i, Fits(i)) }

  lemma CutAppendix(text: string, m: nat)
    requires m <= |text|
    ensures |WithMarker(text)| == |MARKER| + 1 + |text|
    ensures WithMarker(text)[..|MARKER| + 1 + m] == WithMarker(text[..m])
  {
  }

  lemma CutMarked(text: string)
    ensures var m := if |WithMarker(text)| <= NOTES_LIMIT then |text| else NOTES_LIMIT - 30;
            m <= |text| && (m == |text| <==> |WithMarker(text)| <= NOTES_LIMIT)
            && Truncate(WithMarker(text), NOTES_LIMIT) == WithMarker(text[..m])
  {
    MarkerIsPlain();
    var m := if |WithMarker(text)| <= NOTES_LIMIT then |text| else NOTES_LIMIT - 30;
    CutAppendix(text, m);
    assert text[..|text|] == text;
  }

  /** An appendix alone, cut to the limit, reads back as the interest exactly when it fits. */
  lemma AppendixReads(i: Interest)
    ensures Parse(Truncate(Appendix(i), NOTES_LIMIT)) == Appended(i)
  {
    var text := ObjectText(i);
    var m := if Fits(i) then |text| else NOTES_LIMIT - 30;
    CutMarked(text);
    MarkedReads(text[..m]);
    ObjectReads(i, m);
  }

  lemma KeptFits(notes: string, length: nat)
    ensures KeptBeside(notes, length) != "" ==> |KeptBeside(notes, length)| + |RULE| + length <= NOTES_LIMIT
  {
  }

  /** Merged notes never exceed the limit. */
  lemma MergeIsLimited(notes: string, i: Interest)
    ensures |Merge(notes, i)| <= NOTES_LIMIT
  {
    KeptFits(notes, |Appendix(i)|);
    JoinedLength(Kept(notes, i), Appendix(i));
  }

  lemma JoinedLength(c: string, appendix: string)
    requires c != "" ==> |c| + |RULE| + |appendix| <= NOTES_LIMIT
    ensures |Joined(c, appendix)| <= NOTES_LIMIT
  {
  }

  lemma JoinedReads(c: string, text: string)
    requires c != ""
    ensures Parse(Joined(c, WithMarker(text))) == if OpensObject(c) then Parse(c) else ReadObject(FirstObject(text))
  {
    if OpensObject(c) {
      OpeningKeptReads(c, text);
    } else {
      QuietKeptReads(c, text);
    }
  }

  lemma WholeObjectReads(i: Interest)
    ensures ReadObject(FirstObject(ObjectText(i))) == ReadBack(i, true)
  {
    BeforeIsOpenable(i.offering);
    WholeTextReads(Before(i.offering), "capturedAt", i.capturedAt);
    NormalizedMembers(i);
  }

  lemma WholeTextReads(before: seq<Entry>, key: string, x: string)
    requires Openable(before, key)
    ensures var first := FirstObject(Stringify(WithLast(before, key, x)));
            if '}' in x then Unreadable(first)
            else first.Some? && ParseObject(first.value) == Some(WithLast(before, key, x))
  {
    var text := Stringify(WithLast(before, key, x));
    PrintedReads(before, key, x, |text|);
    assert text[..|text|] == text;
  }

  lemma NothingOpens()
    ensures !OpensObject("")
  {
    MarkerIsPlain();
  }

  /** What beginning with `c` and ending with the appendix of `i` reads back as. */
  lemma JoinedInterestReads(c: string, i: Interest)
    requires c != "" ==> Fits(i)
    ensures Parse(Joined(c, Appendix(i))) == if OpensObject(c) then Parse(c) else Appended(i)
  {
    if c == "" {
      NothingOpens();
      AppendixReads(i);
    } else {
      JoinedReads(c, ObjectText(i));
      WholeObjectReads(i);
    }
  }

  /**
   What merged notes read back as, for all notes and interests. A marker in the customer's own text
   with a brace after it takes over; otherwise the interest is read, if it fits and its time has no brace.
   */
  lemma MergeReads(notes: string, i: Interest)
    ensures Parse(Merge(notes, i)) == if OpensObject(Kept(notes, i)) then Parse(Kept(notes, i)) else Appended(i)
  {
    KeptFits(notes, |Appendix(i)|);
    JoinedInterestReads(Kept(notes, i), i);
  }

  lemma ReadBackExactly(i: Interest, whole: bool)
    requires Trimmed(i.capturedAt)
    ensures ReadBack(i, whole) == Some(i) <==> whole && '}' !in i.capturedAt
  {
    TrimIsTrimmed(i.capturedAt);
  }

  /** The round trip holds exactly under this condition, which is decided by the inputs of the merge. */
  lemma RoundTrip(notes: string, i: Interest)
    requires Trimmed(i.capturedAt)
    ensures Parse(Merge(notes, i)) == Some(i) <==>
            if OpensObject(Kept(notes, i)) then Parse(Kept(notes, i)) == Some(i) else Fits(i) && '}' !in i.capturedAt
  {
    MergeReads(notes, i);
    ReadBackExactly(i, Fits(i));
  }

  // ---- The fulfillment blocker ----

  /** The campaign type the server writes for an interest. */
  function CampaignType(o: Offering): string { "availability_interest:" + OfferingName(o) }

  lemma OfferingExactly(name: string, o: Offering)
    ensures OfferingOf(name) == Some(o) <==> name == OfferingName(o)
  {
    assert "fresh_leads"[0] != "live_transfer"[0];
  }

  lemma BehindPrefix(p: string, t: string, x: string)
    ensures t == p + x <==> p <= t && t[|p|..] == x
  {
    if p <= t { assert t == p + t[|p|..]; }
  }

  /** The campaign types recognised are those the server writes, with any white space around them, and no other. */
  lemma CampaignExactly(campaign: Option<string>)
    ensures Blocked(campaign, None) <==> IsInterest(campaign)
  {
    var trimmed := Trim(if campaign.Some? then campaign.value else "");
    forall o | true ensures trimmed == CampaignType(o) <==> OfferingOfCampaign(campaign) == Some(o) {
      OfferingExactly(trimmed[if CAMPAIGN_PREFIX <= trimmed then |CAMPAIGN_PREFIX| else 0..], o);
      BehindPrefix(CAMPAIGN_PREFIX, trimmed, OfferingName(o));
    }
    NothingTrimmed();
  }

  lemma NothingTrimmed()
    ensures forall o :: Trim("") != CampaignType(o)
  {
  }

  predicate IsInterest(campaign: Option<string>) {
    campaign.Some? && exists o :: Trim(campaign.value) == CampaignType(o)
  }

  /** Every campaign type the server writes is blocked, whatever white space came around it. */
  lemma WrittenIsBlocked(o: Offering, before: string, after: string, notes: Option<string>)
    requires AllSpace(before) && AllSpace(after)
    ensures Blocked(Some(before + CampaignType(o) + after), notes)
  {
    TypeIsTrimmed(o);
    TrimBetween(before, CampaignType(o), after);
    CampaignExactly(Some(before + CampaignType(o) + after));
  }

  lemma TypeIsTrimmed(o: Offering)
    ensures CampaignType(o) != "" && Trimmed(CampaignType(o))
  {
    assert CampaignType(o)[0] == 'a';
    assert CampaignType(o)[|CampaignType(o)| - 1] == OfferingName(o)[|OfferingName(o)| - 1];
  }

  /** Exactly when the fulfillment blocker fires on merged notes. */
  lemma BlockerFires(notes: string, i: Interest, campaign: Option<string>)
    ensures Blocked(campaign, Some(Merge(notes, i))) <==>
            || IsInterest(campaign)
            || (if OpensObject(Kept(notes, i)) then Parse(Kept(notes, i)).Some? else Fits(i) && '}' !in i.capturedAt)
  {
    MergeReads(notes, i);
    CampaignExactly(campaign);
  }

  // ---- The customer's own text ----

  /** How much of the customer's text there is room for. */
  function Room(i: Interest): int { 2000 - |Appendix(i)| - 5 }

  /**
   What is kept of notes without a marker: all of the text if there is room, else as much as there is room for,
   less white space at its end.
   */
  lemma KeptIsOwnText(notes: string, i: Interest)
    requires !Occurs(MARKER, notes)
    ensures Kept(notes, i) <= Trim(notes)
    ensures |Trim(notes)| <= Room(i) && Room(i) > 0 ==> Kept(notes, i) == Trim(notes)
    ensures forall k | |Kept(notes, i)| <= k < |Trim(notes)| && k < Room(i) :: IsSpace(Trim(notes)[k])
    ensures |Kept(notes, i)| <= if Room(i) > 0 then Room(i) else 0
    ensures Trimmed(Kept(notes, i))
  {
    TrimIsTrimmed(notes);
    TrimIsTrimmed(Trim(notes));
    CutIsOwnText(Trim(notes), |Appendix(i)|);
  }

  lemma CutIsOwnText(text: string, length: nat)
    requires Trimmed(text)
    ensures var kept, room := CutBeside(text, length), 2000 - length - 5;
            && kept <= text && Trimmed(kept)
            && (|text| <= room && room > 0 ==> kept == text)
            && (forall k | |kept| <= k < |text| && k < room :: IsSpace(text[k]))
            && |kept| <= if room > 0 then room else 0
  {
    assert |RULE| == 5;
  }

  lemma {:induction false} NoRulesNothingRemoved(s: string, lineStart: bool)
    requires !Occurs("---", s)
    ensures RemoveRules(s, lineStart) == s
  {
    if s != [] {
      assert !At(s, "---", 0);
      OccursInRest("---", s, 1);
      NoRulesNothingRemoved(s[1..], IsLineEnd(s[0]));
      assert s == [s[0]] + s[1..];
    }
  }

  // ---- Stripping merged notes ----

  lemma TrimStartObject(text: string)
    requires text != [] && text[0] == '{'
    ensures TrimStart(" " + text) == text
  {
    assert (" " + text)[1..] == text;
  }

  lemma WholeIsAll(s: string, from: nat, to: nat)
    requires from <= to <= |s| && s[from..to] == s
    ensures from == 0 && to == |s|
  {
    assert |s[from..to]| == to - from;
  }

  lemma OnlyLastBrace(text: string)
    requires FirstObject(text) == Some(text)
    ensures text != [] && text[0] == '{' && IndexOf(text, '}', 0) == Some(|text| - 1)
  {
    var open := IndexOf(text, '{', 0).value;
    var close := IndexOf(text, '}', open).value;
    WholeIsAll(text, open, close + 1);
  }

  /** An appendix whose text is a single object is matched as a whole. */
  lemma AppendixMatches(text: string)
    requires FirstObject(text) == Some(text)
    ensures MarkedLength(WithMarker(text)) == Some(|WithMarker(text)|)
  {
    MatchesBehind(MARKER, text);
  }

  lemma MatchesBehind(p: string, text: string)
    requires FirstObject(text) == Some(text)
    ensures LengthBehind(p + (" " + text), p) == Some(|p| + 1 + |text|)
  {
    var s := p + (" " + text);
    OnlyLastBrace(text);
    assert s[0..|p|] == p;
    AfterPrefix(p, " " + text);
    TrimStartObject(text);
  }

  lemma RuleAndAppendixMatch(text: string)
    requires FirstObject(text) == Some(text)
    ensures MatchLength(RULE + WithMarker(text)) == Some(|RULE + WithMarker(text)|)
  {
    var s := RULE + WithMarker(text);
    AppendixMatches(text);
    assert s[0..|RULE|] == RULE;
    AfterPrefix(RULE, WithMarker(text));
  }

  /** Nothing in marker-free text in front of the rule is matched. */
  lemma KeptIsNotMatched(c: string, z: string)
    requires !Occurs(MARKER, c) && c != ""
    ensures MatchLength(c + RULE + z) == None
  {
    var s := c + RULE + z;
    MarkerIsPlain();
    if At(s, MARKER, 0) {
      OccurrenceEndsBefore(MARKER, c, RULE, z, 0);
    }
    if At(s[|RULE|..], MARKER, 0) {
      ShiftAt(s, MARKER, |RULE|);
      OccurrenceEndsBefore(MARKER, c, RULE, z, |RULE|);
    }
  }

  lemma ShiftAt(s: string, p: string, k: nat)
    requires k <= |s| && At(s[k..], p, 0)
    ensures At(s, p, k)
  {
    assert s[k..k + |p|] == s[k..][0..0 + |p|];
  }

  lemma RemoveMarkedStep(s: string)
    requires s != []
    ensures MatchLength(s) == None ==> RemoveMarked(s) == [s[0]] + RemoveMarked(s[1..])
    ensures MatchLength(s) == Some(|s|) ==> RemoveMarked(s) == []
  {
    assert s[|s|..] == [];
  }

  lemma WithoutFirst(c: string, r: string, z: string)
    requires c != []
    ensures (c + r + z)[1..] == c[1..] + r + z && (c + r + z)[0] == c[0]
    ensures [c[0]] + c[1..] == c
  {
  }

  lemma {:induction false} RemoveMarkedLeavesKept(c: string, text: string)
    requires !Occurs(MARKER, c) && FirstObject(text) == Some(text)
    ensures RemoveMarked(c + RULE + WithMarker(text)) == c
  {
    if c == [] {
      RuleAndAppendixMatch(text);
      assert c + RULE + WithMarker(text) == RULE + WithMarker(text);
      RemoveMarkedStep(RULE + WithMarker(text));
    } else {
      KeptIsNotMatched(c, WithMarker(text));
      OccursInRest(MARKER, c, 1);
      RemoveMarkedLeavesKept(c[1..], text);
      WithoutFirst(c, RULE, WithMarker(text));
      RemoveMarkedStep(c + RULE + WithMarker(text));
    }
  }

  lemma AloneIsRemoved(text: string)
    requires FirstObject(text) == Some(text)
    ensures RemoveMarked(WithMarker(text)) == []
  {
    var s := WithMarker(text);
    AppendixMatches(text);
    NoRuleAtMarker(" " + text);
    assert s[|s|..] == [];
  }

  lemma NoRuleAtMarker(z: string)
    ensures !At(MARKER + z, RULE, 0)
  {
    assert MARKER[0] == 's' && 's' !in RULE;
    if At(MARKER + z, RULE, 0) {
      AtCovers(MARKER + z, RULE, 0, 0);
      assert false;
    }
  }

  lemma ObjectIsOne(i: Interest)
    requires '}' !in i.capturedAt
    ensures FirstObject(ObjectText(i)) == Some(ObjectText(i))
  {
    BeforeIsOpenable(i.offering);
    WholeTextIsFirst(Before(i.offering), "capturedAt", i.capturedAt);
  }

  lemma MarkerOccurs(a: string, z: string)
    ensures Occurs(MARKER, a + (MARKER + z))
  {
    var s := a + (MARKER + z);
    assert s[|a|..|a| + |MARKER|] == MARKER;
    assert At(s, MARKER, |a|);
  }

  lemma StripAlone(text: string)
    requires FirstObject(text) == Some(text)
    ensures Strip(WithMarker(text)) == Trim(RemoveRules("", true))
  {
    AloneIsRemoved(text);
    MarkerOccurs([], " " + text);
    assert [] + WithMarker(text) == WithMarker(text);
    StripWithMarker(WithMarker(text));
  }

  lemma StripBehind(c: string, text: string)
    requires !Occurs(MARKER, c) && FirstObject(text) == Some(text)
    ensures Strip(c + RULE + WithMarker(text)) == Trim(RemoveRules(c, true))
  {
    RemoveMarkedLeavesKept(c, text);
    MarkerOccurs(c + RULE, " " + text);
    StripWithMarker(c + RULE + WithMarker(text));
  }

  lemma JoinedShape(c: string, appendix: string)
    ensures c != "" ==> Joined(c, appendix) == c + RULE + appendix
    ensures c == "" && |appendix| <= NOTES_LIMIT ==> Joined(c, appendix) == appendix
  {
  }

  lemma StripJoined(c: string, text: string)
    requires !Occurs(MARKER, c) && FirstObject(text) == Some(text) && (c == "" ==> |WithMarker(text)| <= NOTES_LIMIT)
    ensures Strip(Joined(c, WithMarker(text))) == Trim(RemoveRules(c, true))
  {
    JoinedShape(c, WithMarker(text));
    if c == "" { StripAlone(text); } else { StripBehind(c, text); }
  }

  lemma StripWithMarker(notes: string)
    requires Occurs(MARKER, notes)
    ensures Strip(notes) == Trim(RemoveRules(RemoveMarked(notes), true))
  {
  }

  /** Stripping merged notes gives back the kept text, without lines that are only a rule. */
  lemma StripMerged(notes: string, i: Interest)
    requires !Occurs(MARKER, Kept(notes, i)) && Fits(i) && '}' !in i.capturedAt
    ensures Strip(Merge(notes, i)) == Trim(RemoveRules(Kept(notes, i), true))
  {
    ObjectIsOne(i);
    StripJoined(Kept(notes, i), ObjectText(i));
  }

  /** Merging and stripping again gives the customer's own text back, if it holds neither a marker nor a rule. */
  lemma StripGivesBack(notes: string, i: Interest)
    requires !Occurs(MARKER, notes) && !Occurs("---", notes) && Fits(i) && '}' !in i.capturedAt
    ensures Strip(Merge(notes, i)) == Kept(notes, i) <= Trim(notes)
  {
    KeptIsOwnText(notes, i);
    CutBesideBringsNothing(notes, |Appendix(i)|, MARKER);
    CutBesideBringsNothing(notes, |Appendix(i)|, "---");
    StripMerged(notes, i);
    NoRulesNothingRemoved(Kept(notes, i), true);
    TrimIsTrimmed(Kept(notes, i));
  }

  // ---- Removing rules brings no marker ----

  predicate OneLine(p: string) { forall k | 0 <= k < |p| :: !IsLineEnd(p[k]) }

  /** Inside a line nothing is removed: a prefix of the result without line ends is a prefix of the text. */
  lemma {:induction false} RulesKeepPrefix(s: string, p: string)
    requires OneLine(p) && p <= RemoveRules(s, false)
    ensures p <= s
    decreases |p|
  {
    if p != [] {
      assert s[0] == p[0] && !IsLineEnd(s[0]);
      assert RemoveRules(s, false)[1..] == RemoveRules(s[1..], false);
      RulesKeepPrefix(s[1..], p[1..]);
      assert p == [p[0]] + p[1..] && s == [s[0]] + s[1..];
    }
  }

  lemma RulesKeepFirst(s: string, lineStart: bool, p: string)
    requires OneLine(p) && p != [] && p <= RemoveRules(s, lineStart)
    ensures p <= s
  {
    if lineStart && s != [] && RuleLength(s).Some? {
      var n := RuleLength(s).value;
      var rest := s[n..];
      if rest != [] { NoRuleAtLineEnd(rest); }
      assert false;
    } else {
      assert s[0] == p[0] && !IsLineEnd(s[0]);
      assert RemoveRules(s, lineStart)[1..] == RemoveRules(s[1..], false);
      RulesKeepPrefix(s[1..], p[1..]);
      assert p == [p[0]] + p[1..] && s == [s[0]] + s[1..];
    }
  }

  lemma NoRuleAtLineEnd(s: string)
    requires s != [] && IsLineEnd(s[0])
    ensures RuleLength(s) == None
  {
    if |s| >= 3 { AtMeansEqual(s, "---", 0); }
  }

  /** One step: a rule is cut away, or one character is kept. */
  lemma RemoveRulesStep(s: string, lineStart: bool) returns (kept: string, n: nat, lineStart': bool)
    requires s != []
    ensures |kept| <= 1 && 0 < n <= |s|
    ensures RemoveRules(s, lineStart) == kept + RemoveRules(s[n..], lineStart')
  {
    if lineStart && RuleLength(s).Some? {
      kept, n := [], RuleLength(s).value;
      lineStart' := IsLineEnd(s[n - 1]);
      assert [] + RemoveRules(s[n..], lineStart') == RemoveRules(s[n..], lineStart');
    } else {
      kept, n, lineStart' := [s[0]], 1, IsLineEnd(s[0]);
    }
  }

  lemma NothingFromNothing(s: string, lineStart: bool, p: string, j: nat)
    requires p != [] && At(RemoveRules(s, lineStart), p, j)
    ensures s != []
  {
  }

  /** An occurrence behind the start of the result lies in the result of some rest of the text. */
  lemma ResultBehind(s: string, lineStart: bool, p: string, j: nat) returns (n: nat, lineStart': bool, j': nat)
    requires p != [] && j > 0 && At(RemoveRules(s, lineStart), p, j)
    ensures 0 < n <= |s| && At(RemoveRules(s[n..], lineStart'), p, j')
  {
    NothingFromNothing(s, lineStart, p, j);
    var kept: string;
    kept, n, lineStart' := RemoveRulesStep(s, lineStart);
    AtBehind(kept, RemoveRules(s[n..], lineStart'), p, j);
    j' := j - |kept|;
  }

  lemma {:induction false} RulesBringNothing(s: string, lineStart: bool, p: string, j: nat)
    requires OneLine(p) && p != [] && At(RemoveRules(s, lineStart), p, j)
    ensures Occurs(p, s)
    decreases |s|
  {
    if j == 0 {
      RulesKeepFirst(s, lineStart, p);
      assert At(s, p, 0);
    } else {
      var n, lineStart', j' := ResultBehind(s, lineStart, p, j);
      RulesBringNothing(s[n..], lineStart', p, j');
      OccursInRest(p, s, n);
    }
  }

  lemma MarkerIsOneLine()
    ensures OneLine(MARKER)
  {
  }

  lemma RulesBringNoMarker(c: string)
    requires !Occurs(MARKER, c)
    ensures !Occurs(MARKER, RemoveRules(c, true))
  {
    var out := RemoveRules(c, true);
    MarkerIsOneLine();
    MarkerIsPlain();
    if Occurs(MARKER, out) {
      var j :| 0 <= j <= |out| && At(out, MARKER, j);
      RulesBringNothing(c, true, MARKER, j);
    }
  }

  lemma TrimBringsNothing(s: string, p: string)
    requires !Occurs(p, s)
    ensures !Occurs(p, Trim(s))
  {
    var t := TrimStart(s);
    OccursInWider(p, s, |s| - |t|, |s|);
    assert s[|s| - |t|..|s|] == t;
    OccursInWider(p, t, 0, |TrimEnd(t)|);
  }

  lemma CutBringsNothing(s: string, n: nat, p: string)
    requires !Occurs(p, s)
    ensures !Occurs(p, TrimEnd(Truncate(s, n)))
  {
    var t := Truncate(s, n);
    OccursInWider(p, s, 0, |t|);
    assert s[0..|t|] == t;
    OccursInWider(p, t, 0, |TrimEnd(t)|);
  }

  // ---- Merging again ----

  /** Trimming and cutting adds no occurrence of anything. */
  lemma CutBesideBringsNothing(s: string, length: nat, p: string)
    requires !Occurs(p, s) && p != ""
    ensures !Occurs(p, CutBeside(Trim(Trim(s)), length))
  {
    TrimBringsNothing(s, p);
    TrimBringsNothing(Trim(s), p);
    CutKept(Trim(Trim(s)), NOTES_LIMIT - length - |RULE|, p);
  }

  lemma CutKept(cleaned: string, room: int, p: string)
    requires !Occurs(p, cleaned) && p != ""
    ensures !Occurs(p, if room > 0 then TrimEnd(Truncate(cleaned, room)) else "")
  {
    if room > 0 { CutBringsNothing(cleaned, room, p); } else { TooShortToOccur(p, ""); }
  }

  lemma NoMarkerOpensNothing(c: string)
    requires !Occurs(MARKER, c)
    ensures !OpensObject(c)
  {
  }

  /** After a merge, whatever interest is merged next is the one that is read. */
  lemma MergeAgainReads(notes: string, i: Interest, j: Interest)
    requires !Occurs(MARKER, Kept(notes, i)) && Fits(i) && '}' !in i.capturedAt
    ensures !Occurs(MARKER, Kept(Merge(notes, i), j))
    ensures Parse(Merge(Merge(notes, i), j)) == Appended(j)
  {
    StripMerged(notes, i);
    RulesBringNoMarker(Kept(notes, i));
    CutBesideBringsNothing(RemoveRules(Kept(notes, i), true), |Appendix(j)|, MARKER);
    NoMarkerOpensNothing(Kept(Merge(notes, i), j));
    MergeReads(Merge(notes, i), j);
  }
}
