/** How often the marker stands in merged notes, and notes whose own marker hides the merged interest. */
module AvailabilityMarker {
  import opened Wrappers
  import opened Text
  import opened FlatJson
  import opened AvailabilityInterest
  import opened AvailabilityRoundTrip

  // ---- A pattern that printing neither makes nor hides ----

  /** No character JSON text is built with, and a first character no escape can end in. */
  predicate Quiet(p: string) {
    && |p| > 5
    && '"' !in p && '\\' !in p && ':' !in p && ',' !in p && '{' !in p && '}' !in p && ' ' !in p
    && p[0] !in "\"\\bfnrtu0123456789abcdef"
  }

  lemma EscapeForms(c: char)
    ensures EscapeChar(c) == [c] || (|EscapeChar(c)| >= 2 && EscapeChar(c)[0] == '\\')
    ensures forall k | 1 <= k < |EscapeChar(c)| :: EscapeChar(c)[k] in "\"\\bfnrtu0123456789abcdef"
  {
    if c < ' ' {
      assert HEX[c as int / 16] in HEX && HEX[c as int % 16] in HEX;
      assert forall h | h in HEX :: h in "\"\\bfnrtu0123456789abcdef";
    }
  }

  lemma {:induction false} EscapePrefix(p: string, x: string)
    requires '\\' !in p && p <= Escape(x)
    ensures p <= x
  {
    if p != [] {
      var head, tail := EscapeChar(x[0]), Escape(x[1..]);
      EscapeForms(x[0]);
      assert (head + tail)[0] == head[0] == p[0];
      assert head == [x[0]];
      assert (head + tail)[1..] == tail;
      assert p[1..] <= tail;
      EscapePrefix(p[1..], x[1..]);
      assert p == [p[0]] + p[1..] && x == [x[0]] + x[1..];
    }
  }

  lemma InsideNoEscape(p: string, c: char, tail: string, j: nat)
    requires Quiet(p) && At(EscapeChar(c) + tail, p, j) && j > 0
    ensures j >= |EscapeChar(c)|
  {
    EscapeForms(c);
    AtMeansEqual(EscapeChar(c) + tail, p, j);
  }

  lemma {:induction false} AtInEscape(p: string, x: string, j: nat)
    requires Quiet(p) && At(Escape(x), p, j)
    ensures Occurs(p, x)
    decreases |x|
  {
    if j == 0 {
      EscapePrefix(p, x);
      assert At(x, p, 0);
    } else {
      var head, tail := EscapeChar(x[0]), Escape(x[1..]);
      InsideNoEscape(p, x[0], tail, j);
      AtBehind(head, tail, p, j);
      AtInEscape(p, x[1..], j - |head|);
      OccursInRest(p, x, 1);
    }
  }

  lemma EscapeHidesNothing(p: string, x: string)
    requires Quiet(p) && !Occurs(p, x)
    ensures !Occurs(p, Escape(x))
  {
    if Occurs(p, Escape(x)) {
      var j :| 0 <= j <= |Escape(x)| && At(Escape(x), p, j);
      AtInEscape(p, x, j);
    }
  }

  /** Two texts without `p`, joined by a character that `p` does not have, are without `p`. */
  lemma JoinFree(p: string, x: string, c: char, y: string)
    requires p != [] && c !in p && !Occurs(p, x) && !Occurs(p, y)
    ensures !Occurs(p, x + [c] + y)
  {
    if Occurs(p, x + [c] + y) { OccursAcross(p, x, c, y); }
  }

  lemma QuoteFree(p: string, x: string)
    requires Quiet(p) && !Occurs(p, x)
    ensures !Occurs(p, Quote(x))
  {
    EscapeHidesNothing(p, x);
    TooShortToOccur(p, []);
    JoinFree(p, [], '"', Escape(x));
    JoinFree(p, [] + ['"'] + Escape(x), '"', []);
    assert Quote(x) == [] + ['"'] + Escape(x) + ['"'] + [];
  }

  predicate EntryFree(e: Entry, p: string) {
    Printable(e.value) && !Occurs(p, e.key) && (e.value.VString? ==> !Occurs(p, e.value.s))
  }

  lemma PrintFree(p: string, e: Entry)
    requires Quiet(p) && EntryFree(e, p)
    ensures !Occurs(p, PrintEntry(e))
  {
    QuoteFree(p, e.key);
    match e.value {
      case VString(s) => QuoteFree(p, s);
      case VBool(b) => TooShortToOccur(p, PrintValue(e.value));
    }
    JoinFree(p, Quote(e.key), ':', PrintValue(e.value));
  }

  lemma {:induction false} OpeningFree(p: string, before: seq<Entry>, key: string)
    requires AllPrintable(before) && Quiet(p) && !Occurs(p, key)
    requires forall i | 0 <= i < |before| :: EntryFree(before[i], p)
    ensures !Occurs(p, Opening(before, key))
  {
    if before == [] {
      QuoteFree(p, key);
      TooShortToOccur(p, "\"");
      JoinFree(p, Quote(key), ':', "\"");
      assert Quote(key) + ":\"" == Quote(key) + [':'] + "\"";
    } else {
      PrintFree(p, before[0]);
      OpeningFree(p, before[1..], key);
      JoinFree(p, PrintEntry(before[0]), ',', Opening(before[1..], key));
      assert PrintEntry(before[0]) + ("," + Opening(before[1..], key)) ==
          PrintEntry(before[0]) + [','] + Opening(before[1..], key);
    }
  }

  lemma {:induction false} OpeningEndsInQuote(before: seq<Entry>, key: string)
    requires AllPrintable(before)
    ensures Opening(before, key) != [] && Opening(before, key)[|Opening(before, key)| - 1] == '"'
  {
    if before != [] {
      OpeningEndsInQuote(before[1..], key);
    }
  }

  lemma EndFree(p: string, lead: string, escaped: string)
    requires Quiet(p) && !Occurs(p, lead) && !Occurs(p, escaped) && lead != [] && lead[|lead| - 1] == '"'
    ensures !Occurs(p, lead + (escaped + "\"}"))
  {
    var front := lead[..|lead| - 1];
    OccursInWider(p, lead, 0, |lead| - 1);
    assert lead[0..|lead| - 1] == front;
    TooShortToOccur(p, "}");
    JoinFree(p, escaped, '"', "}");
    JoinFree(p, front, '"', escaped + ['"'] + "}");
    assert lead + (escaped + "\"}") == front + ['"'] + (escaped + ['"'] + "}");
  }

  lemma LeadFree(p: string, opening: string)
    requires Quiet(p) && !Occurs(p, opening)
    ensures !Occurs(p, "{" + opening)
  {
    TooShortToOccur(p, []);
    JoinFree(p, [], '{', opening);
    assert "{" + opening == [] + ['{'] + opening;
  }

  /** A printed object is without `p` when its members are. */
  lemma TextFree(p: string, before: seq<Entry>, key: string, x: string)
    requires AllPrintable(before) && Quiet(p) && !Occurs(p, key) && !Occurs(p, x)
    requires forall i | 0 <= i < |before| :: EntryFree(before[i], p)
    ensures !Occurs(p, Stringify(WithLast(before, key, x)))
  {
    TextShape(before, key, x);
    OpeningFree(p, before, key);
    OpeningEndsInQuote(before, key);
    EscapeHidesNothing(p, x);
    LeadFree(p, Opening(before, key));
    EndFree(p, Opened(before, key), Escape(x));
  }

  // ---- The marker stands once ----

  lemma OnlyAfterRule(p: string, c: string, r: string, text: string, j: nat)
    requires Apart(p, r) && ' ' !in p && !Occurs(p, c) && !Occurs(p, text)
    requires At(c + r + (p + (" " + text)), p, j)
    ensures j == |c| + |r|
  {
    var k := |c| + |r|;
    var s := c + r + (p + (" " + text));
    AtMeansEqual(s, p, j);
    if j < k {
      OccurrenceEndsBefore(p, c, r, p + (" " + text), j);
    } else if k < j <= k + |p| {
      assert s[k + |p|] == ' ';
      AtCovers(s, p, j, k + |p|);
    } else if j > k + |p| {
      var j' := j - (k + |p| + 1);
      AtMeansEqual(text, p, j');
    }
  }

  lemma OnlyAtStart(p: string, text: string, j: nat)
    requires p != [] && ' ' !in p && !Occurs(p, text) && At(p + (" " + text), p, j)
    ensures j == 0
  {
    var s := p + (" " + text);
    AtMeansEqual(s, p, j);
    if 0 < j <= |p| {
      assert s[|p|] == ' ';
      AtCovers(s, p, j, |p|);
    } else if j > |p| {
      AtMeansEqual(text, p, j - |p| - 1);
    }
  }

  lemma MarkerIsQuiet()
    ensures Quiet(MARKER) && |MARKER| == 29
  {
    MarkerIsUnquoted();
    MarkerIsUnbraced();
    assert MARKER[0] == 's' && 's' !in "\"\\bfnrtu0123456789abcdef";
  }

  lemma MarkerIsUnquoted()
    ensures '"' !in MARKER && '\\' !in MARKER && ':' !in MARKER
  {
    MarkerHasNoQuote();
  }

  lemma MarkerIsUnbraced()
    ensures ',' !in MARKER && '{' !in MARKER && '}' !in MARKER && ' ' !in MARKER
  {
    MarkerHasNoBrace();
  }

  lemma ObjectIsFree(i: Interest)
    requires !Occurs(MARKER, i.capturedAt)
    ensures !Occurs(MARKER, ObjectText(i))
  {
    MarkerIsQuiet();
    TextFree(MARKER, Before(i.offering), "capturedAt", i.capturedAt);
  }

  /** Merged notes hold the marker at one place only, when neither the kept text nor the time holds it. */
  lemma MarkerStandsOnce(notes: string, i: Interest, j: nat)
    requires !Occurs(MARKER, Kept(notes, i)) && !Occurs(MARKER, i.capturedAt) && Fits(i)
    ensures At(Merge(notes, i), MARKER, j) <==> j == if Kept(notes, i) == "" then 0 else |Kept(notes, i)| + |RULE|
  {
    ObjectIsFree(i);
    JoinedOnce(Kept(notes, i), ObjectText(i), j);
  }

  lemma JoinedOnce(c: string, text: string, j: nat)
    requires !Occurs(MARKER, c) && !Occurs(MARKER, text) && |WithMarker(text)| <= NOTES_LIMIT
    ensures At(Joined(c, WithMarker(text)), MARKER, j) <==> j == if c == "" then 0 else |c| + |RULE|
  {
    MarkerIsQuiet();
    MarkerIsPlain();
    if c == "" {
      StartHolds(MARKER, " " + text);
      if At(WithMarker(text), MARKER, j) { OnlyAtStart(MARKER, text, j); }
    } else {
      MiddleHolds(c + RULE, MARKER, " " + text);
      if At(c + RULE + WithMarker(text), MARKER, j) { OnlyAfterRule(MARKER, c, RULE, text, j); }
    }
  }

  lemma StartHolds(p: string, z: string)
    ensures At(p + z, p, 0)
  {
    assert (p + z)[0..0 + |p|] == p;
  }

  lemma MiddleHolds(a: string, p: string, z: string)
    ensures At(a + (p + z), p, |a|)
  {
    assert (a + (p + z))[|a|..|a| + |p|] == p;
  }

  // ---- Notes that hide the merged interest ----

  lemma {:induction false} NothingToRemove(s: string)
    requires forall k | 0 <= k < |s| :: MatchLength(s[k..]) == None
    ensures RemoveMarked(s) == s
  {
    if s != [] {
      assert s[0..] == s;
      forall k | 0 <= k < |s[1..]| ensures MatchLength(s[1..][k..]) == None {
        assert s[1..][k..] == s[k + 1..];
      }
      NothingToRemove(s[1..]);
    }
  }

  lemma {:induction false} NoDashNoRule(s: string, lineStart: bool)
    requires '-' !in s
    ensures RemoveRules(s, lineStart) == s
  {
    if s != [] {
      NoRuleWithoutDash(s);
      NoDashNoRule(s[1..], IsLineEnd(s[0]));
      assert [s[0]] + s[1..] == s;
    }
  }

  lemma NoRuleWithoutDash(s: string)
    requires '-' !in s
    ensures RuleLength(s) == None
  {
    if At(s, "---", 0) {
      AtCovers(s, "---", 0, 0);
      assert false;
    }
  }

  /** A marker that no object follows directly is not stripped. */
  lemma StrayMarkerStays(text: string)
    requires !Occurs(MARKER, text) && '\n' !in text && '-' !in text
    requires text != [] && text[0] != '{' && !IsSpace(text[0]) && !IsSpace(text[|text| - 1])
    ensures Strip(WithMarker(text)) == WithMarker(text)
  {
    var s := WithMarker(text);
    StrayIsPlain(text);
    forall k | 0 <= k < |s| ensures MatchLength(s[k..]) == None {
      StrayIsNotMatched(text, k);
    }
    NothingToRemove(s);
    NoDashNoRule(s, true);
    MarkerOccurs([], " " + text);
    assert [] + s == s;
    StripWithMarker(s);
    TrimIsTrimmed(s);
  }

  lemma StrayIsPlain(text: string)
    requires '\n' !in text && '-' !in text && text != [] && !IsSpace(text[|text| - 1])
    ensures '\n' !in WithMarker(text) && '-' !in WithMarker(text) && Trimmed(WithMarker(text))
  {
    MarkerIsSolid();
  }

  lemma MarkerIsSolid()
    ensures '\n' !in MARKER && '-' !in MARKER && MARKER[0] == 's'
  {
  }

  lemma StrayIsNotMatched(text: string, k: nat)
    requires !Occurs(MARKER, text) && '\n' !in WithMarker(text) && k < |WithMarker(text)|
    requires text != [] && text[0] != '{' && !IsSpace(text[0])
    ensures MatchLength(WithMarker(text)[k..]) == None
  {
    var s := WithMarker(text);
    MarkerIsUnbraced();
    NoRuleWithoutLineEnd(s[k..], s[k]);
    if At(s[k..], MARKER, 0) {
      ShiftAt(s, MARKER, k);
      OnlyAtStart(MARKER, text, k);
      assert s[0..] == s;
      StrayIsNoObject(text);
    }
  }

  lemma StrayIsNoObject(text: string)
    requires text != [] && text[0] != '{' && !IsSpace(text[0])
    ensures MarkedLength(WithMarker(text)) == None
  {
    AfterPrefix(MARKER, " " + text);
    assert (" " + text)[1..] == text;
    assert TrimStart(" " + text) == TrimStart(text) == text;
  }

  lemma NoRuleWithoutLineEnd(s: string, c: char)
    requires s != [] && s[0] == c && c != '\n'
    ensures !At(s, RULE, 0)
  {
    if |s| >= |RULE| { AtMeansEqual(s, RULE, 0); }
  }

  lemma ShortIsKept(notes: string, length: nat)
    requires Strip(notes) == notes && Trimmed(notes) && |notes| + length + |RULE| <= NOTES_LIMIT && notes != ""
    ensures KeptBeside(notes, length) == notes
  {
    TrimIsTrimmed(notes);
  }

  lemma EmptyObjectReads()
    ensures FirstObject("x {}") == Some("{}") && ReadObject(Some("{}")) == None
  {
    FirstObjectSkips("x ", "{}");
    assert "x " + "{}" == "x {}";
    assert "{}"[0..2] == "{}";
    assert "{}"[1..] == "}" && "}"[1..] == "";
    assert ParseObject("{}") == Some([]);
  }

  /** One line of customer text with an object that does not follow directly. */
  predicate Stray(text: string) {
    && !Occurs(MARKER, text) && '\n' !in text && '-' !in text && '{' in text
    && text[0] != '{' && !IsSpace(text[0]) && !IsSpace(text[|text| - 1])
  }

  lemma StrayObjectReads()
    ensures Parse(WithMarker("x {}")) == None
  {
    MarkedReads("x {}");
    EmptyObjectReads();
  }

  /** Any stray marker with an object of the customer's own behind it decides what the merged notes read back as. */
  lemma StrayObjectDecides(text: string, i: Interest)
    requires Stray(text)
    requires |Appendix(i)| + |RULE| + |WithMarker(text)| <= NOTES_LIMIT
    ensures Parse(Merge(WithMarker(text), i)) == Parse(WithMarker(text))
  {
    StrayMarkerStays(text);
    StrayIsPlain(text);
    ShortIsKept(WithMarker(text), |Appendix(i)|);
    StrayOpens(text);
    MergeReads(WithMarker(text), i);
  }

  /** If that object is no interest, the blocker does not fire on the merged notes. */
  lemma BlockerMisses(text: string, i: Interest)
    requires Stray(text)
    requires |Appendix(i)| + |RULE| + |WithMarker(text)| <= NOTES_LIMIT
    requires Parse(WithMarker(text)) == None
    ensures !Blocked(None, Some(Merge(WithMarker(text), i)))
  {
    StrayObjectDecides(text, i);
  }

  /** Such notes exist: a stray word and an empty object. */
  lemma StrayExists() returns (text: string)
    ensures Stray(text) && |text| == 4 && Parse(WithMarker(text)) == None
  {
    text := "x {}";
    StrayObjectReads();
  }

  /** So the round trip is not unconditional: for every interest some notes hide it, and from the blocker too. */
  lemma SomeNotesHideTheInterest(i: Interest) returns (notes: string)
    requires |Appendix(i)| <= 1900
    ensures Parse(Merge(notes, i)) == None && !Blocked(None, Some(Merge(notes, i)))
  {
    var text := StrayExists();
    notes := WithMarker(text);
    BlockerMisses(text, i);
    StrayObjectDecides(text, i);
  }

  lemma StrayOpens(text: string)
    requires '{' in text
    ensures OpensObject(WithMarker(text))
  {
    StartHolds(MARKER, " " + text);
    FirstAt(WithMarker(text), MARKER, 0);
    AfterPrefix(MARKER, " " + text);
  }
}
