/**
 No JSON text reaches across a line that starts with two dashes: a string cannot hold a raw line
 end, and no token starts with two dashes.
 */
module FlatJsonWall {
  import opened Wrappers
  import opened FlatJson

  /** `s` still holds, `n` characters before its end, a line end with two dashes after it. */
  predicate Ahead(s: string, n: nat) {
    3 <= n <= |s| && s[|s| - n] == '\n' && s[|s| - n + 1] == '-' && s[|s| - n + 2] == '-'
  }

  /** Only the two dashes are left in front: the line end was skipped as white space. */
  predicate Reached(s: string, n: nat) {
    3 <= n && |s| == n - 1 && s[0] == '-' && s[1] == '-'
  }

  predicate Walled(s: string, n: nat) { Ahead(s, n) || Reached(s, n) }

  lemma AheadOfTail(s: string, n: nat, k: nat)
    requires Ahead(s, n) && k <= |s| - n
    ensures Ahead(s[k..], n)
  {
  }

  lemma {:induction false} SkipSpaceStops(s: string, n: nat)
    requires Walled(s, n)
    ensures Walled(SkipSpace(s), n)
  {
    if Ahead(s, n) && IsJsonSpace(s[0]) {
      SkipSpaceStops(s[1..], n);
    }
  }

  lemma EscapeStops(s: string, n: nat)
    requires Ahead(s, n) && ParseEscape(s).Some?
    ensures Ahead(ParseEscape(s).value.1, n)
  {
    AheadOfTail(s, n, if s[0] == 'u' then 5 else 1);
  }

  lemma CharStops(s: string, n: nat)
    requires Ahead(s, n) && ParseChar(s).Some?
    ensures Ahead(ParseChar(s).value.1, n)
  {
    AheadOfTail(s, n, 1);
    if s[0] == '\\' {
      EscapeStops(s[1..], n);
    }
  }

  lemma {:induction false} StringStops(s: string, n: nat)
    requires Ahead(s, n) && ParseString(s).Some?
    ensures Ahead(ParseString(s).value.1, n)
    decreases |s|
  {
    if s[0] == '"' {
      AheadOfTail(s, n, 1);
    } else {
      CharStops(s, n);
      StringStops(ParseChar(s).value.1, n);
    }
  }

  lemma WholeHasNoLineEnd(s: string)
    requires WholeLength(s).Some?
    ensures '\n' !in s[..WholeLength(s).value]
  {
    var sign := if s[0] == '-' then 1 else 0;
    assert forall i | sign <= i < WholeLength(s).value :: s[i] == s[sign..][i - sign];
  }

  lemma JoinHasNoLineEnd(s: string, a: nat, b: nat, c: nat)
    requires a + b + c <= |s|
    requires '\n' !in s[..a] && '\n' !in s[a..][..b] && '\n' !in s[a + b..][..c]
    ensures '\n' !in s[..a + b + c]
  {
    assert s[..a + b + c] == s[..a] + s[a..][..b] + s[a + b..][..c];
  }

  lemma NumberHasNoLineEnd(s: string)
    requires NumberLength(s).Some?
    ensures '\n' !in s[..NumberLength(s).value]
  {
    var whole := WholeLength(s).value;
    var fraction := FractionLength(s[whole..]).value;
    var exponent := ExponentLength(s[whole + fraction..]).value;
    WholeHasNoLineEnd(s);
    FractionHasNoLineEnd(s[whole..]);
    ExponentHasNoLineEnd(s[whole + fraction..]);
    JoinHasNoLineEnd(s, whole, fraction, exponent);
  }

  lemma FractionHasNoLineEnd(s: string)
    requires FractionLength(s).Some?
    ensures '\n' !in s[..FractionLength(s).value]
  {
    if s != [] && s[0] == '.' {
      assert forall i | 1 <= i < FractionLength(s).value :: s[i] == s[1..][i - 1];
    }
  }

  lemma ExponentHasNoLineEnd(s: string)
    requires ExponentLength(s).Some?
    ensures '\n' !in s[..ExponentLength(s).value]
  {
    if s != [] && (s[0] == 'e' || s[0] == 'E') {
      var sign := if |s| > 1 && (s[1] == '+' || s[1] == '-') then 1 else 0;
      assert forall i | 1 + sign <= i < ExponentLength(s).value :: s[i] == s[1 + sign..][i - 1 - sign];
    }
  }

  lemma NoNumberAtDashes(s: string)
    requires |s| >= 2 && s[0] == '-' && s[1] == '-'
    ensures NumberLength(s) == None
  {
    assert s[1..][0] == '-';
  }

  lemma BeforeLineEnd(s: string, m: nat, j: nat)
    requires m <= |s| && j < |s| && s[j] == '\n' && '\n' !in s[..m]
    ensures m <= j
  {
    var prefix := s[..m];
    assert forall i | 0 <= i < m :: s[i] == prefix[i] && prefix[i] in prefix;
  }

  lemma NumberStops(s: string, n: nat)
    requires Walled(s, n) && NumberLength(s).Some?
    ensures Ahead(s[NumberLength(s).value..], n)
  {
    if Reached(s, n) { NoNumberAtDashes(s); }
    NumberHasNoLineEnd(s);
    BeforeLineEnd(s, NumberLength(s).value, |s| - n);
    AheadOfTail(s, n, NumberLength(s).value);
  }

  lemma {:induction false} ValueStops(s: string, n: nat)
    requires Walled(s, n) && ParseValue(s).Some?
    ensures Walled(ParseValue(s).value.1, n)
    decreases |s|, 0
  {
    if s[0] == '"' {
      AheadOfTail(s, n, 1);
      StringStops(s[1..], n);
    } else if "true" <= s || "null" <= s {
      assert s[0] != '\n' && s[1] != '\n' && s[2] != '\n' && s[3] != '\n';
      AheadOfTail(s, n, 4);
    } else if "false" <= s {
      assert s[0] != '\n' && s[1] != '\n' && s[2] != '\n' && s[3] != '\n' && s[4] != '\n';
      AheadOfTail(s, n, 5);
    } else if s[0] == '[' {
      AheadOfTail(s, n, 1);
      SkipSpaceStops(s[1..], n);
      var inside := SkipSpace(s[1..]);
      if inside != [] && inside[0] == ']' {
        AheadOfTail(inside, n, 1);
      } else {
        ItemsStop(inside, n);
      }
    } else {
      NumberStops(s, n);
    }
  }

  lemma {:induction false} ItemsStop(s: string, n: nat)
    requires Walled(s, n) && ParseItems(s).Some?
    ensures Walled(ParseItems(s).value.1, n)
    decreases |s|, 1
  {
    ValueStops(s, n);
    var rest := ParseValue(s).value.1;
    SkipSpaceStops(rest, n);
    var next := SkipSpace(rest);
    AheadOfTail(next, n, 1);
    if next[0] == ',' {
      SkipSpaceStops(next[1..], n);
      ItemsStop(SkipSpace(next[1..]), n);
    }
  }

  lemma EntryStops(s: string, n: nat)
    requires Walled(s, n) && ParseEntry(s).Some?
    ensures Walled(ParseEntry(s).value.1, n)
  {
    AheadOfTail(s, n, 1);
    StringStops(s[1..], n);
    var rest := ParseString(s[1..]).value.1;
    SkipSpaceStops(rest, n);
    var colon := SkipSpace(rest);
    AheadOfTail(colon, n, 1);
    SkipSpaceStops(colon[1..], n);
    ValueStops(SkipSpace(colon[1..]), n);
  }

  lemma {:induction false} EntriesStop(s: string, n: nat)
    requires Walled(s, n) && ParseEntries(s).Some?
    ensures Walled(ParseEntries(s).value.1, n)
    decreases |s|
  {
    EntryStops(s, n);
    var rest := ParseEntry(s).value.1;
    SkipSpaceStops(rest, n);
    var next := SkipSpace(rest);
    AheadOfTail(next, n, 1);
    if next[0] == ',' {
      SkipSpaceStops(next[1..], n);
      EntriesStop(SkipSpace(next[1..]), n);
    }
  }

  /** A text with such a line inside is no object, whatever stands before and after it. */
  lemma NoObjectAcross(s: string, n: nat)
    requires Ahead(s, n) && s[0] == '{'
    ensures ParseObject(s) == None
  {
    AheadOfTail(s, n, 1);
    SkipSpaceStops(s[1..], n);
    var inside := SkipSpace(s[1..]);
    if inside[0] == '}' {
      AheadOfTail(inside, n, 1);
      SkipSpaceStops(inside[1..], n);
    } else if ParseEntries(inside).Some? {
      EntriesStop(inside, n);
      SkipSpaceStops(ParseEntries(inside).value.1, n);
    }
  }
}
