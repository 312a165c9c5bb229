/**
 The JSON text of an object without nested objects: the printer of JSON.stringify for string and
 boolean members, and the parser of JSON.parse for every such text.
 */
module FlatJson {
  import opened Wrappers

  datatype Value = VNull | VBool(b: bool) | VNumber(text: string) | VString(s: string) | VArray(items: seq<Value>)

  datatype Entry = Entry(key: string, value: Value)

  // ---- The printer ----

  const HEX := "0123456789abcdef"

  function EscapeChar(c: char): string {
    if c == '"' then "\\\""
    else if c == '\\' then "\\\\"
    else if c == '\U{0008}' then "\\b"
    else if c == '\U{000C}' then "\\f"
    else if c == '\n' then "\\n"
    else if c == '\r' then "\\r"
    else if c == '\t' then "\\t"
    else if c < ' ' then "\\u00" + [HEX[c as int / 16], HEX[c as int % 16]]
    else [c]
  }

  function Escape(s: string): string {
    if s == [] then [] else EscapeChar(s[0]) + Escape(s[1..])
  }

  function Quote(s: string): string { "\"" + Escape(s) + "\"" }

  predicate Printable(v: Value) { v.VString? || v.VBool? }

  function PrintValue(v: Value): string
    requires Printable(v)
  {
    match v
    case VString(s) => Quote(s)
    case VBool(b) => if b then "true" else "false"
  }

  predicate AllPrintable(entries: seq<Entry>) { forall i | 0 <= i < |entries| :: Printable(entries[i].value) }

  function PrintEntry(e: Entry): string
    requires Printable(e.value)
  {
    Quote(e.key) + ":" + PrintValue(e.value)
  }

  /** The members and the closing brace, in front of `rest`. */
  function PrintEntries(entries: seq<Entry>, rest: string): string
    requires entries != [] && AllPrintable(entries)
  {
    PrintEntry(entries[0]) + if |entries| == 1 then "}" + rest else "," + PrintEntries(entries[1..], rest)
  }

  /** JSON.stringify of an object. */
  function Stringify(entries: seq<Entry>): string
    requires entries != [] && AllPrintable(entries)
  {
    "{" + PrintEntries(entries, [])
  }

  // ---- The parser ----

  type Parsed<T> = Option<(T, string)>

  predicate IsJsonSpace(c: char) { c == ' ' || c == '\t' || c == '\n' || c == '\r' }

  function SkipSpace(s: string): (r: string)
    ensures |r| <= |s|
    ensures s != [] && !IsJsonSpace(s[0]) ==> r == s
  {
    if s != [] && IsJsonSpace(s[0]) then SkipSpace(s[1..]) else s
  }

  function HexDigit(c: char): Option<int> {
    if '0' <= c <= '9' then Some(c as int - '0' as int)
    else if 'a' <= c <= 'f' then Some(c as int - 'a' as int + 10)
    else if 'A' <= c <= 'F' then Some(c as int - 'A' as int + 10)
    else None
  }

  /** Four hexadecimal digits naming a character; the halves of a surrogate pair are not characters here. */
  function ParseHex4(s: string): (r: Parsed<char>)
    ensures r.Some? ==> |r.value.1| < |s|
  {
    if |s| < 4 then None
    else match (HexDigit(s[0]), HexDigit(s[1]), HexDigit(s[2]), HexDigit(s[3]))
         case (Some(a), Some(b), Some(c), Some(d)) =>
           var code := ((a * 16 + b) * 16 + c) * 16 + d;
           if 0 <= code < 0xD800 || 0xE000 <= code < 0x10000 then Some((code as char, s[4..])) else None
         case _ => None
  }

  /** The character after a backslash. */
  function ParseEscape(s: string): (r: Parsed<char>)
    ensures r.Some? ==> |r.value.1| < |s|
  {
    if s == [] then None
    else match s[0]
         case '"' => Some(('"', s[1..]))
         case '\\' => Some(('\\', s[1..]))
         case '/' => Some(('/', s[1..]))
         case 'b' => Some(('\U{0008}', s[1..]))
         case 'f' => Some(('\U{000C}', s[1..]))
         case 'n' => Some(('\n', s[1..]))
         case 'r' => Some(('\r', s[1..]))
         case 't' => Some(('\t', s[1..]))
         case 'u' => ParseHex4(s[1..])
         case _ => None
  }

  /** One character of a string, raw or escaped; None at the closing quote, the end, or a raw control character. */
  function ParseChar(s: string): (r: Parsed<char>)
    ensures r.Some? ==> |r.value.1| < |s|
  {
    if s == [] || s[0] == '"' || s[0] < ' ' then None
    else if s[0] == '\\' then ParseEscape(s[1..])
    else Some((s[0], s[1..]))
  }

  /** The rest of a string, after its opening quote. */
  function ParseString(s: string): (r: Parsed<string>)
    ensures r.Some? ==> |r.value.1| < |s|
    decreases |s|
  {
    if s != [] && s[0] == '"' then Some(([], s[1..]))
    else match ParseChar(s)
         case None => None
         case Some((c, rest)) =>
           (match ParseString(rest)
            case None => None
            case Some((text, rest')) => Some(([c] + text, rest')))
  }

  function DigitCount(s: string): (n: nat)
    ensures n <= |s|
    ensures forall i | 0 <= i < n :: '0' <= s[i] <= '9'
  {
    if s != [] && '0' <= s[0] <= '9' then 1 + DigitCount(s[1..]) else 0
  }

  /** The length of the number at the start of `s`, if there is one. */
  function NumberLength(s: string): (r: Option<nat>)
    ensures r.Some? ==> 0 < r.value <= |s|
  {
    match WholeLength(s)
    case None => None
    case Some(whole) =>
      match FractionLength(s[whole..])
      case None => None
      case Some(fraction) =>
        match ExponentLength(s[whole + fraction..])
        case None => None
        case Some(exponent) => Some(whole + fraction + exponent)
  }

  /** An optional minus sign, then a zero or digits that do not start with one. */
  function WholeLength(s: string): (r: Option<nat>)
    ensures r.Some? ==> 0 < r.value <= |s|
  {
    var sign := if s != [] && s[0] == '-' then 1 else 0;
    var digits := DigitCount(s[sign..]);
    if digits == 0 then None else Some(sign + if s[sign] == '0' then 1 else digits)
  }

  function FractionLength(s: string): (r: Option<nat>)
    ensures r.Some? ==> r.value <= |s|
  {
    if s == [] || s[0] != '.' then Some(0)
    else
      var digits := DigitCount(s[1..]);
      if digits == 0 then None else Some(1 + digits)
  }

  function ExponentLength(s: string): (r: Option<nat>)
    ensures r.Some? ==> r.value <= |s|
  {
    if s == [] || (s[0] != 'e' && s[0] != 'E') then Some(0)
    else
      var sign := if |s| > 1 && (s[1] == '+' || s[1] == '-') then 1 else 0;
      var digits := DigitCount(s[1 + sign..]);
      if digits == 0 then None else Some(1 + sign + digits)
  }

  function ParseValue(s: string): (r: Parsed<Value>)
    ensures r.Some? ==> |r.value.1| < |s|
    decreases |s|, 0
  {
    if s == [] then None
    else if s[0] == '"' then
      match ParseString(s[1..])
      case None => None
      case Some((text, rest)) => Some((VString(text), rest))
    else if "true" <= s then Some((VBool(true), s[4..]))
    else if "false" <= s then Some((VBool(false), s[5..]))
    else if "null" <= s then Some((VNull, s[4..]))
    else if s[0] == '[' then
      var inside := SkipSpace(s[1..]);
      if inside != [] && inside[0] == ']' then Some((VArray([]), inside[1..]))
      else
        match ParseItems(inside)
        case None => None
        case Some((items, rest)) => Some((VArray(items), rest))
    else
      match NumberLength(s)
      case None => None
      case Some(n) => Some((VNumber(s[..n]), s[n..]))
  }

  /** Array items up to and including the closing bracket. */
  function ParseItems(s: string): (r: Parsed<seq<Value>>)
    ensures r.Some? ==> |r.value.1| < |s|
    decreases |s|, 1
  {
    match ParseValue(s)
    case None => None
    case Some((item, rest)) =>
      var next := SkipSpace(rest);
      if next != [] && next[0] == ']' then Some(([item], next[1..]))
      else if next != [] && next[0] == ',' then
        match ParseItems(SkipSpace(next[1..]))
        case None => None
        case Some((items, rest')) => Some(([item] + items, rest'))
      else None
  }

  /** One member, from its key's opening quote. */
  function ParseEntry(s: string): (r: Parsed<Entry>)
    ensures r.Some? ==> |r.value.1| < |s|
  {
    if s == [] || s[0] != '"' then None
    else
      match ParseString(s[1..])
      case None => None
      case Some((key, rest)) =>
        var colon := SkipSpace(rest);
        if colon == [] || colon[0] != ':' then None
        else
          match ParseValue(SkipSpace(colon[1..]))
          case None => None
          case Some((value, rest')) => Some((Entry(key, value), rest'))
  }

  /** Members up to and including the closing brace. */
  function ParseEntries(s: string): (r: Parsed<seq<Entry>>)
    ensures r.Some? ==> |r.value.1| < |s|
    decreases |s|
  {
    match ParseEntry(s)
    case None => None
    case Some((entry, rest)) =>
      var next := SkipSpace(rest);
      if next != [] && next[0] == '}' then Some(([entry], next[1..]))
      else if next != [] && next[0] == ',' then
        match ParseEntries(SkipSpace(next[1..]))
        case None => None
        case Some((entries, rest')) => Some(([entry] + entries, rest'))
      else None
  }

  /** JSON.parse on a text that starts with an opening brace. */
  function ParseObject(s: string): Option<seq<Entry>>
  {
    if s == [] || s[0] != '{' then None
    else
      var inside := SkipSpace(s[1..]);
      if inside != [] && inside[0] == '}' then if SkipSpace(inside[1..]) == [] then Some([]) else None
      else
        match ParseEntries(inside)
        case None => None
        case Some((entries, rest)) => if SkipSpace(rest) == [] then Some(entries) else None
  }

  // ---- The parser inverts the printer ----

  lemma Associates(a: string, b: string, c: string)
    ensures a + b + c == a + (b + c)
  {
  }

  lemma AfterFirst(c: char, s: string)
    ensures ([c] + s)[0] == c && ([c] + s)[1..] == s
  {
  }

  lemma QuoteFollowed(x: string, rest: string)
    ensures Quote(x) + rest == "\"" + (Escape(x) + "\"" + rest)
  {
  }

  lemma EscapedCharParses(c: char, rest: string)
    ensures ParseChar(EscapeChar(c) + rest) == Some((c, rest))
    ensures EscapeChar(c)[0] != '"'
  {
    var s := EscapeChar(c) + rest;
    if c == '"' || c == '\\' || c == '\U{0008}' || c == '\U{000C}' || c == '\n' || c == '\r' || c == '\t' {
      assert s[0] == '\\' && s[1..][1..] == rest;
    } else if c < ' ' {
      var high, low := c as int / 16, c as int % 16;
      assert s[1..][0] == 'u' && s[1..][1] == '0' && s[1..][2] == '0';
      assert s[1..][1..][2] == HEX[high] && s[1..][1..][3] == HEX[low] && s[1..][1..][4..] == rest;
      assert HexDigit(HEX[high]) == Some(high) && HexDigit(HEX[low]) == Some(low);
    } else {
      assert s[1..] == rest;
    }
  }

  function Prefixed(c: char, r: Parsed<string>): Parsed<string> {
    match r case None => None case Some((text, rest)) => Some(([c] + text, rest))
  }

  /** `full` is what reading `last` gives, with `x` in front. */
  predicate Fronted(full: Parsed<string>, x: string, last: Parsed<string>) {
    match last case None => full.None? case Some((text, rest)) => full == Some((x + text, rest))
  }

  lemma PrefixedFronted(c: char, x: string, full: Parsed<string>, tail: Parsed<string>, last: Parsed<string>)
    requires full == Prefixed(c, tail) && Fronted(tail, x, last)
    ensures Fronted(full, [c] + x, last)
  {
    if last.Some? {
      assert [c] + (x + last.value.0) == [c] + x + last.value.0;
    }
  }

  lemma EscapedStep(x: string, rest: string)
    requires x != []
    ensures ParseString(Escape(x) + rest) == Prefixed(x[0], ParseString(Escape(x[1..]) + rest))
  {
    var tail := Escape(x[1..]) + rest;
    EscapedCharParses(x[0], tail);
    EscapeSplits(x, rest);
  }

  /** Reading a printed string gives it back, up to wherever the printed part ends. */
  lemma {:induction false} EscapedParses(x: string, rest: string)
    ensures Fronted(ParseString(Escape(x) + rest), x, ParseString(rest))
  {
    if x == [] {
      assert Escape(x) + rest == rest;
      match ParseString(rest) case None => case Some((text, _)) => assert [] + text == text;
    } else {
      EscapedParses(x[1..], rest);
      EscapedStep(x, rest);
      PrefixedFronted(x[0], x[1..], ParseString(Escape(x) + rest), ParseString(Escape(x[1..]) + rest),
        ParseString(rest));
      assert [x[0]] + x[1..] == x;
    }
  }

  lemma EscapeSplits(x: string, rest: string)
    requires x != []
    ensures Escape(x) + rest == EscapeChar(x[0]) + (Escape(x[1..]) + rest)
  {
    Associates(EscapeChar(x[0]), Escape(x[1..]), rest);
  }

  lemma QuotedParses(x: string, rest: string)
    ensures ParseString(Escape(x) + "\"" + rest) == Some((x, rest))
  {
    var closing := "\"" + rest;
    EscapedParses(x, closing);
    assert closing[1..] == rest;
    assert Escape(x) + "\"" + rest == Escape(x) + closing;
    assert x + [] == x;
  }

  /** A string whose closing quote is missing is no string. */
  lemma UnclosedFails(x: string)
    ensures ParseString(Escape(x)) == None
  {
    EscapedParses(x, []);
    assert Escape(x) + [] == Escape(x);
  }

  lemma LiteralParses(b: bool, rest: string)
    ensures ParseValue(PrintValue(VBool(b)) + rest) == Some((VBool(b), rest))
  {
    var s := PrintValue(VBool(b)) + rest;
    if b {
      assert s[..4] == "true" && s[4..] == rest;
    } else {
      assert s[0] == 'f' && s[..5] == "false" && s[5..] == rest;
    }
  }

  lemma StringValueParses(x: string, rest: string)
    ensures ParseValue(Quote(x) + rest) == Some((VString(x), rest))
  {
    QuotedParses(x, rest);
    QuoteFollowed(x, rest);
  }

  lemma ValueParses(v: Value, rest: string)
    requires Printable(v)
    ensures ParseValue(PrintValue(v) + rest) == Some((v, rest))
    ensures PrintValue(v) != [] && !IsJsonSpace(PrintValue(v)[0])
  {
    match v {
      case VString(x) => StringValueParses(x, rest);
      case VBool(b) => LiteralParses(b, rest);
    }
  }

  lemma QuoteOpensKey(tail: string, key: string, colon: string, after: string)
    requires ParseString(tail) == Some((key, colon)) && colon == ":" + after && after != [] && !IsJsonSpace(after[0])
    ensures ParseEntry("\"" + tail) ==
            match ParseValue(after) case None => None case Some((v, rest)) => Some((Entry(key, v), rest))
  {
    AfterFirst('"', tail);
    AfterFirst(':', after);
  }

  /** What is left of a member's text after its key and colon is read as its value. */
  lemma KeyParses(key: string, after: string)
    requires after != [] && !IsJsonSpace(after[0])
    ensures ParseEntry(Quote(key) + ":" + after) ==
            match ParseValue(after) case None => None case Some((v, rest)) => Some((Entry(key, v), rest))
  {
    var colon := ":" + after;
    QuotedParses(key, colon);
    QuoteFollowed(key, colon);
    Associates(Quote(key), ":", after);
    QuoteOpensKey(Escape(key) + "\"" + colon, key, colon, after);
  }

  lemma EntryParses(e: Entry, rest: string)
    requires Printable(e.value)
    ensures ParseEntry(PrintEntry(e) + rest) == Some((e, rest))
  {
    ValueParses(e.value, rest);
    KeyParses(e.key, PrintValue(e.value) + rest);
    Associates(Quote(e.key) + ":", PrintValue(e.value), rest);
  }

  lemma EntryStep(s: string, e: Entry, tail: string)
    requires ParseEntry(s) == Some((e, "," + tail)) && tail != [] && tail[0] == '"'
    ensures ParseEntries(s) ==
            match ParseEntries(tail) case None => None case Some((entries, rest)) => Some(([e] + entries, rest))
  {
    assert ("," + tail)[1..] == tail;
  }

  lemma EntriesStart(entries: seq<Entry>, rest: string)
    requires entries != [] && AllPrintable(entries)
    ensures PrintEntries(entries, rest)[0] == '"'
  {
    var first := PrintEntry(entries[0]);
    assert first[0] == '"';
  }

  lemma EntryInFront(e: Entry, tail: string, entries: seq<Entry>, rest: string)
    requires Printable(e.value) && tail != [] && tail[0] == '"' && ParseEntries(tail) == Some((entries, rest))
    ensures ParseEntries(PrintEntry(e) + ("," + tail)) == Some(([e] + entries, rest))
  {
    EntryParses(e, "," + tail);
    EntryStep(PrintEntry(e) + ("," + tail), e, tail);
  }

  lemma LastInFront(e: Entry, rest: string)
    requires Printable(e.value)
    ensures ParseEntries(PrintEntry(e) + ("}" + rest)) == Some(([e], rest))
  {
    EntryParses(e, "}" + rest);
  }

  lemma HeadAndTail(entries: seq<Entry>)
    requires entries != []
    ensures entries == [entries[0]] + entries[1..]
    ensures |entries| == 1 ==> entries == [entries[0]]
  {
  }

  lemma {:induction false} EntriesParse(entries: seq<Entry>, rest: string)
    requires entries != [] && AllPrintable(entries)
    ensures ParseEntries(PrintEntries(entries, rest)) == Some((entries, rest))
  {
    HeadAndTail(entries);
    if |entries| == 1 {
      LastInFront(entries[0], rest);
    } else {
      EntriesParse(entries[1..], rest);
      EntriesStart(entries[1..], rest);
      EntryInFront(entries[0], PrintEntries(entries[1..], rest), entries[1..], rest);
    }
  }

  /** JSON.parse(JSON.stringify(o)) is o, for every object of string and boolean members. */
  lemma ObjectParses(entries: seq<Entry>)
    requires entries != [] && AllPrintable(entries)
    ensures ParseObject(Stringify(entries)) == Some(entries)
  {
    EntriesParse(entries, []);
    EntriesStart(entries, []);
    assert Stringify(entries)[1..] == PrintEntries(entries, []);
  }

  /** The text of a member cut inside its string. */
  function PrintCut(key: string, x: string): string { Quote(key) + ":" + ("\"" + Escape(x)) }

  /** The members in front of the one that is cut, and its text. */
  function PrintUntilCut(before: seq<Entry>, key: string, x: string): string
    requires AllPrintable(before)
  {
    if before == [] then PrintCut(key, x) else PrintEntry(before[0]) + ("," + PrintUntilCut(before[1..], key, x))
  }

  lemma CutEntryFails(key: string, x: string)
    ensures ParseEntry(PrintCut(key, x)) == None
  {
    UnclosedFails(x);
    assert ("\"" + Escape(x))[1..] == Escape(x);
    KeyParses(key, "\"" + Escape(x));
  }

  lemma CutStart(before: seq<Entry>, key: string, x: string)
    requires AllPrintable(before)
    ensures PrintUntilCut(before, key, x)[0] == '"'
  {
    if before != [] {
      var first := PrintEntry(before[0]);
      assert first[0] == '"';
    }
  }

  lemma {:induction false} CutEntriesFail(before: seq<Entry>, key: string, x: string)
    requires AllPrintable(before)
    ensures ParseEntries(PrintUntilCut(before, key, x)) == None
  {
    if before == [] {
      CutEntryFails(key, x);
    } else {
      var tail := PrintUntilCut(before[1..], key, x);
      EntryParses(before[0], "," + tail);
      CutEntriesFail(before[1..], key, x);
      CutStart(before[1..], key, x);
      EntryStep(PrintUntilCut(before, key, x), before[0], tail);
    }
  }

  /** An object cut inside its last string is not an object. */
  lemma CutObjectFails(before: seq<Entry>, key: string, x: string)
    requires AllPrintable(before)
    ensures ParseObject("{" + PrintUntilCut(before, key, x)) == None
  {
    var text := PrintUntilCut(before, key, x);
    CutEntriesFail(before, key, x);
    CutStart(before, key, x);
    assert ("{" + text)[1..] == text;
  }

  // ---- The text around the last string ----

  /** The text of an object up to the opening quote of its last member's string, without the brace in front. */
  function Opening(before: seq<Entry>, key: string): string
    requires AllPrintable(before)
  {
    if before == [] then Quote(key) + ":\"" else PrintEntry(before[0]) + ("," + Opening(before[1..], key))
  }

  function WithLast(before: seq<Entry>, key: string, x: string): (r: seq<Entry>)
    requires AllPrintable(before)
    ensures r != [] && AllPrintable(r)
  {
    before + [Entry(key, VString(x))]
  }

  lemma {:induction false} PrintsOpening(before: seq<Entry>, key: string, x: string)
    requires AllPrintable(before)
    ensures PrintEntries(WithLast(before, key, x), []) == Opening(before, key) + (Escape(x) + "\"}")
  {
    var all := WithLast(before, key, x);
    if before == [] {
      assert "}" + [] == "}";
    } else {
      var tail := Escape(x) + "\"}";
      PrintsOpening(before[1..], key, x);
      assert all[1..] == WithLast(before[1..], key, x);
      Associates(PrintEntry(before[0]), "," + Opening(before[1..], key), tail);
      Associates(",", Opening(before[1..], key), tail);
    }
  }

  lemma CutTextRegroups(key: string, text: string)
    ensures key + ":" + ("\"" + text) == key + ":\"" + text
  {
  }

  lemma {:induction false} CutIsOpening(before: seq<Entry>, key: string, x: string)
    requires AllPrintable(before)
    ensures PrintUntilCut(before, key, x) == Opening(before, key) + Escape(x)
  {
    if before == [] {
      CutTextRegroups(Quote(key), Escape(x));
    } else {
      CutIsOpening(before[1..], key, x);
      Associates(PrintEntry(before[0]), "," + Opening(before[1..], key), Escape(x));
      Associates(",", Opening(before[1..], key), Escape(x));
    }
  }

  lemma {:induction false} EscapeAppends(x: string, y: string)
    ensures Escape(x + y) == Escape(x) + Escape(y)
  {
    if x == [] {
      assert x + y == y;
    } else {
      assert (x + y)[1..] == x[1..] + y;
      EscapeAppends(x[1..], y);
      Associates(EscapeChar(x[0]), Escape(x[1..]), Escape(y));
    }
  }

  lemma EscapedCharHasBrace(c: char)
    ensures '}' in EscapeChar(c) <==> c == '}'
  {
  }

  /** Escaping neither adds nor removes a closing brace. */
  lemma {:induction false} EscapeKeepsBraces(x: string)
    ensures '}' in Escape(x) <==> '}' in x
  {
    if x != [] {
      EscapeKeepsBraces(x[1..]);
      EscapedCharHasBrace(x[0]);
    }
  }

  predicate BraceFree(e: Entry) { '}' !in e.key && (e.value.VString? ==> '}' !in e.value.s) }

  lemma EntryHasNoBrace(e: Entry)
    requires Printable(e.value) && BraceFree(e)
    ensures '}' !in PrintEntry(e)
  {
    EscapeKeepsBraces(e.key);
    if e.value.VString? { EscapeKeepsBraces(e.value.s); }
  }

  lemma {:induction false} OpeningHasNoBrace(before: seq<Entry>, key: string)
    requires AllPrintable(before) && '}' !in key && forall i | 0 <= i < |before| :: BraceFree(before[i])
    ensures '}' !in Opening(before, key)
  {
    if before == [] {
      EscapeKeepsBraces(key);
    } else {
      EntryHasNoBrace(before[0]);
      OpeningHasNoBrace(before[1..], key);
    }
  }
}
