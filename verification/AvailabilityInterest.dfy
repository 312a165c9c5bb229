/**
 A customer's interest in an offering, stored inside the free-text notes of an order: a marker,
 a space and a JSON object appended to what the customer wrote.
 */
module AvailabilityInterest {
  import opened Wrappers
  import opened Text
  import opened FlatJson

  const MARKER := "sa360.availabilityInterest.v1"
  const RULE := "\n---\n"
  const NOTES_LIMIT := 2000
  const CAMPAIGN_PREFIX := "availability_interest:"

  datatype Offering = FreshLeads | LiveTransfer

  function OfferingName(o: Offering): string {
    match o case FreshLeads => "fresh_leads" case LiveTransfer => "live_transfer"
  }

  function OfferingOf(name: string): Option<Offering> {
    if name == "fresh_leads" then Some(FreshLeads)
    else if name == "live_transfer" then Some(LiveTransfer)
    else None
  }

  datatype Interest = Interest(offering: Offering, capturedAt: string)

  // ---- The appendix ----

  /** The members in front of the time. */
  function Before(o: Offering): (r: seq<Entry>)
    ensures AllPrintable(r)
  {
    [Entry("requestedOffering", VString(OfferingName(o))), Entry("notifyWhenAvailable", VBool(true))]
  }

  function Members(i: Interest): (r: seq<Entry>)
    ensures r != [] && AllPrintable(r)
  {
    WithLast(Before(i.offering), "capturedAt", i.capturedAt)
  }

  function ObjectText(i: Interest): string { Stringify(Members(i)) }

  function WithMarker(text: string): string { MARKER + (" " + text) }

  function Appendix(i: Interest): string { WithMarker(ObjectText(i)) }

  // ---- Reading notes ----

  function IndexOf(s: string, c: char, from: nat): (r: Option<nat>)
    requires from <= |s|
    ensures r.Some? ==> from <= r.value < |s| && s[r.value] == c && forall i | from <= i < r.value :: s[i] != c
    ensures r.None? ==> forall i | from <= i < |s| :: s[i] != c
    decreases |s| - from
  {
    if from == |s| then None else if s[from] == c then Some(from) else IndexOf(s, c, from + 1)
  }

  /** /\{[\s\S]*?\}/: from the first opening brace up to the first closing brace after it. */
  function FirstObject(s: string): Option<string> {
    match IndexOf(s, '{', 0)
    case None => None
    case Some(open) =>
      match IndexOf(s, '}', open)
      case None => None
      case Some(close) => Some(s[open..close + 1])
  }

  /** The value of the last member with this key. */
  function Lookup(entries: seq<Entry>, key: string): Option<Value>
    decreases |entries|
  {
    if entries == [] then None
    else
      var last := entries[|entries| - 1];
      if last.key == key then Some(last.value) else Lookup(entries[..|entries| - 1], key)
  }

  function Normalize(entries: seq<Entry>): Option<Interest> {
    NormalizeBy(entries, "requestedOffering", "notifyWhenAvailable", "capturedAt")
  }

  function NormalizeBy(entries: seq<Entry>, offeringKey: string, notifyKey: string, atKey: string): Option<Interest> {
    if Lookup(entries, notifyKey) != Some(VBool(true)) then None
    else
      match Lookup(entries, offeringKey)
      case Some(VString(name)) =>
        (match OfferingOf(name)
         case None => None
         case Some(offering) =>
           match Lookup(entries, atKey)
           case Some(VString(at)) => Some(Interest(offering, Trim(at)))
           case _ => Some(Interest(offering, "")))
      case _ => None
  }

  function ReadObject(text: Option<string>): Option<Interest> {
    match text
    case None => None
    case Some(object_) =>
      match ParseObject(object_)
      case None => None
      case Some(entries) => Normalize(entries)
  }

  function AfterMarker(notes: string, k: nat): string
    requires k + |MARKER| <= |notes|
  {
    Trim(notes[k + |MARKER|..])
  }

  function Parse(notes: string): Option<Interest> {
    match Find(notes, MARKER, 0)
    case None => None
    case Some(k) => ReadObject(FirstObject(AfterMarker(notes, k)))
  }

  // ---- Stripping notes ----

  /** The length of MARKER\s*\{[\s\S]*?\} at the start of `s`. */
  function MarkedLength(s: string): (r: Option<nat>)
    ensures r.Some? ==> |MARKER| < r.value <= |s|
  {
    LengthBehind(s, MARKER)
  }

  function LengthBehind(s: string, marker: string): (r: Option<nat>)
    ensures r.Some? ==> |marker| < r.value <= |s|
  {
    if !At(s, marker, 0) then None
    else
      var after := TrimStart(s[|marker|..]);
      if after == [] || after[0] != '{' then None
      else
        match IndexOf(after, '}', 0)
        case None => None
        case Some(close) => Some(|s| - |after| + close + 1)
  }

  /** The same with an optional rule in front, which is taken when it can be. */
  function MatchLength(s: string): (r: Option<nat>)
    ensures r.Some? ==> 0 < r.value <= |s|
  {
    if At(s, RULE, 0) && MarkedLength(s[|RULE|..]).Some? then Some(|RULE| + MarkedLength(s[|RULE|..]).value)
    else MarkedLength(s)
  }

  /** Every match is removed, left to right. */
  function RemoveMarked(s: string): string
    decreases |s|
  {
    if s == [] then []
    else match MatchLength(s)
         case Some(n) => RemoveMarked(s[n..])
         case None => [s[0]] + RemoveMarked(s[1..])
  }

  /** The index of the last line end in the white space at the start of `s`. */
  function LastLineEnd(s: string): (r: Option<nat>)
    ensures r.Some? ==> r.value < |s| && IsLineEnd(s[r.value])
  {
    if s == [] || !IsSpace(s[0]) then None
    else
      match LastLineEnd(s[1..])
      case Some(i) => Some(i + 1)
      case None => if IsLineEnd(s[0]) then Some(0) else None
  }

  /** The length of ---\s*$ at the start of a line: white space is taken as far as a line can still end there. */
  function RuleLength(s: string): (r: Option<nat>)
    ensures r.Some? ==> 3 <= r.value <= |s| && (r.value < |s| ==> IsLineEnd(s[r.value]))
  {
    if !At(s, "---", 0) then None
    else if TrimStart(s[3..]) == [] then Some(|s|)
    else
      match LastLineEnd(s[3..])
      case Some(i) => Some(3 + i)
      case None => None
  }

  function RemoveRules(s: string, lineStart: bool): string
    decreases |s|
  {
    if s == [] then []
    else if lineStart && RuleLength(s).Some? then
      var n := RuleLength(s).value;
      RemoveRules(s[n..], IsLineEnd(s[n - 1]))
    else [s[0]] + RemoveRules(s[1..], IsLineEnd(s[0]))
  }

  function Strip(notes: string): string {
    if !Occurs(MARKER, notes) then Trim(notes) else Trim(RemoveRules(RemoveMarked(notes), true))
  }

  // ---- Merging ----

  function Truncate(s: string, n: nat): string { if |s| <= n then s else s[..n] }

  /** What is kept of the customer's own text beside an appendix of this length. */
  function KeptBeside(notes: string, length: nat): string { CutBeside(Trim(Strip(notes)), length) }

  function CutBeside(cleaned: string, length: nat): string {
    var room := NOTES_LIMIT - length - |RULE|;
    if room > 0 then TrimEnd(Truncate(cleaned, room)) else ""
  }

  function Kept(notes: string, i: Interest): string { KeptBeside(notes, |Appendix(i)|) }

  function Joined(customer: string, appendix: string): string {
    if customer == "" then Truncate(appendix, NOTES_LIMIT) else customer + RULE + appendix
  }

  function Merge(notes: string, i: Interest): string { Joined(Kept(notes, i), Appendix(i)) }

  // ---- The fulfillment blocker ----

  function OfferingOfCampaign(campaign: Option<string>): Option<Offering> {
    var trimmed := Trim(if campaign.Some? then campaign.value else "");
    if CAMPAIGN_PREFIX <= trimmed then OfferingOf(trimmed[|CAMPAIGN_PREFIX|..]) else None
  }

  predicate Blocked(campaign: Option<string>, notes: Option<string>) {
    OfferingOfCampaign(campaign).Some? || (notes.Some? && Parse(notes.value).Some?)
  }
}
