/**
 What can be read along a path of a tree: what the validator reports, what the presenter shows and what the
 webhook redaction leaves, each value by its place in the original tree.
 */
module RedactionPaths {
  import opened Wrappers
  import opened Json
  import opened Text
  import Metadata = DeliveryTargetMetadata
  import Webhook = CustomWebhookSecret

  datatype Step = Under(key: string) | Nth(index: nat)

  function Lookup(members: seq<Member>, key: string): Option<Json> {
    if members == [] then None
    else if members[0].key == key then Some(members[0].value)
    else Lookup(members[1..], key)
  }

  /** The value at the end of a path, if the tree has the path. */
  function Follow(v: Json, path: seq<Step>): Option<Json>
    decreases |path|
  {
    if path == [] then Some(v)
    else
      var next := Child(v, path[0]);
      if next.None? then None else Follow(next.value, path[1..])
  }

  function Child(v: Json, step: Step): Option<Json> {
    match step
    case Under(key) => if v.Obj? then Lookup(v.members, key) else None
    case Nth(i) => if v.Arr? && i < |v.items| then Some(v.items[i]) else None
  }

  /** A place is an item of an array if the last step to it is; `start` says it of the place the path starts at. */
  predicate EndsInItem(path: seq<Step>, start: bool) {
    if path == [] then start else path[|path| - 1].Nth?
  }

  // ---- The presenter ----

  /** No step through a secret key, and none into an array that is itself an item of an array. */
  predicate Open(path: seq<Step>, inArray: bool) {
    path == []
    || match path[0]
       case Under(key) => !Metadata.IsSecretKey(key) && Open(path[1..], false)
       case Nth(_) => !inArray && Open(path[1..], true)
  }

  /** How the value `x` is shown: a long string is cut unless it is an item, an array that is an item is emptied. */
  predicate ShownAs(x: Json, y: Json, item: bool) {
    match x
    case Obj(_) => y.Obj?
    case Arr(items) => if item then y == Obj([]) else y.Arr? && |y.items| == |items|
    case Str(s) => y == if |s| > 500 && !item then Str(s[..120] + "\U{2026}") else x
    case _ => y == x
  }

  predicate ShownAlong(v: Json, shown: Json, path: seq<Step>, item: bool) {
    var x, y := Follow(v, path), Follow(shown, path);
    if x.None? || !Open(path, item) then y.None? else y.Some? && ShownAs(x.value, y.value, EndsInItem(path, item))
  }

  lemma {:induction false} LookupShown(members: seq<Member>, key: string)
    ensures var x := Lookup(members, key);
      Lookup(Metadata.RedactMembers(members), key)
        == if Metadata.IsSecretKey(key) || x.None? then None else Some(Metadata.RedactValue(x.value))
  {
    if members != [] { LookupShown(members[1..], key); }
  }

  lemma {:induction false} ItemsShown(items: seq<Json>)
    ensures |Metadata.RedactItems(items)| == |items|
    ensures forall i | 0 <= i < |items| :: Metadata.RedactItems(items)[i] == ShownItem(items[i])
  {
    if items != [] { ItemsShown(items[1..]); }
  }

  function ShownItem(v: Json): Json { if v.Arr? || v.Obj? then Metadata.Redact(v) else v }

  lemma {:induction false} ObjectShownAlong(v: Json, path: seq<Step>, item: bool)
    requires v.Obj?
    ensures ShownAlong(v, Metadata.Redact(v), path, item)
    decreases |path|, 0
  {
    if path != [] && path[0].Under? {
      LookupShown(v.members, path[0].key);
      var x := Lookup(v.members, path[0].key);
      if x.Some? { ValueShownAlong(x.value, path[1..]); }
    }
  }

  lemma {:induction false} ValueShownAlong(v: Json, path: seq<Step>)
    ensures ShownAlong(v, Metadata.RedactValue(v), path, false)
    decreases |path|, 1
  {
    if v.Obj? {
      ObjectShownAlong(v, path, false);
    } else if v.Arr? {
      ItemsShown(v.items);
      if path != [] && path[0].Nth? && path[0].index < |v.items| { ItemShownAlong(v.items[path[0].index], path[1..]); }
    }
  }

  lemma {:induction false} ItemShownAlong(v: Json, path: seq<Step>)
    ensures ShownAlong(v, ShownItem(v), path, true)
    decreases |path|, 1
  {
    if v.Obj? { ObjectShownAlong(v, path, true); }
  }

  /** Along every path, what is shown of a metadata object. */
  lemma ShownExactly(v: Json, path: seq<Step>)
    requires v.Obj?
    ensures var x, y := Follow(v, path), Follow(Metadata.Redact(v), path);
      if x.None? || !Open(path, false) then y.None? else y.Some? && ShownAs(x.value, y.value, EndsInItem(path, false))
  {
    ObjectShownAlong(v, path, false);
  }

  // ---- The webhook redaction ----

  predicate Kept(path: seq<Step>) {
    forall i | 0 <= i < |path| && path[i].Under? :: !Webhook.IsDropped(path[i].key)
  }

  predicate LeftAs(x: Json, y: Json, secrets: seq<string>) {
    match x
    case Obj(_) => y.Obj?
    case Arr(items) => y.Arr? && |y.items| == |items|
    case Str(s) => y == Str(Webhook.Scrub(s, secrets))
    case _ => y == x
  }

  lemma {:induction false} LookupLeft(members: seq<Member>, secrets: seq<string>, key: string)
    ensures var x := Lookup(members, key);
      Lookup(Webhook.WalkMembers(members, secrets), key)
        == if Webhook.IsDropped(key) || x.None? then None else Some(Webhook.Walk(x.value, secrets))
  {
    if members != [] { LookupLeft(members[1..], secrets, key); }
  }

  lemma {:induction false} ItemsLeft(items: seq<Json>, secrets: seq<string>)
    ensures |Webhook.WalkItems(items, secrets)| == |items|
    ensures forall i | 0 <= i < |items| :: Webhook.WalkItems(items, secrets)[i] == Webhook.Walk(items[i], secrets)
  {
    if items != [] { ItemsLeft(items[1..], secrets); }
  }

  /** Along every path, what is left of any value. */
  lemma {:induction false} LeftExactly(v: Json, secrets: seq<string>, path: seq<Step>)
    ensures var x, y := Follow(v, path), Follow(Webhook.Walk(v, secrets), path);
      if x.None? || !Kept(path) then y.None? else y.Some? && LeftAs(x.value, y.value, secrets)
    decreases |path|
  {
    if v.Obj? && path != [] && path[0].Under? { LookupLeft(v.members, secrets, path[0].key); }
    if v.Arr? { ItemsLeft(v.items, secrets); }
    if path != [] {
      assert Kept(path) <==> (path[0].Under? ==> !Webhook.IsDropped(path[0].key)) && Kept(path[1..]) by {
        assert path == [path[0]] + path[1..];
      }
      var next := Child(v, path[0]);
      if next.Some? { LeftExactly(next.value, secrets, path[1..]); }
    }
  }

  /** The secrets of a list are cut out in turn, */
  lemma {:induction false} ScrubInTurn(s: string, first: seq<string>, second: seq<string>)
    ensures Webhook.Scrub(s, first + second) == Webhook.Scrub(Webhook.Scrub(s, first), second)
    decreases |first|
  {
    if first == [] {
      assert first + second == second;
    } else {
      assert (first + second)[1..] == first[1..] + second;
      var next := if |first[0]| >= 4 then ReplaceAll(s, first[0], Webhook.REDACTED) else s;
      ScrubInTurn(next, first[1..], second);
    }
  }

  /** and one of them leaves the texts between its occurrences, joined by the marker. */
  lemma ScrubOneExactly(s: string, secret: string)
    ensures Webhook.Scrub(s, [secret])
         == if |secret| < 4 then s else Join(Split(s, secret), "***REDACTED***")
  {
    if |secret| >= 4 {
      Webhook.ScrubOne(s, secret);
      ReplaceIsSplitJoin(s, secret, Webhook.REDACTED);
    }
  }

  // ---- The validator ----

  /** The tree has the path; an object may give a key several times. */
  predicate Reaches(v: Json, path: seq<Step>)
    decreases |path|
  {
    path == []
    || match path[0]
       case Under(key) =>
         v.Obj? && exists i :: 0 <= i < |v.members| && v.members[i].key == key && Reaches(v.members[i].value, path[1..])
       case Nth(i) => v.Arr? && i < |v.items| && Reaches(v.items[i], path[1..])
  }

  predicate EndsInSecret(path: seq<Step>) {
    path != [] && path[|path| - 1].Under? && Metadata.IsSecretKey(path[|path| - 1].key)
  }

  /** A path as text: keys are joined by dots and indices stand in brackets. */
  function Rendered(path: seq<Step>, prefix: string): string {
    if path == [] then prefix else Rendered(path[1..], Onward(prefix, path[0]))
  }

  function Onward(prefix: string, step: Step): string {
    match step
    case Under(key) => if prefix == "" then key else prefix + "." + key
    case Nth(i) => prefix + "[" + Metadata.Digits(i) + "]"
  }

  lemma {:induction false} ItemIsSearched(items: seq<Json>, index: nat, prefix: string, i: nat, text: string)
    requires i < |items| && text in Metadata.SecretPaths(items[i], prefix + "[" + Metadata.Digits(index + i) + "]")
    ensures text in Metadata.ItemPaths(items, index, prefix)
  {
    if i > 0 { ItemIsSearched(items[1..], index + 1, prefix, i - 1, text); }
  }

  lemma {:induction false} MemberIsSearched(members: seq<Member>, prefix: string, i: nat, text: string)
    requires i < |members| && text in Metadata.PathsOfMember(members[i], prefix)
    ensures text in Metadata.MemberPaths(members, prefix)
  {
    if i > 0 { MemberIsSearched(members[1..], prefix, i - 1, text); }
  }

  lemma OneStep(step: Step, rest: seq<Step>, prefix: string)
    ensures Rendered([step] + rest, prefix) == Rendered(rest, Onward(prefix, step))
    ensures rest != [] ==> EndsInSecret([step] + rest) == EndsInSecret(rest)
  {
    assert ([step] + rest)[1..] == rest;
  }

  lemma {:induction false} SecretIsReported(v: Json, prefix: string, path: seq<Step>)
    requires EndsInSecret(path) && Reaches(v, path)
    ensures Rendered(path, prefix) in Metadata.SecretPaths(v, prefix)
    decreases |path|, 1
  {
    assert path == [path[0]] + path[1..];
    OneStep(path[0], path[1..], prefix);
    match path[0]
    case Under(key) =>
      var i :| 0 <= i < |v.members| && v.members[i].key == key && Reaches(v.members[i].value, path[1..]);
      SecretMemberIsReported(v.members[i], prefix, path[1..]);
      MemberIsSearched(v.members, prefix, i, Rendered(path, prefix));
    case Nth(i) =>
      SecretIsReported(v.items[i], Onward(prefix, path[0]), path[1..]);
      ItemIsSearched(v.items, 0, prefix, i, Rendered(path, prefix));
  }

  lemma {:induction false} SecretMemberIsReported(member: Member, prefix: string, rest: seq<Step>)
    requires EndsInSecret([Under(member.key)] + rest) && Reaches(member.value, rest)
    ensures Rendered(rest, Metadata.MemberPath(prefix, member.key)) in Metadata.PathsOfMember(member, prefix)
    decreases |rest|, 2
  {
    if rest != [] {
      OneStep(Under(member.key), rest, prefix);
      SecretIsReported(member.value, Metadata.MemberPath(prefix, member.key), rest);
    }
  }

  lemma {:induction false} SearchedItem(items: seq<Json>, index: nat, prefix: string, text: string) returns (i: nat)
    requires text in Metadata.ItemPaths(items, index, prefix)
    ensures i < |items| && text in Metadata.SecretPaths(items[i], prefix + "[" + Metadata.Digits(index + i) + "]")
  {
    if text in Metadata.SecretPaths(items[0], prefix + "[" + Metadata.Digits(index) + "]") {
      i := 0;
    } else {
      i := SearchedItem(items[1..], index + 1, prefix, text);
      i := i + 1;
    }
  }

  lemma {:induction false} SearchedMember(members: seq<Member>, prefix: string, text: string)
    requires text in Metadata.MemberPaths(members, prefix)
    ensures exists i :: 0 <= i < |members| && Reports(members[i], prefix, text)
  {
    if !Reports(members[0], prefix, text) {
      SearchedMember(members[1..], prefix, text);
      var j :| 0 <= j < |members[1..]| && Reports(members[1..][j], prefix, text);
      assert members[1..][j] == members[j + 1];
    }
  }

  predicate Reports(member: Member, prefix: string, text: string) { text in Metadata.PathsOfMember(member, prefix) }

  lemma {:induction false} ReportedIsSecret(v: Json, prefix: string, text: string) returns (path: seq<Step>)
    requires text in Metadata.SecretPaths(v, prefix)
    ensures EndsInSecret(path) && Reaches(v, path) && Rendered(path, prefix) == text
    decreases v, 0
  {
    match v
    case Arr(items) =>
      var i := SearchedItem(items, 0, prefix, text);
      var rest := ReportedIsSecret(items[i], Onward(prefix, Nth(i)), text);
      path := [Nth(i)] + rest;
      OneStep(Nth(i), rest, prefix);
    case Obj(members) =>
      SearchedMember(members, prefix, text);
      var i :| 0 <= i < |members| && Reports(members[i], prefix, text);
      var rest := ReportedInMember(members[i], prefix, text);
      path := [Under(members[i].key)] + rest;
      OneStep(Under(members[i].key), rest, prefix);
  }

  /** From a member on, `rest` leads to a secret key whose path is the given text. */
  predicate LeadsOn(member: Member, prefix: string, rest: seq<Step>, text: string) {
    && EndsInSecret([Under(member.key)] + rest) && Reaches(member.value, rest)
    && Rendered(rest, Metadata.MemberPath(prefix, member.key)) == text
  }

  lemma {:induction false} ReportedInMember(member: Member, prefix: string, text: string) returns (rest: seq<Step>)
    requires text in Metadata.PathsOfMember(member, prefix)
    ensures LeadsOn(member, prefix, rest, text)
    decreases member, 1
  {
    var here := Metadata.MemberPath(prefix, member.key);
    if text in Metadata.SecretPaths(member.value, here) {
      rest := ReportedIsSecret(member.value, here, text);
      OneStep(Under(member.key), rest, prefix);
    } else {
      rest := [];
    }
  }

  /** The validator reports exactly the paths of the tree that end in a secret key. */
  lemma ReportedExactly(v: Json, text: string)
    ensures text in Metadata.SecretPaths(v, "")
       <==> exists path :: EndsInSecret(path) && Reaches(v, path) && Rendered(path, "") == text
  {
    if text in Metadata.SecretPaths(v, "") {
      var path := ReportedIsSecret(v, "", text);
    }
    forall path | EndsInSecret(path) && Reaches(v, path) && Rendered(path, "") == text
      ensures text in Metadata.SecretPaths(v, "")
    {
      SecretIsReported(v, "", path);
    }
  }
}
