/**
 Metadata of a delivery target: the validator lists every path whose key may carry a secret, and
 the presenter drops such members. Presented metadata is exactly what both functions leave alone.
 */
module DeliveryTargetMetadata {
  import opened Json
  import opened Text

  const SECRET_WORDS := [
    "token", "secret", "password", "apikey", "api_key", "authorization", "credential",
    "privatekey", "private_key", "oauth", "bearer", "refresh"
  ]

  const LONGEST_SHOWN := 500
  const SHOWN_PREFIX := 120

  /** /(RefId|Ref|_ref)$/i */
  predicate NamesAReference(key: string) {
    var k := Lowered(key);
    || (|k| >= 5 && k[|k| - 5..] == "refid")
    || (|k| >= 3 && k[|k| - 3..] == "ref")
    || (|k| >= 4 && k[|k| - 4..] == "_ref")
  }

  predicate IsSecretKey(key: string) {
    !NamesAReference(key) && exists w | w in SECRET_WORDS :: Occurs(w, Lowered(key))
  }

  // ---- The validator ----

  function Digits(n: nat): string {
    if n < 10 then ["0123456789"[n]] else Digits(n / 10) + ["0123456789"[n % 10]]
  }

  function MemberPath(path: string, key: string): string {
    if path == "" then key else path + "." + key
  }

  function SecretPaths(v: Json, path: string): seq<string>
    decreases v, 0
  {
    match v
    case Arr(items) => ItemPaths(items, 0, path)
    case Obj(members) => MemberPaths(members, path)
    case _ => []
  }

  function ItemPaths(items: seq<Json>, index: nat, path: string): seq<string>
    decreases items, 1
  {
    if items == [] then []
    else SecretPaths(items[0], path + "[" + Digits(index) + "]") + ItemPaths(items[1..], index + 1, path)
  }

  function MemberPaths(members: seq<Member>, path: string): seq<string>
    decreases members, 1
  {
    if members == [] then [] else PathsOfMember(members[0], path) + MemberPaths(members[1..], path)
  }

  function PathsOfMember(member: Member, path: string): seq<string>
    decreases member, 1
  {
    var next := MemberPath(path, member.key);
    (if IsSecretKey(member.key) then [next] else []) + SecretPaths(member.value, next)
  }

  // ---- The presenter ----

  function Redact(v: Json): Json
    decreases v, 0
  {
    match v
    case Obj(members) => Obj(RedactMembers(members))
    case _ => Obj([])
  }

  function RedactMembers(members: seq<Member>): seq<Member>
    decreases members, 1
  {
    if members == [] then []
    else if IsSecretKey(members[0].key) then RedactMembers(members[1..])
    else [Member(members[0].key, RedactValue(members[0].value))] + RedactMembers(members[1..])
  }

  function RedactValue(v: Json): Json
    decreases v, 1
  {
    match v
    case Arr(items) => Arr(RedactItems(items))
    case Obj(_) => Redact(v)
    case Str(s) => if |s| > LONGEST_SHOWN then Str(s[..SHOWN_PREFIX] + "\U{2026}") else v
    case _ => v
  }

  function RedactItems(items: seq<Json>): seq<Json>
    decreases items, 1
  {
    if items == [] then []
    else [if items[0].Arr? || items[0].Obj? then Redact(items[0]) else items[0]] + RedactItems(items[1..])
  }

  // ---- What is presentable ----

  /** An object without secret keys at any depth, without long strings under its keys, and without arrays in arrays. */
  predicate Presentable(v: Json)
    decreases v, 0
  {
    v.Obj? && forall i | 0 <= i < |v.members| :: !IsSecretKey(v.members[i].key) && PresentableValue(v.members[i].value)
  }

  predicate PresentableValue(v: Json)
    decreases v, 1
  {
    match v
    case Arr(items) => forall i | 0 <= i < |items| :: !items[i].Arr? && (items[i].Obj? ==> Presentable(items[i]))
    case Obj(_) => Presentable(v)
    case Str(s) => |s| <= LONGEST_SHOWN
    case _ => true
  }

  lemma {:induction false} RedactIsPresentable(v: Json)
    ensures Presentable(Redact(v))
    decreases v, 0
  {
    if v.Obj? {
      RedactMembersPresentable(v.members);
    }
  }

  lemma {:induction false} RedactMembersPresentable(members: seq<Member>)
    ensures Presentable(Obj(RedactMembers(members)))
    decreases members, 1
  {
    if members != [] {
      RedactMembersPresentable(members[1..]);
      if !IsSecretKey(members[0].key) {
        RedactValuePresentable(members[0].value);
        var out := RedactMembers(members);
        assert out[1..] == RedactMembers(members[1..]);
        forall i | 0 <= i < |out| ensures !IsSecretKey(out[i].key) && PresentableValue(out[i].value) {
          if i > 0 { assert out[i] == Obj(RedactMembers(members[1..])).members[i - 1]; }
        }
      }
    }
  }

  lemma {:induction false} RedactValuePresentable(v: Json)
    ensures PresentableValue(RedactValue(v))
    decreases v, 1
  {
    match v {
      case Arr(items) => RedactItemsPresentable(items);
      case Obj(_) => RedactIsPresentable(v);
      case _ =>
    }
  }

  lemma {:induction false} RedactItemsPresentable(items: seq<Json>)
    ensures PresentableValue(Arr(RedactItems(items)))
    decreases items, 1
  {
    if items != [] {
      RedactItemsPresentable(items[1..]);
      RedactIsPresentable(items[0]);
      var out := RedactItems(items);
      forall i | 0 <= i < |out| ensures !out[i].Arr? && (out[i].Obj? ==> Presentable(out[i])) {
        if i > 0 { assert out[i] == Arr(RedactItems(items[1..])).items[i - 1]; }
      }
    }
  }

  /** Presentable metadata is left exactly as it is. */
  lemma {:induction false} PresentableIsKept(v: Json)
    requires Presentable(v)
    ensures Redact(v) == v
    decreases v, 0
  {
    PresentableMembersKept(v.members);
  }

  lemma {:induction false} PresentableMembersKept(members: seq<Member>)
    requires forall i | 0 <= i < |members| :: !IsSecretKey(members[i].key) && PresentableValue(members[i].value)
    ensures RedactMembers(members) == members
    decreases members, 1
  {
    if members != [] {
      PresentableMembersKept(members[1..]);
      PresentableValueKept(members[0].value);
    }
  }

  lemma {:induction false} PresentableValueKept(v: Json)
    requires PresentableValue(v)
    ensures RedactValue(v) == v
    decreases v, 1
  {
    match v {
      case Arr(items) => PresentableItemsKept(items);
      case Obj(_) => PresentableIsKept(v);
      case _ =>
    }
  }

  lemma {:induction false} PresentableItemsKept(items: seq<Json>)
    requires forall i | 0 <= i < |items| :: !items[i].Arr? && (items[i].Obj? ==> Presentable(items[i]))
    ensures RedactItems(items) == items
    decreases items, 1
  {
    if items != [] {
      PresentableItemsKept(items[1..]);
      if items[0].Obj? { PresentableIsKept(items[0]); }
    }
  }

  /** Presenting twice is presenting once, and the values left unchanged are exactly the presentable ones. */
  lemma RedactIsIdempotent(v: Json)
    ensures Redact(Redact(v)) == Redact(v)
    ensures Redact(v) == v <==> Presentable(v)
  {
    RedactIsPresentable(v);
    PresentableIsKept(Redact(v));
    if Presentable(v) { PresentableIsKept(v); }
  }

  // ---- What the validator accepts ----

  /** The number of secret keys at any depth, counted without paths. */
  function SecretKeys(v: Json): nat
    decreases v, 0
  {
    match v
    case Arr(items) => SecretKeysOfItems(items)
    case Obj(members) => SecretKeysOfMembers(members)
    case _ => 0
  }

  function SecretKeysOfItems(items: seq<Json>): nat
    decreases items, 1
  {
    if items == [] then 0 else SecretKeys(items[0]) + SecretKeysOfItems(items[1..])
  }

  function SecretKeysOfMembers(members: seq<Member>): nat
    decreases members, 1
  {
    if members == [] then 0
    else
      var own := if IsSecretKey(members[0].key) then 1 else 0;
      own + SecretKeys(members[0].value) + SecretKeysOfMembers(members[1..])
  }

  /** The validator reports one path for each secret key of the tree, so it accepts exactly the trees without any. */
  lemma {:induction false} OnePathPerSecretKey(v: Json, path: string)
    ensures |SecretPaths(v, path)| == SecretKeys(v)
    decreases v, 0
  {
    match v {
      case Arr(items) => ItemPathsCount(items, 0, path);
      case Obj(members) => MemberPathsCount(members, path);
      case _ =>
    }
  }

  lemma {:induction false} ItemPathsCount(items: seq<Json>, index: nat, path: string)
    ensures |ItemPaths(items, index, path)| == SecretKeysOfItems(items)
    decreases items, 1
  {
    if items != [] {
      OnePathPerSecretKey(items[0], path + "[" + Digits(index) + "]");
      ItemPathsCount(items[1..], index + 1, path);
    }
  }

  lemma {:induction false} MemberPathsCount(members: seq<Member>, path: string)
    ensures |MemberPaths(members, path)| == SecretKeysOfMembers(members)
    decreases members, 1
  {
    if members != [] {
      OnePathPerSecretKey(members[0].value, MemberPath(path, members[0].key));
      MemberPathsCount(members[1..], path);
    }
  }

  lemma {:induction false} PresentableHasNoSecretKey(v: Json)
    requires Presentable(v)
    ensures SecretKeys(v) == 0
    decreases v, 0
  {
    PresentableMembersHaveNone(v.members);
  }

  lemma {:induction false} PresentableMembersHaveNone(members: seq<Member>)
    requires forall i | 0 <= i < |members| :: !IsSecretKey(members[i].key) && PresentableValue(members[i].value)
    ensures SecretKeysOfMembers(members) == 0
    decreases members, 1
  {
    if members != [] {
      PresentableMembersHaveNone(members[1..]);
      match members[0].value {
        case Arr(items) => PresentableItemsHaveNone(items);
        case Obj(_) => PresentableHasNoSecretKey(members[0].value);
        case _ =>
      }
    }
  }

  lemma {:induction false} PresentableItemsHaveNone(items: seq<Json>)
    requires forall i | 0 <= i < |items| :: !items[i].Arr? && (items[i].Obj? ==> Presentable(items[i]))
    ensures SecretKeysOfItems(items) == 0
    decreases items, 1
  {
    if items != [] {
      PresentableItemsHaveNone(items[1..]);
      if items[0].Obj? { PresentableHasNoSecretKey(items[0]); }
    }
  }

  /** The validator accepts whatever the presenter shows, at every depth. */
  lemma ValidatorAcceptsPresented(v: Json)
    ensures SecretPaths(Redact(v), "") == []
  {
    RedactIsPresentable(v);
    PresentableHasNoSecretKey(Redact(v));
    OnePathPerSecretKey(Redact(v), "");
  }

  /** Nothing else is dropped: the presenter keeps every other top-level key, in order. */
  function OpenKeys(members: seq<Member>): seq<string> {
    if members == [] then []
    else (if IsSecretKey(members[0].key) then [] else [members[0].key]) + OpenKeys(members[1..])
  }

  function Keys(members: seq<Member>): seq<string> {
    if members == [] then [] else [members[0].key] + Keys(members[1..])
  }

  lemma {:induction false} PresenterKeepsOpenKeys(members: seq<Member>)
    ensures Keys(RedactMembers(members)) == OpenKeys(members)
  {
    if members != [] {
      var rest := RedactMembers(members[1..]);
      PresenterKeepsOpenKeys(members[1..]);
      if !IsSecretKey(members[0].key) {
        var shown := Member(members[0].key, RedactValue(members[0].value));
        assert ([shown] + rest)[1..] == rest;
      }
    }
  }

  // ---- The code's loops ----

  lemma Regroup<T>(a: seq<T>, b: seq<T>, c: seq<T>)
    ensures a + b + c == a + (b + c)
  {
  }

  method CollectSecretPaths(v: Json, path: string) returns (hits: seq<string>)
    ensures hits == SecretPaths(v, path)
    decreases v, 1
  {
    match v {
      case Arr(items) => hits := CollectFromItems(items, path);
      case Obj(members) => hits := CollectFromMembers(members, path);
      case _ => hits := [];
    }
  }

  method CollectFromItems(items: seq<Json>, path: string) returns (hits: seq<string>)
    ensures hits == ItemPaths(items, 0, path)
    decreases items, 2
  {
    hits := [];
    for i := 0 to |items|
      invariant hits + ItemPaths(items[i..], i, path) == ItemPaths(items, 0, path)
    {
      var found := CollectSecretPaths(items[i], path + "[" + Digits(i) + "]");
      Regroup(hits, found, ItemPaths(items[i + 1..], i + 1, path));
      hits := hits + found;
    }
  }

  method CollectFromMembers(members: seq<Member>, path: string) returns (hits: seq<string>)
    ensures hits == MemberPaths(members, path)
    decreases members, 3
  {
    hits := [];
    for i := 0 to |members|
      invariant hits + MemberPaths(members[i..], path) == MemberPaths(members, path)
    {
      var found := CollectFromMember(members[i], path);
      Regroup(hits, found, MemberPaths(members[i + 1..], path));
      hits := hits + found;
    }
  }

  method CollectFromMember(member: Member, path: string) returns (hits: seq<string>)
    ensures hits == PathsOfMember(member, path)
    decreases member, 2
  {
    hits := [];
    var next := MemberPath(path, member.key);
    if IsSecretKey(member.key) {
      hits := hits + [next];
    }
    var nested := CollectSecretPaths(member.value, next);
    hits := hits + nested;
  }

  method RedactForPresentation(v: Json) returns (shown: Json)
    ensures shown == Redact(v)
    decreases v, 1
  {
    if !v.Obj? {
      return Obj([]);
    }
    var out: seq<Member> := [];
    for i := 0 to |v.members|
      invariant out + RedactMembers(v.members[i..]) == RedactMembers(v.members)
    {
      if !IsSecretKey(v.members[i].key) {
        var value := RedactMemberValue(v.members[i].value);
        out := out + [Member(v.members[i].key, value)];
      }
    }
    shown := Obj(out);
  }

  method RedactMemberValue(raw: Json) returns (value: Json)
    ensures value == RedactValue(raw)
    decreases raw, 2
  {
    match raw {
      case Arr(items) =>
        var items' := RedactEach(items);
        value := Arr(items');
      case Obj(_) => value := RedactForPresentation(raw);
      case Str(s) => value := if |s| > LONGEST_SHOWN then Str(s[..SHOWN_PREFIX] + "\U{2026}") else raw;
      case _ => value := raw;
    }
  }

  method RedactEach(items: seq<Json>) returns (out: seq<Json>)
    ensures out == RedactItems(items)
    decreases items, 3
  {
    out := [];
    for i := 0 to |items|
      invariant out + RedactItems(items[i..]) == RedactItems(items)
    {
      var item := items[i];
      if items[i].Arr? || items[i].Obj? {
        item := RedactForPresentation(items[i]);
      }
      Regroup(out, [item], RedactItems(items[i + 1..]));
      out := out + [item];
    }
  }
}
