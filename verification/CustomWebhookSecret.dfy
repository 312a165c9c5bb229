/**
 Redaction of custom-webhook material: members under secret-bearing keys are dropped, and every
 known secret is cut out of every string that remains, one secret after the other.
 */
module CustomWebhookSecret {
  import opened Wrappers
  import opened Json
  import opened Text

  const REDACTED := "***REDACTED***"
  const SHORTEST_SCRUBBED := 4

  const SECRET_WORDS := [
    "token", "secret", "password", "apikey", "api_key", "authorization", "credential",
    "privatekey", "private_key", "oauth", "bearer", "refresh", "ciphertext"
  ]

  predicate IsSecretKey(key: string) {
    exists w | w in SECRET_WORDS :: Occurs(w, Lowered(key))
  }

  predicate IsDropped(key: string) {
    IsSecretKey(key) || Lowered(key) == "endpointurl" || key == "endpoint_url"
  }

  /** The known secrets that are present: absent and empty ones are filtered out. */
  function Known(secrets: seq<Option<string>>): seq<string> {
    if secrets == [] then []
    else (if secrets[0].Some? && secrets[0].value != "" then [secrets[0].value] else []) + Known(secrets[1..])
  }

  /** Each secret long enough is replaced in what the previous ones left. */
  function Scrub(s: string, secrets: seq<string>): string
    decreases |secrets|
  {
    if secrets == [] then s
    else
      var next := if |secrets[0]| >= SHORTEST_SCRUBBED then ReplaceAll(s, secrets[0], REDACTED) else s;
      Scrub(next, secrets[1..])
  }

  function Walk(v: Json, secrets: seq<string>): Json
    decreases v, 0
  {
    match v
    case Str(s) => Str(Scrub(s, secrets))
    case Arr(items) => Arr(WalkItems(items, secrets))
    case Obj(members) => Obj(WalkMembers(members, secrets))
    case _ => v
  }

  function WalkItems(items: seq<Json>, secrets: seq<string>): seq<Json>
    decreases items, 1
  {
    if items == [] then [] else [Walk(items[0], secrets)] + WalkItems(items[1..], secrets)
  }

  function WalkMembers(members: seq<Member>, secrets: seq<string>): seq<Member>
    decreases members, 1
  {
    if members == [] then []
    else if IsDropped(members[0].key) then WalkMembers(members[1..], secrets)
    else [Member(members[0].key, Walk(members[0].value, secrets))] + WalkMembers(members[1..], secrets)
  }

  // ---- Scrubbing one string ----

  /** With `m` laid over `q` from position `d` on, which may lie outside, the two agree wherever they overlap. */
  predicate Agrees(q: string, m: string, d: int) {
    forall k | 0 <= k < |q| && d <= k < d + |m| :: q[k] == m[k - d]
  }

  /** Some part of `q` could be supplied by `m`. */
  predicate Clashes(q: string, m: string) { exists d | -|m| < d < |q| :: Agrees(q, m, d) }

  /** A secret that replacing can never bring back. */
  predicate Scrubbable(secret: string) {
    |secret| >= SHORTEST_SCRUBBED && !Clashes(secret, REDACTED)
  }

  lemma StraddlingClashes(q: string, m: string, x: string, y: string, i: nat)
    requires At(x + m + y, q, i) && i < |x| + |m| && |x| < i + |q|
    ensures Clashes(q, m)
  {
    var s, d := x + m + y, |x| - i;
    AtMeansEqual(s, q, i);
    forall k | 0 <= k < |q| && d <= k < d + |m| ensures q[k] == m[k - d] {
      assert s[i + k] == m[k - d];
    }
    assert Agrees(q, m, d);
  }

  /** A text that does not clash with `m` can only occur wholly on one side of it. */
  lemma Separates(q: string, m: string, x: string, y: string)
    requires q != [] && m != [] && !Clashes(q, m) && Occurs(q, x + m + y)
    ensures Occurs(q, x) || Occurs(q, y)
  {
    var s := x + m + y;
    var i :| 0 <= i <= |s| && At(s, q, i);
    AtMeansEqual(s, q, i);
    if i + |q| <= |x| {
      AtMeansEqual(x, q, i);
    } else if |x| + |m| <= i {
      AtBehind(x + m, y, q, i);
    } else {
      StraddlingClashes(q, m, x, y, i);
      assert false;
    }
  }

  /** Around the marker a scrubbable secret can only occur wholly on one side. */
  lemma MarkerSeparates(q: string, x: string, y: string)
    requires Scrubbable(q) && Occurs(q, x + REDACTED + y)
    ensures Occurs(q, x) || Occurs(q, y)
  {
    Separates(q, REDACTED, x, y);
  }

  /** In particular every secret without a star that is not part of the word REDACTED is scrubbable. */
  lemma PlainIsScrubbable(secret: string)
    requires |secret| >= SHORTEST_SCRUBBED && '*' !in secret && !Occurs(secret, "REDACTED")
    ensures Scrubbable(secret)
  {
    var word := "REDACTED";
    assert REDACTED[..3] == ['*', '*', '*'] && REDACTED[3..11] == word && REDACTED[11..] == ['*', '*', '*'];
    PlainDoesNotClash(secret, REDACTED, word);
  }

  lemma PlainDoesNotClash(q: string, m: string, word: string)
    requires q != [] && '*' !in q && !Occurs(q, word)
    requires |word| == 8 && |m| == 14 && m[..3] == ['*', '*', '*'] && m[3..11] == word && m[11..] == ['*', '*', '*']
    ensures !Clashes(q, m)
  {
    assert m[0] == m[..3][0] && m[1] == m[..3][1] && m[2] == m[..3][2];
    assert m[11] == m[11..][0] && m[12] == m[11..][1] && m[13] == m[11..][2];
    forall d | -|m| < d < |q| ensures !Agrees(q, m, d) {
      var low := if d < 0 then -d else 0;
      var high := if |q| - d < 14 then |q| - d else 14;
      if low < 3 {
        assert q[low + d] != m[low];
      } else if high > 11 {
        assert q[high - 1 + d] != m[high - 1];
      } else if Agrees(q, m, d) {
        InsideWord(q, m, word, d);
        assert false;
      }
    }
  }

  lemma InsideWord(q: string, m: string, word: string, d: int)
    requires |m| == 14 && |word| == 8 && m[3..11] == word
    requires Agrees(q, m, d) && d <= -3 && |q| - d <= 11
    ensures Occurs(q, word)
  {
    forall k | 0 <= k < |q| ensures word[-d - 3 + k] == q[k] {
      assert word[-d - 3 + k] == m[k - d];
    }
    AtMeansEqual(word, q, -d - 3);
    assert At(word, q, -d - 3);
  }

  /** Replacing a secret removes it. */
  lemma {:induction false} ReplaceRemoves(s: string, q: string)
    requires Scrubbable(q)
    ensures !Occurs(q, ReplaceAll(s, q, REDACTED))
    decreases |s|
  {
    var k := Find(s, q, 0);
    if k.Some? {
      ReplaceRemoves(s[k.value + |q|..], q);
      BeforeFirst(s, q, k.value);
      if Occurs(q, ReplaceAll(s, q, REDACTED)) {
        MarkerSeparates(q, s[..k.value], ReplaceAll(s[k.value + |q|..], q, REDACTED));
      }
    }
  }

  lemma BeforeFirst(s: string, q: string, k: nat)
    requires q != [] && k <= |s| && forall i | 0 <= i < k :: !At(s, q, i)
    ensures !Occurs(q, s[..k])
  {
    if Occurs(q, s[..k]) {
      var i :| 0 <= i <= k && At(s[..k], q, i);
      AtMeansEqual(s[..k], q, i);
      AtMeansEqual(s, q, i);
    }
  }

  /** Replacing any other secret does not bring back one that was absent. */
  lemma {:induction false} ReplaceKeepsAbsent(s: string, p: string, q: string)
    requires p != [] && Scrubbable(q) && !Occurs(q, s)
    ensures !Occurs(q, ReplaceAll(s, p, REDACTED))
    decreases |s|
  {
    var k := Find(s, p, 0);
    if k.Some? {
      OccursInWider(q, s, 0, k.value);
      OccursInWider(q, s, k.value + |p|, |s|);
      assert s[k.value + |p|..] == s[k.value + |p|..|s|];
      ReplaceKeepsAbsent(s[k.value + |p|..], p, q);
      if Occurs(q, ReplaceAll(s, p, REDACTED)) {
        MarkerSeparates(q, s[..k.value], ReplaceAll(s[k.value + |p|..], p, REDACTED));
      }
    }
  }

  lemma {:induction false} ScrubKeepsAbsent(s: string, secrets: seq<string>, q: string)
    requires Scrubbable(q) && !Occurs(q, s)
    ensures !Occurs(q, Scrub(s, secrets))
    decreases |secrets|
  {
    if secrets != [] {
      if |secrets[0]| >= SHORTEST_SCRUBBED {
        ReplaceKeepsAbsent(s, secrets[0], q);
        ScrubKeepsAbsent(ReplaceAll(s, secrets[0], REDACTED), secrets[1..], q);
      } else {
        ScrubKeepsAbsent(s, secrets[1..], q);
      }
    }
  }

  /** Whatever the order and the overlaps of the secrets, a scrubbable one in the list is gone at the end. */
  lemma {:induction false} ScrubRemoves(s: string, secrets: seq<string>, i: nat)
    requires i < |secrets| && Scrubbable(secrets[i])
    ensures !Occurs(secrets[i], Scrub(s, secrets))
    decreases |secrets|
  {
    var next := if |secrets[0]| >= SHORTEST_SCRUBBED then ReplaceAll(s, secrets[0], REDACTED) else s;
    if i == 0 {
      ReplaceRemoves(s, secrets[0]);
      ScrubKeepsAbsent(next, secrets[1..], secrets[0]);
    } else {
      ScrubRemoves(next, secrets[1..], i - 1);
    }
  }

  /** A secret that is part of the marker itself comes back with every replacement. */
  lemma MarkerPartsSurvive(s: string, q: string)
    requires q != [] && Occurs(q, REDACTED) && Occurs(q, s)
    ensures Occurs(q, ReplaceAll(s, q, REDACTED))
  {
    var i :| 0 <= i <= |s| && At(s, q, i);
    var k := Find(s, q, 0);
    var out := ReplaceAll(s, q, REDACTED);
    assert out[k.value..k.value + |REDACTED|] == REDACTED;
    OccursInWider(q, out, k.value, k.value + |REDACTED|);
  }

  // ---- A clashing secret can be brought back ----

  /**
   No occurrence of a text in `u + p + v` when each side is shorter, `p` longer, and `p` holds neither of its
   ends.
   */
  lemma NotAround(q: string, u: string, p: string, v: string)
    requires |u| < |q| && |v| < |q| <= |p| && q[0] !in p && q[|q| - 1] !in p
    ensures !Occurs(q, u + p + v)
  {
    var s := u + p + v;
    assert forall k | 0 <= k < |p| :: s[|u| + k] == p[k];
    forall i | 0 <= i <= |s| ensures !At(s, q, i) {
      if At(s, q, i) {
        AroundMiddle(u, p, v, i, i + |q| - 1);
        assert false;
      }
    }
  }

  /** A stretch longer than either side and no longer than the middle has an end in the middle. */
  lemma AroundMiddle(u: string, p: string, v: string, i: nat, j: nat)
    requires i <= j < |u| + |p| + |v| && |u| <= j - i && |v| <= j - i < |p|
    ensures (u + p + v)[i] in p || (u + p + v)[j] in p
  {
    var s := u + p + v;
    assert forall k | 0 <= k < |p| :: s[|u| + k] == p[k];
    if i < |u| {
      assert s[j] == p[j - |u|];
    } else {
      assert s[i] == p[i - |u|];
    }
  }

  /** Replacing `p` between two texts shorter than it. */
  lemma ReplaceBetween(u: string, p: string, v: string, m: string)
    requires |u| < |p| && |v| < |p| && (u != [] ==> u[|u| - 1] !in p)
    ensures ReplaceAll(u + p + v, p, m) == u + m + v
  {
    var s := u + p + v;
    assert s[|u|..|u| + |p|] == p && s[..|u|] == u && s[|u| + |p|..] == v;
    assert u != [] ==> s[|u| - 1] == u[|u| - 1];
    forall j: nat | j < |u| ensures !At(s, p, j) {
      if At(s, p, j) {
        AtCovers(s, p, j, |u| - 1);
        assert false;
      }
    }
    FirstAt(s, p, |u|);
    TooShortToOccur(p, v);
    assert Find(v, p, 0) == None;
  }

  /** What `q` has before and behind `m` laid over it from `d` on. */
  function Left(q: string, d: int): string
    requires d < |q|
  {
    if d < 0 then [] else q[..d]
  }

  function Right(q: string, m: string, d: int): string
    requires -|m| < d
  {
    if d + |m| < |q| then q[d + |m|..] else []
  }

  lemma MarkerCompletes(q: string, m: string, d: int)
    requires -|m| < d < |q| && Agrees(q, m, d)
    ensures Occurs(q, Left(q, d) + m + Right(q, m, d))
  {
    var u, v := Left(q, d), Right(q, m, d);
    var s := u + m + v;
    var at := if d < 0 then -d else 0;
    forall k | 0 <= k < |q| ensures s[at + k] == q[k] {
      if d <= k < d + |m| {
        assert s[at + k] == m[k - d];
      }
    }
    AtMeansEqual(s, q, at);
    assert At(s, q, at);
  }

  /** A character that is none of three. */
  function Other(a: char, b: char, c: char): (r: char)
    ensures r != a && r != b && r != c
  {
    if 'w' !in {a, b, c} then 'w' else if 'x' !in {a, b, c} then 'x' else if 'y' !in {a, b, c} then 'y' else 'z'
  }

  /** A second secret, longer than `q` and without the characters at the ends of `q` and of its left part. */
  function Decoy(q: string, d: int): string
    requires d < |q| && q != []
  {
    var z := Other(q[0], q[|q| - 1], if 0 < d then q[d - 1] else q[0]);
    seq(|q| + SHORTEST_SCRUBBED, i => z)
  }

  /** Scrubbing first the secret and then the decoy puts the marker where it completes the secret. */
  lemma Revives(q: string, m: string, d: int)
    requires -|m| < d < |q| && q != [] && Agrees(q, m, d)
    ensures var u, p, v := Left(q, d), Decoy(q, d), Right(q, m, d);
            Occurs(q, ReplaceAll(ReplaceAll(u + p + v, q, m), p, m))
  {
    var u, p, v := Left(q, d), Decoy(q, d), Right(q, m, d);
    NotAround(q, u, p, v);
    assert ReplaceAll(u + p + v, q, m) == u + p + v;
    ReplaceBetween(u, p, v, m);
    MarkerCompletes(q, m, d);
  }

  lemma ScrubTwo(s: string, a: string, b: string)
    requires |a| >= SHORTEST_SCRUBBED && |b| >= SHORTEST_SCRUBBED
    ensures Scrub(s, [a, b]) == ReplaceAll(ReplaceAll(s, a, REDACTED), b, REDACTED)
  {
    assert [a, b][1..] == [b];
    ScrubOne(ReplaceAll(s, a, REDACTED), b);
  }

  lemma ScrubOne(s: string, a: string)
    requires |a| >= SHORTEST_SCRUBBED
    ensures Scrub(s, [a]) == ReplaceAll(s, a, REDACTED)
  {
    assert [a][1..] == [];
  }

  lemma KnownOne(a: string)
    ensures Known([Some(a)]) == if a == "" then [] else [a]
  {
    assert [Some(a)][1..] == [];
  }

  lemma KnownTwo(a: string, b: string)
    requires a != "" && b != ""
    ensures Known([Some(a), Some(b)]) == [a, b]
  {
    assert [Some(a), Some(b)][1..] == [Some(b)];
    KnownOne(b);
  }

  /** For every secret that is not scrubbable there is a list that holds it and a string on which it survives. */
  lemma Survives(secret: string) returns (known: seq<Option<string>>, s: string)
    requires !Scrubbable(secret)
    ensures Some(secret) in known && Occurs(secret, Scrub(s, Known(known)))
  {
    if |secret| < SHORTEST_SCRUBBED {
      known, s := [Some(secret)], secret;
      KnownOne(secret);
      assert Scrub(s, Known(known)) == s;
      assert At(s, secret, 0);
    } else {
      var d :| -|REDACTED| < d < |secret| && Agrees(secret, REDACTED, d);
      var decoy := Decoy(secret, d);
      known, s := [Some(secret), Some(decoy)], Left(secret, d) + decoy + Right(secret, REDACTED, d);
      KnownTwo(secret, decoy);
      ScrubTwo(s, secret, decoy);
      Revives(secret, REDACTED, d);
    }
  }

  // ---- The whole tree ----

  /** No string value anywhere in the tree contains `q`. */
  predicate Free(v: Json, q: string)
    decreases v
  {
    match v
    case Str(s) => !Occurs(q, s)
    case Arr(items) => forall i | 0 <= i < |items| :: Free(items[i], q)
    case Obj(members) => forall i | 0 <= i < |members| :: Free(members[i].value, q)
    case _ => true
  }

  /** No member anywhere in the tree has a key that is dropped. */
  predicate KeysOpen(v: Json)
    decreases v
  {
    match v
    case Arr(items) => forall i | 0 <= i < |items| :: KeysOpen(items[i])
    case Obj(members) => forall i | 0 <= i < |members| :: !IsDropped(members[i].key) && KeysOpen(members[i].value)
    case _ => true
  }

  lemma {:induction false} WalkIsFree(v: Json, secrets: seq<string>, i: nat)
    requires i < |secrets| && Scrubbable(secrets[i])
    ensures Free(Walk(v, secrets), secrets[i])
    decreases v, 0
  {
    match v {
      case Str(s) => ScrubRemoves(s, secrets, i);
      case Arr(items) => WalkItemsFree(items, secrets, i);
      case Obj(members) => WalkMembersFree(members, secrets, i);
      case _ =>
    }
  }

  lemma {:induction false} WalkItemsFree(items: seq<Json>, secrets: seq<string>, i: nat)
    requires i < |secrets| && Scrubbable(secrets[i])
    ensures forall j | 0 <= j < |WalkItems(items, secrets)| :: Free(WalkItems(items, secrets)[j], secrets[i])
    decreases items, 1
  {
    if items != [] {
      WalkIsFree(items[0], secrets, i);
      WalkItemsFree(items[1..], secrets, i);
    }
  }

  lemma {:induction false} WalkMembersFree(members: seq<Member>, secrets: seq<string>, i: nat)
    requires i < |secrets| && Scrubbable(secrets[i])
    ensures forall j | 0 <= j < |WalkMembers(members, secrets)| ::
        Free(WalkMembers(members, secrets)[j].value, secrets[i])
    decreases members, 1
  {
    if members != [] {
      WalkIsFree(members[0].value, secrets, i);
      WalkMembersFree(members[1..], secrets, i);
    }
  }

  lemma {:induction false} WalkKeysOpen(v: Json, secrets: seq<string>)
    ensures KeysOpen(Walk(v, secrets))
    decreases v, 0
  {
    match v {
      case Arr(items) => WalkItemsKeysOpen(items, secrets);
      case Obj(members) => WalkMembersKeysOpen(members, secrets);
      case _ =>
    }
  }

  lemma {:induction false} WalkItemsKeysOpen(items: seq<Json>, secrets: seq<string>)
    ensures forall j | 0 <= j < |WalkItems(items, secrets)| :: KeysOpen(WalkItems(items, secrets)[j])
    decreases items, 1
  {
    if items != [] {
      WalkKeysOpen(items[0], secrets);
      WalkItemsKeysOpen(items[1..], secrets);
    }
  }

  lemma {:induction false} WalkMembersKeysOpen(members: seq<Member>, secrets: seq<string>)
    ensures forall j | 0 <= j < |WalkMembers(members, secrets)| ::
              !IsDropped(WalkMembers(members, secrets)[j].key) && KeysOpen(WalkMembers(members, secrets)[j].value)
    decreases members, 1
  {
    if members != [] {
      WalkKeysOpen(members[0].value, secrets);
      WalkMembersKeysOpen(members[1..], secrets);
    }
  }

  /** The redaction of a value with a list of known secrets, some of which may be absent. */
  function Redact(v: Json, known: seq<Option<string>>): Json { Walk(v, Known(known)) }

  lemma {:induction false} KnownHolds(known: seq<Option<string>>, secret: string)
    requires Some(secret) in known && secret != ""
    ensures exists i :: 0 <= i < |Known(known)| && Known(known)[i] == secret
  {
    if known[0] == Some(secret) {
      assert Known(known)[0] == secret;
    } else {
      KnownHolds(known[1..], secret);
      var i :| 0 <= i < |Known(known[1..])| && Known(known[1..])[i] == secret;
      var j := |Known(known)| - |Known(known[1..])| + i;
      assert Known(known)[j] == secret;
    }
  }

  /**
   No string value of the redacted tree contains a scrubbable known secret, and no dropped key is left at any
   depth.
   */
  lemma RedactHides(v: Json, known: seq<Option<string>>, secret: string)
    requires Some(secret) in known && Scrubbable(secret)
    ensures Free(Redact(v, known), secret) && KeysOpen(Redact(v, known))
  {
    KnownHolds(known, secret);
    var i :| 0 <= i < |Known(known)| && Known(known)[i] == secret;
    WalkIsFree(v, Known(known), i);
    WalkKeysOpen(v, Known(known));
  }

  /**
   Exactly the scrubbable secrets are hidden from every string value, in every tree and with every list that
   holds them.
   */
  lemma HiddenExactly(secret: string)
    ensures (forall v, known | Some(secret) in known :: Free(Redact(v, known), secret)) <==> Scrubbable(secret)
  {
    if Scrubbable(secret) {
      forall v, known | Some(secret) in known ensures Free(Redact(v, known), secret) {
        RedactHides(v, known, secret);
      }
    } else {
      var known, s := Survives(secret);
      assert Redact(Str(s), known) == Str(Scrub(s, Known(known)));
      assert !Free(Redact(Str(s), known), secret);
    }
  }

  // ---- Keys ----

  /** Every key of the tree, at any depth, in order. */
  function AllKeys(v: Json): seq<string>
    decreases v, 0
  {
    match v
    case Arr(items) => KeysOfItems(items)
    case Obj(members) => KeysOfMembers(members)
    case _ => []
  }

  function KeysOfItems(items: seq<Json>): seq<string>
    decreases items, 1
  {
    if items == [] then [] else AllKeys(items[0]) + KeysOfItems(items[1..])
  }

  function KeysOfMembers(members: seq<Member>): seq<string>
    decreases members, 1
  {
    if members == [] then [] else [members[0].key] + AllKeys(members[0].value) + KeysOfMembers(members[1..])
  }

  /** The tree without its dropped members, and otherwise as it is. */
  function Pruned(v: Json): Json
    decreases v, 0
  {
    match v
    case Arr(items) => Arr(PrunedItems(items))
    case Obj(members) => Obj(PrunedMembers(members))
    case _ => v
  }

  function PrunedItems(items: seq<Json>): seq<Json>
    decreases items, 1
  {
    if items == [] then [] else [Pruned(items[0])] + PrunedItems(items[1..])
  }

  function PrunedMembers(members: seq<Member>): seq<Member>
    decreases members, 1
  {
    if members == [] then []
    else if IsDropped(members[0].key) then PrunedMembers(members[1..])
    else [Member(members[0].key, Pruned(members[0].value))] + PrunedMembers(members[1..])
  }

  /**
   Keys are not scrubbed: the keys of the redacted tree are those of the tree without its dropped members,
   secrets or not.
   */
  lemma {:induction false} KeysSurvive(v: Json, secrets: seq<string>)
    ensures AllKeys(Walk(v, secrets)) == AllKeys(Pruned(v))
    decreases v, 0
  {
    match v {
      case Arr(items) => KeysOfItemsSurvive(items, secrets);
      case Obj(members) => KeysOfMembersSurvive(members, secrets);
      case _ =>
    }
  }

  lemma {:induction false} KeysOfItemsSurvive(items: seq<Json>, secrets: seq<string>)
    ensures KeysOfItems(WalkItems(items, secrets)) == KeysOfItems(PrunedItems(items))
    decreases items, 1
  {
    if items != [] {
      KeysSurvive(items[0], secrets);
      KeysOfItemsSurvive(items[1..], secrets);
      assert WalkItems(items, secrets)[1..] == WalkItems(items[1..], secrets);
      assert PrunedItems(items)[1..] == PrunedItems(items[1..]);
    }
  }

  lemma {:induction false} KeysOfMembersSurvive(members: seq<Member>, secrets: seq<string>)
    ensures KeysOfMembers(WalkMembers(members, secrets)) == KeysOfMembers(PrunedMembers(members))
    decreases members, 1
  {
    if members != [] {
      KeysOfMembersSurvive(members[1..], secrets);
      if !IsDropped(members[0].key) {
        KeysSurvive(members[0].value, secrets);
        assert WalkMembers(members, secrets)[1..] == WalkMembers(members[1..], secrets);
        assert PrunedMembers(members)[1..] == PrunedMembers(members[1..]);
      }
    }
  }

  predicate HasKey(members: seq<Member>, key: string) { exists i :: 0 <= i < |members| && members[i].key == key }

  lemma HasKeyFirst(first: Member, rest: seq<Member>, key: string)
    ensures HasKey([first] + rest, key) <==> first.key == key || HasKey(rest, key)
  {
    var all := [first] + rest;
    assert all[0] == first && forall i | 0 <= i < |rest| :: all[i + 1] == rest[i];
  }

  /** So a secret used as a key survives exactly when that key is not dropped. */
  lemma {:induction false} KeySurvivesExactly(members: seq<Member>, secrets: seq<string>, secret: string)
    ensures HasKey(WalkMembers(members, secrets), secret) <==> HasKey(members, secret) && !IsDropped(secret)
  {
    if members != [] {
      KeySurvivesExactly(members[1..], secrets, secret);
      HasKeyFirst(members[0], members[1..], secret);
      assert [members[0]] + members[1..] == members;
      HasKeyFirst(Member(members[0].key, Walk(members[0].value, secrets)), WalkMembers(members[1..], secrets), secret);
    }
  }

  // ---- Nothing else is touched ----

  lemma {:induction false} ScrubLeavesOthers(s: string, secrets: seq<string>)
    requires forall i | 0 <= i < |secrets| && |secrets[i]| >= SHORTEST_SCRUBBED :: !Occurs(secrets[i], s)
    ensures Scrub(s, secrets) == s
  {
    if secrets != [] {
      if |secrets[0]| >= SHORTEST_SCRUBBED {
        assert Find(s, secrets[0], 0).None?;
      }
      ScrubLeavesOthers(s, secrets[1..]);
    }
  }

  predicate FreeOfAll(v: Json, secrets: seq<string>) {
    forall i | 0 <= i < |secrets| && |secrets[i]| >= SHORTEST_SCRUBBED :: Free(v, secrets[i])
  }

  /** A tree with no dropped key and none of the secrets is returned as it is. */
  lemma {:induction false} WalkLeavesOthers(v: Json, secrets: seq<string>)
    requires KeysOpen(v) && FreeOfAll(v, secrets)
    ensures Walk(v, secrets) == v
    decreases v, 0
  {
    match v {
      case Str(s) => ScrubLeavesOthers(s, secrets);
      case Arr(items) =>
        forall j | 0 <= j < |items| ensures FreeOfAll(items[j], secrets) && KeysOpen(items[j]) {}
        WalkItemsLeavesOthers(items, secrets);
      case Obj(members) =>
        forall j | 0 <= j < |members| ensures FreeOfAll(members[j].value, secrets) && KeysOpen(members[j].value) {}
        WalkMembersLeavesOthers(members, secrets);
      case _ =>
    }
  }

  lemma {:induction false} WalkItemsLeavesOthers(items: seq<Json>, secrets: seq<string>)
    requires forall j | 0 <= j < |items| :: KeysOpen(items[j]) && FreeOfAll(items[j], secrets)
    ensures WalkItems(items, secrets) == items
    decreases items, 1
  {
    if items != [] {
      WalkLeavesOthers(items[0], secrets);
      WalkItemsLeavesOthers(items[1..], secrets);
    }
  }

  lemma {:induction false} WalkMembersLeavesOthers(members: seq<Member>, secrets: seq<string>)
    requires forall j | 0 <= j < |members| ::
               !IsDropped(members[j].key) && KeysOpen(members[j].value) && FreeOfAll(members[j].value, secrets)
    ensures WalkMembers(members, secrets) == members
    decreases members, 1
  {
    if members != [] {
      WalkLeavesOthers(members[0].value, secrets);
      WalkMembersLeavesOthers(members[1..], secrets);
    }
  }

  /** Redacting twice is redacting once, when every secret long enough to be scrubbed is scrubbable. */
  lemma RedactIsIdempotent(v: Json, known: seq<Option<string>>)
    requires forall i | 0 <= i < |Known(known)| && |Known(known)[i]| >= SHORTEST_SCRUBBED :: Scrubbable(Known(known)[i])
    ensures Redact(Redact(v, known), known) == Redact(v, known)
  {
    var secrets := Known(known);
    WalkKeysOpen(v, secrets);
    forall i | 0 <= i < |secrets| && |secrets[i]| >= SHORTEST_SCRUBBED ensures Free(Walk(v, secrets), secrets[i]) {
      WalkIsFree(v, secrets, i);
    }
    WalkLeavesOthers(Walk(v, secrets), secrets);
  }

  // ---- The code's loops ----

  method ScrubString(value: string, secrets: seq<string>) returns (out: string)
    ensures out == Scrub(value, secrets)
  {
    out := value;
    for i := 0 to |secrets|
      invariant Scrub(out, secrets[i..]) == Scrub(value, secrets)
    {
      assert secrets[i..][1..] == secrets[i + 1..];
      if |secrets[i]| >= SHORTEST_SCRUBBED {
        out := ReplaceAll(out, secrets[i], REDACTED);
      }
    }
  }

  method WalkValue(value: Json, secrets: seq<string>) returns (out: Json)
    ensures out == Walk(value, secrets)
    decreases value, 1
  {
    match value {
      case Str(s) =>
        var scrubbed := ScrubString(s, secrets);
        out := Str(scrubbed);
      case Arr(items) =>
        var items' := WalkEach(items, secrets);
        out := Arr(items');
      case Obj(members) =>
        var members' := WalkEntries(members, secrets);
        out := Obj(members');
      case _ => out := value;
    }
  }

  method WalkEach(items: seq<Json>, secrets: seq<string>) returns (out: seq<Json>)
    ensures out == WalkItems(items, secrets)
    decreases items, 2
  {
    out := [];
    for i := 0 to |items|
      invariant out + WalkItems(items[i..], secrets) == WalkItems(items, secrets)
    {
      assert items[i..][1..] == items[i + 1..];
      var item := WalkValue(items[i], secrets);
      out := out + [item];
    }
  }

  method WalkEntries(members: seq<Member>, secrets: seq<string>) returns (out: seq<Member>)
    ensures out == WalkMembers(members, secrets)
    decreases members, 2
  {
    out := [];
    for i := 0 to |members|
      invariant out + WalkMembers(members[i..], secrets) == WalkMembers(members, secrets)
    {
      assert members[i..][1..] == members[i + 1..];
      if !IsDropped(members[i].key) {
        var nested := WalkValue(members[i].value, secrets);
        out := out + [Member(members[i].key, nested)];
      }
    }
  }
}
