/**
 The company's spreadsheet destination of each client, with the history of spreadsheet links and
 the tab contracts bound to a destination. A save is one transaction over the three tables.
 */
module SheetsDestination {
  import opened Wrappers

  datatype LinkStatus = Current | Previous | Inferred

  datatype Link = Link(
    client: string,
    spreadsheet: string,
    title: Option<string>,
    url: string,
    status: LinkStatus,
    recordedAt: int,
    supersededAt: Option<int>)

  /** The fields a save writes. */
  datatype Fields = Fields(
    connection: string,
    spreadsheet: string,
    title: Option<string>,
    url: string,
    worksheetId: int,
    worksheetTitle: string,
    controlBasis: string,
    creation: Option<string>,  // companySpreadsheetCreationId, unique over all destinations
    accessStatus: string,
    accessCheckedAt: int,
    writeReadiness: string,
    deliveryExecution: string,
    sharingStatus: string,
    recipient: Option<string>,
    enabled: bool,
    actor: Option<string>)

  datatype Destination = Destination(id: nat, fields: Fields, revision: nat, updatedAt: int)

  /** A tab contract, with the spreadsheet its destination named when the tab was bound. */
  datatype Contract = Contract(destination: nat, role: string, boundTo: string)

  /** `nextId` is the identifier the next destination row gets. */
  datatype Tables = Tables(destinations: map<string, Destination>, links: seq<Link>, contracts: set<Contract>,
    nextId: nat)

  datatype Conflict = SpreadsheetBoundToOtherClient | DestinationConflict

  // ---- The save, part by part ----

  /** A save never leaves a destination enabled or verified. */
  function Written(input: Fields): Fields {
    input.(writeReadiness := "not_verified", deliveryExecution := "disabled", enabled := false)
  }

  predicate BoundElsewhere(t: Tables, client: string, spreadsheet: string) {
    exists other ::
      other in t.destinations && other != client && t.destinations[other].fields.spreadsheet == spreadsheet
  }

  /** The unique index on the creation record would reject the write; the transaction is rolled back. */
  predicate CreationTaken(t: Tables, client: string, creation: Option<string>) {
    && creation.Some?
    && exists other :: other in t.destinations && other != client && t.destinations[other].fields.creation == creation
  }

  predicate HasLink(links: seq<Link>, client: string, spreadsheet: string) {
    exists i :: 0 <= i < |links| && links[i].client == client && links[i].spreadsheet == spreadsheet
  }

  predicate HasCurrent(links: seq<Link>, client: string, spreadsheet: string) {
    exists i :: 0 <= i < |links| && IsCurrent(links[i], client) && links[i].spreadsheet == spreadsheet
  }

  predicate IsCurrent(link: Link, client: string) { link.client == client && link.status == Current }

  predicate Replaces(t: Tables, client: string, spreadsheet: string) {
    client in t.destinations && t.destinations[client].fields.spreadsheet != spreadsheet
  }

  /** The replaced spreadsheet gets an inferred link if none was ever stored for it. */
  function WithInferred(t: Tables, client: string, spreadsheet: string, now: int): seq<Link> {
    if Replaces(t, client, spreadsheet) && !HasLink(t.links, client, t.destinations[client].fields.spreadsheet) then
      var row := t.destinations[client];
      t.links + [Link(client, row.fields.spreadsheet, row.fields.title, row.fields.url, Inferred, row.updatedAt,
        Some(now))]
    else t.links
  }

  function SupersededLink(link: Link, client: string, spreadsheet: string, now: int): Link {
    if IsCurrent(link, client) && link.spreadsheet != spreadsheet then
      link.(status := Previous, supersededAt := Some(now))
    else link
  }

  function Superseded(links: seq<Link>, client: string, spreadsheet: string, now: int): seq<Link> {
    seq(|links|, i requires 0 <= i < |links| => SupersededLink(links[i], client, spreadsheet, now))
  }

  function WithCurrent(links: seq<Link>, client: string, input: Fields, now: int): seq<Link> {
    if HasCurrent(links, client, input.spreadsheet) then links
    else links + [Link(client, input.spreadsheet, input.title, input.url, Current, now, None)]
  }

  function SavedLinks(t: Tables, client: string, input: Fields, now: int): seq<Link> {
    WithCurrent(Superseded(WithInferred(t, client, input.spreadsheet, now), client, input.spreadsheet, now), client,
      input, now)
  }

  function SavedContracts(t: Tables, client: string, spreadsheet: string): set<Contract> {
    if Replaces(t, client, spreadsheet) then set c | c in t.contracts && c.destination != t.destinations[client].id
    else t.contracts
  }

  function SaveConflict(t: Tables, client: string, input: Fields): Option<Conflict> {
    if BoundElsewhere(t, client, input.spreadsheet) then Some(SpreadsheetBoundToOtherClient)
    else if CreationTaken(t, client, input.creation) then Some(DestinationConflict)
    else None
  }

  function Saved(t: Tables, client: string, input: Fields, now: int): Tables {
    var row := if client in t.destinations then
                 Destination(t.destinations[client].id, Written(input), t.destinations[client].revision + 1, now)
               else Destination(t.nextId, Written(input), 1, now);
    Tables(t.destinations[client := row],
           SavedLinks(t, client, input, now),
           SavedContracts(t, client, input.spreadsheet),
           if client in t.destinations then t.nextId else t.nextId + 1)
  }

  function Save(t: Tables, client: string, input: Fields, now: int): Tables {
    if SaveConflict(t, client, input).Some? then t else Saved(t, client, input, now)
  }

  function UpdateAccess(t: Tables, client: string, accessStatus: string, checkedAt: int, now: int): Tables {
    if client !in t.destinations then t
    else
      var row := t.destinations[client];
      t.(destinations := t.destinations[client := row.(
        fields := row.fields.(accessStatus := accessStatus, accessCheckedAt := checkedAt,
                              writeReadiness := "not_verified", deliveryExecution := "disabled", enabled := false),
        updatedAt := now)])
  }

  /** Deleting a destination takes its tab contracts with it; the links stay. */
  function Remove(t: Tables, client: string): Tables {
    if client !in t.destinations then t
    else t.(destinations := t.destinations - {client},
            contracts := set c | c in t.contracts && c.destination != t.destinations[client].id)
  }

  /** Other code binds a tab of the spreadsheet a destination names. */
  function Bind(t: Tables, client: string, role: string): Tables {
    if client !in t.destinations then t
    else
      var row := t.destinations[client];
      t.(contracts := t.contracts + {Contract(row.id, role, row.fields.spreadsheet)})
  }

  // ---- Runs ----

  datatype Op = DoSave(client: string, input: Fields, now: int)
              | DoUpdateAccess(client: string, accessStatus: string, checkedAt: int, now: int)
              | DoRemove(client: string)
              | DoBind(client: string, role: string)

  function Step(t: Tables, op: Op): Tables {
    match op
    case DoSave(client, input, now) => Save(t, client, input, now)
    case DoUpdateAccess(client, accessStatus, checkedAt, now) => UpdateAccess(t, client, accessStatus, checkedAt, now)
    case DoRemove(client) => Remove(t, client)
    case DoBind(client, role) => Bind(t, client, role)
  }

  /** `states[i]` holds the tables before `ops[i]`. */
  predicate IsRun(states: seq<Tables>, ops: seq<Op>) {
    && |states| == |ops| + 1
    && forall i | 0 <= i < |ops| :: states[i + 1] == Step(states[i], ops[i])
  }

  // ---- The invariant over the three tables ----

  predicate SameClient(t: Tables, c: string, d: string)
    requires c in t.destinations && d in t.destinations
  {
    (|| t.destinations[c].fields.spreadsheet == t.destinations[d].fields.spreadsheet
     || t.destinations[c].id == t.destinations[d].id)
    ==> c == d
  }

  /** Destinations: distinct identifiers, and no spreadsheet under two clients. */
  predicate Rows(t: Tables) {
    && (forall c | c in t.destinations :: t.destinations[c].id < t.nextId)
    && (forall c, d | c in t.destinations && d in t.destinations :: SameClient(t, c, d))
  }

  predicate Disjoint(links: seq<Link>, i: nat, j: nat)
    requires i < |links| && j < |links|
  {
    links[i].status == Current && links[j].status == Current && links[i].client == links[j].client ==> i == j
  }

  /** Links: superseded exactly when not current, and at most one current link for each client. */
  predicate LinksOk(links: seq<Link>) {
    && (forall i | 0 <= i < |links| :: links[i].supersededAt.Some? <==> links[i].status != Current)
    && (forall i, j | 0 <= i < |links| && 0 <= j < |links| :: Disjoint(links, i, j))
  }

  /** A client's current link, if any, names its destination's spreadsheet. */
  predicate CurrentMatches(t: Tables, link: Link) {
    link.status == Current && link.client in t.destinations ==>
      link.spreadsheet == t.destinations[link.client].fields.spreadsheet
  }

  predicate ContractFits(t: Tables, contract: Contract) {
    && (exists c :: c in t.destinations && t.destinations[c].id == contract.destination)
    && forall c | c in t.destinations && t.destinations[c].id == contract.destination ::
         contract.boundTo == t.destinations[c].fields.spreadsheet
  }

  ghost predicate Inv(t: Tables) {
    && Rows(t)
    && LinksOk(t.links)
    && (forall i | 0 <= i < |t.links| :: CurrentMatches(t, t.links[i]))
    && (forall c | c in t.contracts :: ContractFits(t, c))
  }

  /** Tables from before links were stored: destinations without any link. They satisfy the invariant. */
  predicate Legacy(t: Tables) { t.links == [] && t.contracts == {} && Rows(t) }

  // ---- A save keeps the invariant ----

  lemma SupersededKeepsLinksOk(links: seq<Link>, client: string, spreadsheet: string, now: int)
    requires LinksOk(links)
    ensures LinksOk(Superseded(links, client, spreadsheet, now))
    ensures forall i | 0 <= i < |links| && IsCurrent(Superseded(links, client, spreadsheet, now)[i], client) ::
              Superseded(links, client, spreadsheet, now)[i].spreadsheet == spreadsheet
  {
    var links' := Superseded(links, client, spreadsheet, now);
    forall i, j | 0 <= i < |links'| && 0 <= j < |links'| ensures Disjoint(links', i, j) {
      assert Disjoint(links, i, j);
    }
  }

  lemma AppendKeepsLinksOk(links: seq<Link>, link: Link)
    requires LinksOk(links)
    requires link.supersededAt.Some? <==> link.status != Current
    requires link.status == Current ==> forall i | 0 <= i < |links| :: !IsCurrent(links[i], link.client)
    ensures LinksOk(links + [link])
  {
    var links' := links + [link];
    forall i, j | 0 <= i < |links'| && 0 <= j < |links'| ensures Disjoint(links', i, j) {
      if i < |links| && j < |links| { assert Disjoint(links, i, j); }
    }
  }

  lemma SavedKeepsLinksOk(t: Tables, client: string, input: Fields, now: int)
    requires LinksOk(t.links)
    ensures LinksOk(SavedLinks(t, client, input, now))
  {
    var l1 := WithInferred(t, client, input.spreadsheet, now);
    if l1 != t.links {
      AppendKeepsLinksOk(t.links, l1[|t.links|]);
    }
    var l2 := Superseded(l1, client, input.spreadsheet, now);
    SupersededKeepsLinksOk(l1, client, input.spreadsheet, now);
    if !HasCurrent(l2, client, input.spreadsheet) {
      forall i | 0 <= i < |l2| ensures !IsCurrent(l2[i], client) {
        assert SupersededLink(l1[i], client, input.spreadsheet, now) == l2[i];
      }
      AppendKeepsLinksOk(l2, Link(client, input.spreadsheet, input.title, input.url, Current, now, None));
    }
  }

  lemma SavedKeepsRows(t: Tables, client: string, input: Fields, now: int)
    requires Rows(t) && SaveConflict(t, client, input).None?
    ensures Rows(Saved(t, client, input, now))
  {
    var t' := Saved(t, client, input, now);
    forall c, d | c in t'.destinations && d in t'.destinations ensures SameClient(t', c, d) {
      if c in t.destinations && d in t.destinations { assert SameClient(t, c, d); }
    }
  }

  /** Where each link of the new history comes from. */
  lemma SavedLinkOrigin(t: Tables, client: string, input: Fields, now: int, i: nat)
    requires i < |SavedLinks(t, client, input, now)|
    ensures var link := SavedLinks(t, client, input, now)[i];
            || (i < |t.links| && link == SupersededLink(t.links[i], client, input.spreadsheet, now))
            || (link.client == client && (link.status == Inferred || link.spreadsheet == input.spreadsheet))
  {
  }

  lemma SavedKeepsCurrentMatches(t: Tables, client: string, input: Fields, now: int, i: nat)
    requires Inv(t) && i < |SavedLinks(t, client, input, now)|
    ensures CurrentMatches(Saved(t, client, input, now), SavedLinks(t, client, input, now)[i])
  {
    SavedLinkOrigin(t, client, input, now, i);
    if i < |t.links| {
      assert CurrentMatches(t, t.links[i]);
    }
  }

  lemma SavedKeepsContractFits(t: Tables, client: string, input: Fields, now: int, contract: Contract)
    requires Inv(t) && SaveConflict(t, client, input).None? && contract in SavedContracts(t, client, input.spreadsheet)
    ensures ContractFits(Saved(t, client, input, now), contract)
  {
    var t' := Saved(t, client, input, now);
    assert ContractFits(t, contract);
    var owner :| owner in t.destinations && t.destinations[owner].id == contract.destination;
    assert owner in t'.destinations && t'.destinations[owner].id == contract.destination;
    forall c | c in t'.destinations && t'.destinations[c].id == contract.destination
      ensures contract.boundTo == t'.destinations[c].fields.spreadsheet
    {
      if c in t.destinations { assert SameClient(t, c, owner); }
    }
  }

  lemma SaveKeepsInv(t: Tables, client: string, input: Fields, now: int)
    requires Inv(t)
    ensures Inv(Save(t, client, input, now))
  {
    if SaveConflict(t, client, input).None? {
      SavedKeepsRows(t, client, input, now);
      SavedKeepsLinksOk(t, client, input, now);
      var links := SavedLinks(t, client, input, now);
      forall i | 0 <= i < |links| ensures CurrentMatches(Saved(t, client, input, now), links[i]) {
        SavedKeepsCurrentMatches(t, client, input, now, i);
      }
      forall c | c in SavedContracts(t, client, input.spreadsheet)
        ensures ContractFits(Saved(t, client, input, now), c)
      {
        SavedKeepsContractFits(t, client, input, now, c);
      }
    }
  }

  // ---- The other operations keep it ----

  /** Rewriting fields other than the spreadsheet keeps every relation between the tables. */
  lemma RewriteKeepsInv(t: Tables, client: string, row: Destination)
    requires Inv(t) && client in t.destinations
    requires row.id == t.destinations[client].id && row.fields.spreadsheet == t.destinations[client].fields.spreadsheet
    ensures Inv(t.(destinations := t.destinations[client := row]))
  {
    var t' := t.(destinations := t.destinations[client := row]);
    forall c, d | c in t'.destinations && d in t'.destinations ensures SameClient(t', c, d) {
      assert SameClient(t, c, d);
    }
    forall i | 0 <= i < |t.links| ensures CurrentMatches(t', t.links[i]) {
      assert CurrentMatches(t, t.links[i]);
    }
    forall contract | contract in t.contracts ensures ContractFits(t', contract) {
      assert ContractFits(t, contract);
      var owner :| owner in t.destinations && t.destinations[owner].id == contract.destination;
      assert owner in t'.destinations && t'.destinations[owner].id == contract.destination;
    }
  }

  lemma RemoveKeepsInv(t: Tables, client: string)
    requires Inv(t) && client in t.destinations
    ensures Inv(Remove(t, client))
  {
    var t' := Remove(t, client);
    forall c, d | c in t'.destinations && d in t'.destinations ensures SameClient(t', c, d) {
      assert SameClient(t, c, d);
    }
    forall i | 0 <= i < |t.links| ensures CurrentMatches(t', t.links[i]) {
      assert CurrentMatches(t, t.links[i]);
    }
    forall contract | contract in t'.contracts ensures ContractFits(t', contract) {
      assert ContractFits(t, contract);
      var owner :| owner in t.destinations && t.destinations[owner].id == contract.destination;
      assert owner in t'.destinations && t'.destinations[owner].id == contract.destination;
    }
  }

  lemma BindKeepsInv(t: Tables, client: string, role: string)
    requires Inv(t)
    ensures Inv(Bind(t, client, role))
  {
    var t' := Bind(t, client, role);
    assert Rows(t');
    forall i | 0 <= i < |t.links| ensures CurrentMatches(t', t.links[i]) {
      assert CurrentMatches(t, t.links[i]);
    }
    forall contract | contract in t'.contracts ensures ContractFits(t', contract) {
      if contract in t.contracts {
        assert ContractFits(t, contract);
      } else {
        forall c | c in t.destinations && t.destinations[c].id == contract.destination
          ensures contract.boundTo == t.destinations[c].fields.spreadsheet
        {
          assert SameClient(t, c, client);
        }
      }
    }
  }

  lemma StepKeepsInv(t: Tables, op: Op)
    requires Inv(t)
    ensures Inv(Step(t, op))
  {
    match op {
      case DoSave(client, input, now) => SaveKeepsInv(t, client, input, now);
      case DoUpdateAccess(client, accessStatus, checkedAt, now) =>
        if client in t.destinations {
          RewriteKeepsInv(t, client, UpdateAccess(t, client, accessStatus, checkedAt, now).destinations[client]);
        }
      case DoRemove(client) =>
        if client in t.destinations { RemoveKeepsInv(t, client); }
      case DoBind(client, role) => BindKeepsInv(t, client, role);
    }
  }

  lemma {:induction false} RunKeepsInv(states: seq<Tables>, ops: seq<Op>, n: nat)
    requires IsRun(states, ops) && Inv(states[0]) && n < |states|
    ensures Inv(states[n])
  {
    if n > 0 {
      RunKeepsInv(states, ops, n - 1);
      StepKeepsInv(states[n - 1], ops[n - 1]);
    }
  }

  // ---- What every run obeys ----

  /** No spreadsheet is the destination of two clients. */
  lemma OneClientPerSpreadsheet(states: seq<Tables>, ops: seq<Op>, n: nat, c: string, d: string)
    requires IsRun(states, ops) && Inv(states[0]) && n < |states|
    requires c in states[n].destinations && d in states[n].destinations
    requires states[n].destinations[c].fields.spreadsheet == states[n].destinations[d].fields.spreadsheet
    ensures c == d
  {
    RunKeepsInv(states, ops, n);
    assert SameClient(states[n], c, d);
  }

  /** Each client has at most one current link, and a link is superseded exactly when it is not current. */
  lemma OneCurrentLink(states: seq<Tables>, ops: seq<Op>, n: nat, i: nat, j: nat)
    requires IsRun(states, ops) && Inv(states[0]) && n < |states|
    requires i < |states[n].links| && j < |states[n].links|
    ensures Disjoint(states[n].links, i, j)
    ensures states[n].links[i].supersededAt.Some? <==> states[n].links[i].status != Current
  {
    RunKeepsInv(states, ops, n);
    assert Disjoint(states[n].links, i, j);
  }

  /** A client's current link names the spreadsheet of its destination, if it has one. */
  lemma CurrentLinkNamesDestination(states: seq<Tables>, ops: seq<Op>, n: nat, i: nat)
    requires IsRun(states, ops) && Inv(states[0]) && n < |states| && i < |states[n].links|
    requires states[n].links[i].status == Current && states[n].links[i].client in states[n].destinations
    ensures states[n].links[i].spreadsheet == states[n].destinations[states[n].links[i].client].fields.spreadsheet
  {
    RunKeepsInv(states, ops, n);
    assert CurrentMatches(states[n], states[n].links[i]);
  }

  /** No tab contract outlives its destination or the spreadsheet it was bound in. */
  lemma ContractsFollowDestination(states: seq<Tables>, ops: seq<Op>, n: nat, contract: Contract)
    requires IsRun(states, ops) && Inv(states[0]) && n < |states| && contract in states[n].contracts
    ensures exists c :: && c in states[n].destinations && states[n].destinations[c].id == contract.destination
                        && states[n].destinations[c].fields.spreadsheet == contract.boundTo
  {
    RunKeepsInv(states, ops, n);
    assert ContractFits(states[n], contract);
  }

  // ---- Nothing is forgotten ----

  predicate Succeeds(t: Tables, op: Op, client: string) {
    op.DoSave? && op.client == client && SaveConflict(t, client, op.input).None?
  }

  lemma SaveKeepsLink(t: Tables, client: string, input: Fields, now: int, c: string, spreadsheet: string)
    requires HasLink(t.links, c, spreadsheet)
    ensures HasLink(SavedLinks(t, client, input, now), c, spreadsheet)
  {
    var i :| 0 <= i < |t.links| && t.links[i].client == c && t.links[i].spreadsheet == spreadsheet;
    var links := SavedLinks(t, client, input, now);
    assert links[i] == SupersededLink(t.links[i], client, input.spreadsheet, now);
  }

  /** A successful save leaves a current link to the new spreadsheet, and a link to the one it replaced. */
  lemma SaveRemembers(t: Tables, client: string, input: Fields, now: int)
    requires SaveConflict(t, client, input).None?
    ensures HasCurrent(Save(t, client, input, now).links, client, input.spreadsheet)
    ensures client in t.destinations && t.destinations[client].fields.spreadsheet != input.spreadsheet
            ==> HasLink(Save(t, client, input, now).links, client, t.destinations[client].fields.spreadsheet)
  {
    var links := SavedLinks(t, client, input, now);
    var l2 := Superseded(WithInferred(t, client, input.spreadsheet, now), client, input.spreadsheet, now);
    if !HasCurrent(l2, client, input.spreadsheet) {
      assert IsCurrent(links[|l2|], client);
    }
    if Replaces(t, client, input.spreadsheet) {
      var before := t.destinations[client].fields.spreadsheet;
      if HasLink(t.links, client, before) {
        SaveKeepsLink(t, client, input, now, client, before);
      } else {
        assert links[|t.links|].client == client && links[|t.links|].spreadsheet == before;
      }
    }
  }

  /** Links are never dropped. */
  lemma {:induction false} LinksStay(states: seq<Tables>, ops: seq<Op>, m: nat, n: nat, client: string,
      spreadsheet: string)
    requires IsRun(states, ops) && m <= n < |states| && HasLink(states[m].links, client, spreadsheet)
    ensures HasLink(states[n].links, client, spreadsheet)
  {
    if m < n {
      LinksStay(states, ops, m, n - 1, client, spreadsheet);
      var op := ops[n - 1];
      if op.DoSave? {
        SaveKeepsLink(states[n - 1], op.client, op.input, op.now, client, spreadsheet);
      }
    }
  }

  /** Another client's save does not touch a client's current link. */
  lemma OtherSaveKeepsCurrent(t: Tables, client: string, input: Fields, now: int, c: string, spreadsheet: string)
    requires HasCurrent(t.links, c, spreadsheet) && c != client
    ensures HasCurrent(SavedLinks(t, client, input, now), c, spreadsheet)
  {
    var i :| 0 <= i < |t.links| && IsCurrent(t.links[i], c) && t.links[i].spreadsheet == spreadsheet;
    var links := SavedLinks(t, client, input, now);
    assert links[i] == SupersededLink(t.links[i], client, input.spreadsheet, now);
    assert IsCurrent(links[i], c);
  }

  /** From a client's first successful save on, its destination, whenever it has one, is named by a current link. */
  lemma {:induction false} SavedDestinationIsLinked(states: seq<Tables>, ops: seq<Op>, k: nat, n: nat, client: string)
    requires IsRun(states, ops) && k < n < |states| && Succeeds(states[k], ops[k], client)
    requires client in states[n].destinations
    ensures HasCurrent(states[n].links, client, states[n].destinations[client].fields.spreadsheet)
    decreases n
  {
    var op := ops[n - 1];
    if Succeeds(states[n - 1], op, client) {
      SaveRemembers(states[n - 1], client, op.input, op.now);
    } else {
      SavedDestinationIsLinked(states, ops, k, n - 1, client);
      if op.DoSave? && op.client != client {
        OtherSaveKeepsCurrent(states[n - 1], op.client, op.input, op.now, client,
          states[n].destinations[client].fields.spreadsheet);
      }
    }
  }

  /**
   Every spreadsheet a client pointed at after its first save has a link forever, through replacements and
   deletes.
   */
  lemma NothingIsForgotten(states: seq<Tables>, ops: seq<Op>, k: nat, m: nat, n: nat, client: string)
    requires IsRun(states, ops) && k < m <= n < |states| && Succeeds(states[k], ops[k], client)
    requires client in states[m].destinations
    ensures HasLink(states[n].links, client, states[m].destinations[client].fields.spreadsheet)
  {
    SavedDestinationIsLinked(states, ops, k, m, client);
    LinksStay(states, ops, m, n, client, states[m].destinations[client].fields.spreadsheet);
  }

  /** A destination from before the links is remembered by the save that replaces it. */
  lemma ReplacedIsRemembered(states: seq<Tables>, ops: seq<Op>, k: nat, n: nat, client: string)
    requires IsRun(states, ops) && k < n < |states| && Succeeds(states[k], ops[k], client)
    requires client in states[k].destinations
    ensures HasLink(states[n].links, client, states[k].destinations[client].fields.spreadsheet)
  {
    SaveRemembers(states[k], client, ops[k].input, ops[k].now);
    var before := states[k].destinations[client].fields.spreadsheet;
    if before == ops[k].input.spreadsheet {
      var i :| 0 <= i < |states[k + 1].links| && IsCurrent(states[k + 1].links[i], client)
          && states[k + 1].links[i].spreadsheet == before;
      assert HasLink(states[k + 1].links, client, before);
    }
    LinksStay(states, ops, k + 1, n, client, before);
  }

  /** A save of `client` that names `spreadsheet`, or replaces a destination that did. */
  predicate Links(t: Tables, op: Op, client: string, spreadsheet: string) {
    && Succeeds(t, op, client)
    && (op.input.spreadsheet == spreadsheet
        || (client in t.destinations && t.destinations[client].fields.spreadsheet == spreadsheet))
  }

  lemma SavedHasLink(t: Tables, client: string, input: Fields, now: int, c: string, spreadsheet: string)
    ensures HasLink(SavedLinks(t, client, input, now), c, spreadsheet) ==>
            HasLink(t.links, c, spreadsheet)
            || (c == client && (input.spreadsheet == spreadsheet
                || (client in t.destinations && t.destinations[client].fields.spreadsheet == spreadsheet)))
  {
    var links := SavedLinks(t, client, input, now);
    if HasLink(links, c, spreadsheet) {
      var i :| 0 <= i < |links| && links[i].client == c && links[i].spreadsheet == spreadsheet;
      if i < |t.links| { assert links[i] == SupersededLink(t.links[i], client, input.spreadsheet, now); }
    }
  }

  lemma CurrentIsLink(links: seq<Link>, client: string, spreadsheet: string)
    requires HasCurrent(links, client, spreadsheet)
    ensures HasLink(links, client, spreadsheet)
  {
    var i :| 0 <= i < |links| && IsCurrent(links[i], client) && links[i].spreadsheet == spreadsheet;
    assert links[i].client == client;
  }

  lemma StepLinksExactly(t: Tables, op: Op, client: string, spreadsheet: string)
    ensures HasLink(Step(t, op).links, client, spreadsheet)
       <==> HasLink(t.links, client, spreadsheet) || Links(t, op, client, spreadsheet)
  {
    if op.DoSave? && SaveConflict(t, op.client, op.input).None? {
      SavedHasLink(t, op.client, op.input, op.now, client, spreadsheet);
      if HasLink(t.links, client, spreadsheet) { SaveKeepsLink(t, op.client, op.input, op.now, client, spreadsheet); }
      SaveRemembers(t, op.client, op.input, op.now);
      if op.client == client {
        CurrentIsLink(Step(t, op).links, client, op.input.spreadsheet);
      }
    }
  }

  /** Some save from `m` up to `n` named the spreadsheet or replaced it. */
  predicate LinkedBetween(states: seq<Tables>, ops: seq<Op>, m: nat, n: nat, client: string, spreadsheet: string)
    requires IsRun(states, ops) && m <= n < |states|
  {
    exists k | m <= k < n :: Links(states[k], ops[k], client, spreadsheet)
  }

  lemma LinkedOneLonger(states: seq<Tables>, ops: seq<Op>, m: nat, n: nat, client: string, spreadsheet: string)
    requires IsRun(states, ops) && m < n < |states|
    ensures LinkedBetween(states, ops, m, n, client, spreadsheet)
       <==> (LinkedBetween(states, ops, m, n - 1, client, spreadsheet)
             || Links(states[n - 1], ops[n - 1], client, spreadsheet))
  {
  }

  /** Exactly when a spreadsheet is remembered: it was before, or a save of the client named it or replaced it. */
  lemma {:induction false} RememberedExactly(states: seq<Tables>, ops: seq<Op>, m: nat, n: nat, client: string,
      spreadsheet: string)
    requires IsRun(states, ops) && m <= n < |states|
    ensures HasLink(states[n].links, client, spreadsheet)
       <==> HasLink(states[m].links, client, spreadsheet) || LinkedBetween(states, ops, m, n, client, spreadsheet)
  {
    if m < n {
      RememberedExactly(states, ops, m, n - 1, client, spreadsheet);
      LinkedOneLonger(states, ops, m, n, client, spreadsheet);
      StepLinksExactly(states[n - 1], ops[n - 1], client, spreadsheet);
    }
  }

  /**
   So one kind of destination can be forgotten for good: one from before the links, deleted before any
   save of its client, unless a later save names its spreadsheet again.
   */
  lemma DeletedLegacyIsForgotten(states: seq<Tables>, ops: seq<Op>, n: nat, client: string, spreadsheet: string)
    requires IsRun(states, ops) && 1 <= n < |states| && ops[0] == DoRemove(client)
    requires Legacy(states[0]) && client in states[0].destinations
    requires spreadsheet == states[0].destinations[client].fields.spreadsheet
    ensures HasLink(states[n].links, client, spreadsheet)
       <==> exists k | 1 <= k < n :: Succeeds(states[k], ops[k], client) && ops[k].input.spreadsheet == spreadsheet
  {
    RememberedExactly(states, ops, 1, n, client, spreadsheet);
    if LinkedBetween(states, ops, 1, n, client, spreadsheet) {
      var k :| 1 <= k < n && Links(states[k], ops[k], client, spreadsheet);
      if ops[k].input.spreadsheet != spreadsheet { DestinationWasSaved(states, ops, 1, k, client, spreadsheet); }
    }
    if k :| 1 <= k < n && Succeeds(states[k], ops[k], client) && ops[k].input.spreadsheet == spreadsheet {
      assert Links(states[k], ops[k], client, spreadsheet);
    }
  }

  /** A destination that was not there was brought by a save that names its spreadsheet. */
  lemma {:induction false} DestinationWasSaved(states: seq<Tables>, ops: seq<Op>, m: nat, n: nat, client: string,
      spreadsheet: string)
    requires IsRun(states, ops) && m <= n < |states| && client !in states[m].destinations
    requires client in states[n].destinations && states[n].destinations[client].fields.spreadsheet == spreadsheet
    ensures exists k | m <= k < n :: Succeeds(states[k], ops[k], client) && ops[k].input.spreadsheet == spreadsheet
  {
    if !(Succeeds(states[n - 1], ops[n - 1], client) && ops[n - 1].input.spreadsheet == spreadsheet) {
      DestinationWasSaved(states, ops, m, n - 1, client, spreadsheet);
    }
  }

  // ---- Which links are current ----

  lemma SavedCurrent(t: Tables, client: string, input: Fields, now: int, spreadsheet: string)
    requires SaveConflict(t, client, input).None?
    ensures HasCurrent(SavedLinks(t, client, input, now), client, spreadsheet) <==> spreadsheet == input.spreadsheet
  {
    SaveRemembers(t, client, input, now);
    var links := SavedLinks(t, client, input, now);
    if HasCurrent(links, client, spreadsheet) {
      var i :| 0 <= i < |links| && IsCurrent(links[i], client) && links[i].spreadsheet == spreadsheet;
      SavedLinkOrigin(t, client, input, now, i);
    }
  }

  /** The spreadsheet of the client's last successful save from `m` up to `n`. */
  function LastSaved(states: seq<Tables>, ops: seq<Op>, m: nat, n: nat, client: string): Option<string>
    requires IsRun(states, ops) && m <= n < |states|
  {
    if m == n then None
    else if Succeeds(states[n - 1], ops[n - 1], client) then Some(ops[n - 1].input.spreadsheet)
    else LastSaved(states, ops, m, n - 1, client)
  }

  lemma OtherSaveCurrent(t: Tables, client: string, input: Fields, now: int, c: string, spreadsheet: string)
    requires c != client
    ensures HasCurrent(SavedLinks(t, client, input, now), c, spreadsheet) <==> HasCurrent(t.links, c, spreadsheet)
  {
    var links := SavedLinks(t, client, input, now);
    if HasCurrent(links, c, spreadsheet) {
      var i :| 0 <= i < |links| && IsCurrent(links[i], c) && links[i].spreadsheet == spreadsheet;
      SavedLinkOrigin(t, client, input, now, i);
      assert IsCurrent(t.links[i], c);
    }
    if HasCurrent(t.links, c, spreadsheet) { OtherSaveKeepsCurrent(t, client, input, now, c, spreadsheet); }
  }

  lemma StepCurrent(t: Tables, op: Op, client: string, spreadsheet: string)
    ensures HasCurrent(Step(t, op).links, client, spreadsheet)
       <==> if Succeeds(t, op, client) then op.input.spreadsheet == spreadsheet
         else HasCurrent(t.links, client, spreadsheet)
  {
    if op.DoSave? && SaveConflict(t, op.client, op.input).None? {
      if op.client == client {
        SavedCurrent(t, client, op.input, op.now, spreadsheet);
      } else {
        OtherSaveCurrent(t, op.client, op.input, op.now, client, spreadsheet);
      }
    }
  }

  /** Exactly when a link is current: the client's last save names it, or the client saved nothing since it was. */
  lemma {:induction false} CurrentExactly(states: seq<Tables>, ops: seq<Op>, m: nat, n: nat, client: string,
      spreadsheet: string)
    requires IsRun(states, ops) && m <= n < |states|
    ensures HasCurrent(states[n].links, client, spreadsheet)
       <==> match LastSaved(states, ops, m, n, client)
            case None => HasCurrent(states[m].links, client, spreadsheet)
            case Some(last) => last == spreadsheet
  {
    if m < n {
      CurrentExactly(states, ops, m, n - 1, client, spreadsheet);
      StepCurrent(states[n - 1], ops[n - 1], client, spreadsheet);
    }
  }

  /**
   No current link of one client names a spreadsheet that is a current link of another, while both have a
   destination.
   */
  lemma CurrentIsExclusive(states: seq<Tables>, ops: seq<Op>, n: nat, i: nat, j: nat)
    requires IsRun(states, ops) && Inv(states[0]) && n < |states|
    requires i < |states[n].links| && j < |states[n].links|
    requires states[n].links[i].status == Current && states[n].links[j].status == Current
    requires states[n].links[i].spreadsheet == states[n].links[j].spreadsheet
    requires states[n].links[i].client in states[n].destinations && states[n].links[j].client in states[n].destinations
    ensures i == j
  {
    CurrentLinkNamesDestination(states, ops, n, i);
    CurrentLinkNamesDestination(states, ops, n, j);
    OneClientPerSpreadsheet(states, ops, n, states[n].links[i].client, states[n].links[j].client);
    OneCurrentLink(states, ops, n, i, j);
  }

  /**
   Without one it may: a delete leaves its client's link current, and another client may then save that
   spreadsheet.
   */
  lemma DeleteLeavesALinkCurrent(t: Tables, c: string, d: string, input: Fields, now: int)
    requires Inv(t) && c != d && c in t.destinations && HasCurrent(t.links, c, t.destinations[c].fields.spreadsheet)
    requires input.spreadsheet == t.destinations[c].fields.spreadsheet && input.creation.None?
    ensures var t' := Save(Remove(t, c), d, input, now);
            HasCurrent(t'.links, c, input.spreadsheet) && HasCurrent(t'.links, d, input.spreadsheet)
  {
    var removed := Remove(t, c);
    forall other | other in removed.destinations && other != d
      ensures removed.destinations[other].fields.spreadsheet != input.spreadsheet
    {
      assert SameClient(t, other, c);
    }
    SaveRemembers(removed, d, input, now);
    OtherSaveKeepsCurrent(removed, d, input, now, c, input.spreadsheet);
  }

  // ---- The revision counts saves ----

  function SavesOf(states: seq<Tables>, ops: seq<Op>, m: nat, n: nat, client: string): nat
    requires IsRun(states, ops) && m <= n < |states|
  {
    if m == n then 0
    else SavesOf(states, ops, m, n - 1, client) + if Succeeds(states[n - 1], ops[n - 1], client) then 1 else 0
  }

  lemma StepCountsSave(t: Tables, op: Op, client: string)
    requires client in t.destinations && op != DoRemove(client)
    ensures client in Step(t, op).destinations
    ensures var row, row' := t.destinations[client], Step(t, op).destinations[client];
            row'.id == row.id && row'.revision == row.revision + if Succeeds(t, op, client) then 1 else 0
  {
  }

  /** Between deletes, the revision grows by exactly the number of successful saves; a new row starts at 1. */
  lemma {:induction false} RevisionCountsSaves(states: seq<Tables>, ops: seq<Op>, m: nat, n: nat, client: string)
    requires IsRun(states, ops) && m <= n < |states|
    requires client in states[m].destinations
    requires forall i | m <= i < n :: ops[i] != DoRemove(client)
    ensures client in states[n].destinations
    ensures states[n].destinations[client].id == states[m].destinations[client].id
    ensures states[n].destinations[client].revision ==
        states[m].destinations[client].revision + SavesOf(states, ops, m, n, client)
  {
    if m < n {
      RevisionCountsSaves(states, ops, m, n - 1, client);
      StepCountsSave(states[n - 1], ops[n - 1], client);
    }
  }

  lemma CreationStartsAtOne(t: Tables, client: string, input: Fields, now: int)
    requires Inv(t) && client !in t.destinations && SaveConflict(t, client, input).None?
    ensures client in Save(t, client, input, now).destinations
    ensures var row := Save(t, client, input, now).destinations[client];
            && row.revision == 1
            && !row.fields.enabled
            && forall c | c in t.destinations :: t.destinations[c].id != row.id
  {
  }

  // ---- What a destination holds ----

  /** No other client's destination names the spreadsheet or the creation record. */
  predicate Free(t: Tables, client: string, input: Fields) {
    forall other | other in t.destinations && other != client ::
      && t.destinations[other].fields.spreadsheet != input.spreadsheet
      && (input.creation.Some? ==> t.destinations[other].fields.creation != input.creation)
  }

  /** Exactly when a save succeeds, and which conflict is reported otherwise. */
  lemma SaveSucceedsExactly(t: Tables, client: string, input: Fields)
    ensures SaveConflict(t, client, input) == None <==> Free(t, client, input)
    ensures SaveConflict(t, client, input) == Some(SpreadsheetBoundToOtherClient) <==>
            exists other :: && other in t.destinations && other != client
                            && t.destinations[other].fields.spreadsheet == input.spreadsheet
  {
  }

  /** A saved destination holds the input, and is never ready, delivering or enabled. */
  function AsSaved(input: Fields): Fields {
    match input
    case Fields(connection, spreadsheet, title, url, worksheetId, worksheetTitle, controlBasis, creation,
                accessStatus, accessCheckedAt, _, _, sharingStatus, recipient, _, actor) =>
      Fields(connection, spreadsheet, title, url, worksheetId, worksheetTitle, controlBasis, creation,
             accessStatus, accessCheckedAt, "not_verified", "disabled", sharingStatus, recipient, false, actor)
  }

  /** After an access check only the check's own fields differ, and it is not ready, delivering or enabled either. */
  function AsChecked(held: Fields, status: string, checkedAt: int): Fields {
    match held
    case Fields(connection, spreadsheet, title, url, worksheetId, worksheetTitle, controlBasis, creation,
                _, _, _, _, sharingStatus, recipient, _, actor) =>
      Fields(connection, spreadsheet, title, url, worksheetId, worksheetTitle, controlBasis, creation,
             status, checkedAt, "not_verified", "disabled", sharingStatus, recipient, false, actor)
  }

  function FieldsOf(t: Tables, client: string): Option<Fields> {
    if client in t.destinations then Some(t.destinations[client].fields) else None
  }

  /** What a client's destination holds, from the history: its last save and the checks since, or nothing. */
  function Expected(states: seq<Tables>, ops: seq<Op>, m: nat, n: nat, client: string): Option<Fields>
    requires IsRun(states, ops) && m <= n < |states|
  {
    if m == n then FieldsOf(states[m], client)
    else
      var before := Expected(states, ops, m, n - 1, client);
      match ops[n - 1]
      case DoSave(c, input, _) => if c == client && Free(states[n - 1], c, input) then Some(AsSaved(input)) else before
      case DoUpdateAccess(c, status, checkedAt, _) =>
        if c == client && before.Some? then Some(AsChecked(before.value, status, checkedAt)) else before
      case DoRemove(c) => if c == client then None else before
      case DoBind(_, _) => before
  }

  lemma StepFields(t: Tables, op: Op, client: string)
    ensures FieldsOf(Step(t, op), client) ==
            match op
            case DoSave(c, input, _) =>
              if c == client && Free(t, c, input) then Some(AsSaved(input)) else FieldsOf(t, client)
            case DoUpdateAccess(c, status, checkedAt, _) =>
              if c == client && client in t.destinations
              then Some(AsChecked(t.destinations[client].fields, status, checkedAt))
              else FieldsOf(t, client)
            case DoRemove(c) => if c == client then None else FieldsOf(t, client)
            case DoBind(_, _) => FieldsOf(t, client)
  {
    if op.DoSave? { SaveSucceedsExactly(t, op.client, op.input); }
  }

  lemma {:induction false} DestinationExactly(states: seq<Tables>, ops: seq<Op>, m: nat, n: nat, client: string)
    requires IsRun(states, ops) && m <= n < |states|
    ensures FieldsOf(states[n], client) == Expected(states, ops, m, n, client)
  {
    if m < n {
      DestinationExactly(states, ops, m, n - 1, client);
      StepFields(states[n - 1], ops[n - 1], client);
    }
  }

  // ---- What a link and a contract are worth ----

  /** A link keeps everything but its status, and is superseded at the instant of the save that replaces it. */
  predicate Aged(before: Link, after: Link, client: string, spreadsheet: string, now: int) {
    match after
    case Link(c, sheet, title, url, status, recordedAt, supersededAt) =>
      && c == before.client && sheet == before.spreadsheet && title == before.title && url == before.url
      && recordedAt == before.recordedAt
      && if before.client == client && before.status == Current && before.spreadsheet != spreadsheet
         then status == Previous && supersededAt == Some(now)
         else status == before.status && supersededAt == before.supersededAt
  }

  /** Every link of a save: the old ones aged, then the replaced spreadsheet's and the new one's, as they were known. */
  lemma SaveLinksExactly(t: Tables, client: string, input: Fields, now: int, i: nat)
    requires SaveConflict(t, client, input).None? && i < |Save(t, client, input, now).links|
    ensures |t.links| <= |Save(t, client, input, now).links| <= |t.links| + 2
    ensures var link := Save(t, client, input, now).links[i];
            || (i < |t.links| && Aged(t.links[i], link, client, input.spreadsheet, now))
            || (i >= |t.links| && link == Link(client, input.spreadsheet, input.title, input.url, Current, now, None))
            || (i >= |t.links| && Replaces(t, client, input.spreadsheet)
                && var row := t.destinations[client];
                   link == Link(client, row.fields.spreadsheet, row.fields.title, row.fields.url, Inferred,
                                row.updatedAt, Some(now)))
  {
  }

  /** A write that ends the contracts of a client's destination: a delete, or a save onto another spreadsheet. */
  predicate Ends(t: Tables, op: Op, client: string) {
    || op == DoRemove(client)
    || (op.DoSave? && op.client == client && Free(t, client, op.input) && Replaces(t, client, op.input.spreadsheet))
  }

  lemma SaveContract(t: Tables, saver: string, input: Fields, now: int, client: string, contract: Contract)
    requires client in t.destinations && t.destinations[client].id == contract.destination && contract in t.contracts
    requires saver != client && saver in t.destinations ==> t.destinations[saver].id != contract.destination
    ensures var after := Save(t, saver, input, now);
      && (contract in after.contracts
          <==> !(saver == client && Free(t, client, input) && Replaces(t, client, input.spreadsheet)))
      && client in after.destinations && after.destinations[client].id == contract.destination
  {
    SaveSucceedsExactly(t, saver, input);
  }

  lemma StepContract(t: Tables, op: Op, client: string, contract: Contract)
    requires Inv(t) && client in t.destinations && t.destinations[client].id == contract.destination
    requires contract in t.contracts
    ensures contract in Step(t, op).contracts <==> !Ends(t, op, client)
    ensures !Ends(t, op, client) ==>
            client in Step(t, op).destinations && Step(t, op).destinations[client].id == contract.destination
  {
    if op.client != client && op.client in t.destinations { assert SameClient(t, client, op.client); }
    if op.DoSave? { SaveContract(t, op.client, op.input, op.now, client, contract); }
  }

  predicate NothingEnds(states: seq<Tables>, ops: seq<Op>, m: nat, n: nat, client: string)
    requires IsRun(states, ops) && m <= n < |states|
  {
    forall k | m <= k < n :: !Ends(states[k], ops[k], client)
  }

  lemma {:induction false} ContractStays(
      states: seq<Tables>, ops: seq<Op>, m: nat, n: nat, client: string, contract: Contract)
    requires IsRun(states, ops) && Inv(states[0]) && m <= n < |states|
    requires client in states[m].destinations && states[m].destinations[client].id == contract.destination
    requires contract in states[m].contracts && NothingEnds(states, ops, m, n, client)
    ensures contract in states[n].contracts
    ensures client in states[n].destinations && states[n].destinations[client].id == contract.destination
  {
    if m < n {
      ContractStays(states, ops, m, n - 1, client, contract);
      RunKeepsInv(states, ops, n - 1);
      StepContract(states[n - 1], ops[n - 1], client, contract);
    }
  }

  /** A tab contract lives exactly as long as no delete and no save onto another spreadsheet ends it. */
  lemma ContractLivesExactly(
      states: seq<Tables>, ops: seq<Op>, m: nat, n: nat, client: string, contract: Contract)
    requires IsRun(states, ops) && Inv(states[0]) && m <= n < |states|
    requires client in states[m].destinations && states[m].destinations[client].id == contract.destination
    requires contract in states[m].contracts
    ensures (forall k | m <= k <= n :: contract in states[k].contracts)
       <==> forall k | m <= k < n :: !Ends(states[k], ops[k], client)
    ensures (forall k | m <= k < n :: !Ends(states[k], ops[k], client)) ==>
            client in states[n].destinations && states[n].destinations[client].id == contract.destination
  {
    if NothingEnds(states, ops, m, n, client) {
      forall k | m <= k <= n ensures contract in states[k].contracts {
        ContractStays(states, ops, m, k, client, contract);
      }
      ContractStays(states, ops, m, n, client, contract);
    } else {
      var k := FirstEnd(states, ops, m, n, client);
      ContractStays(states, ops, m, k, client, contract);
      RunKeepsInv(states, ops, k);
      StepContract(states[k], ops[k], client, contract);
      assert contract !in states[k + 1].contracts;
    }
  }

  lemma {:induction false} FirstEnd(states: seq<Tables>, ops: seq<Op>, m: nat, n: nat, client: string) returns (k: nat)
    requires IsRun(states, ops) && m <= n < |states| && !NothingEnds(states, ops, m, n, client)
    ensures m <= k < n && Ends(states[k], ops[k], client) && NothingEnds(states, ops, m, k, client)
  {
    if NothingEnds(states, ops, m, n - 1, client) {
      k := n - 1;
    } else {
      k := FirstEnd(states, ops, m, n - 1, client);
    }
  }

  // ---- The stored tables, updated in place ----

  class Database {
    var destinations: map<string, Destination>
    var links: seq<Link>
    var contracts: set<Contract>
    var nextId: nat

    function Value(): Tables
      reads this
    {
      Tables(destinations, links, contracts, nextId)
    }

    constructor (t: Tables)
      ensures Value() == t
    {
      destinations, links, contracts, nextId := t.destinations, t.links, t.contracts, t.nextId;
    }

    method SupersedeOthers(client: string, spreadsheet: string, now: int)
      modifies this`links
      ensures links == Superseded(old(links), client, spreadsheet, now)
    {
      for i := 0 to |links|
        invariant |links| == |old(links)|
        invariant forall j | 0 <= j < i :: links[j] == SupersededLink(old(links)[j], client, spreadsheet, now)
        invariant forall j | i <= j < |links| :: links[j] == old(links)[j]
      {
        if IsCurrent(links[i], client) && links[i].spreadsheet != spreadsheet {
          links := links[i := links[i].(status := Previous, supersededAt := Some(now))];
        }
      }
    }

    /**
     A save onto another spreadsheet: the old contracts go, and the old spreadsheet gets an inferred link if it
     has none.
     */
    method LeaveReplaced(client: string, spreadsheet: string, now: int)
      modifies this`links, this`contracts
      ensures links == WithInferred(old(Value()), client, spreadsheet, now)
      ensures contracts == SavedContracts(old(Value()), client, spreadsheet)
    {
      if client in destinations && destinations[client].fields.spreadsheet != spreadsheet {
        var existing := destinations[client];
        contracts := set c | c in contracts && c.destination != existing.id;
        if !HasLink(links, client, existing.fields.spreadsheet) {
          links := links + [Link(client, existing.fields.spreadsheet, existing.fields.title, existing.fields.url,
                                 Inferred, existing.updatedAt, Some(now))];
        }
      }
    }

    /** The transaction of a save: everything it wrote is taken back when the creation record is already used. */
    method SaveDestination(client: string, input: Fields, now: int) returns (result: Result<Destination, Conflict>)
      modifies this
      ensures Value() == Save(old(Value()), client, input, now)
      ensures match SaveConflict(old(Value()), client, input)
              case Some(conflict) => result == Err(conflict)
              case None => client in destinations && result == Ok(destinations[client])
    {
      if BoundElsewhere(Value(), client, input.spreadsheet) {
        return Err(SpreadsheetBoundToOtherClient);
      }
      var savedLinks, savedContracts := links, contracts;
      LeaveReplaced(client, input.spreadsheet, now);
      SupersedeOthers(client, input.spreadsheet, now);
      if !HasCurrent(links, client, input.spreadsheet) {
        links := links + [Link(client, input.spreadsheet, input.title, input.url, Current, now, None)];
      }
      if CreationTaken(Value(), client, input.creation) {
        links, contracts := savedLinks, savedContracts;
        return Err(DestinationConflict);
      }
      if client in destinations {
        var existing := destinations[client];
        destinations := destinations[client := Destination(existing.id, Written(input), existing.revision + 1, now)];
      } else {
        destinations := destinations[client := Destination(nextId, Written(input), 1, now)];
        nextId := nextId + 1;
      }
      result := Ok(destinations[client]);
    }

    method UpdateAccessStatus(client: string, accessStatus: string, checkedAt: int, now: int)
        returns (row: Option<Destination>)
      modifies this`destinations
      ensures Value() == UpdateAccess(old(Value()), client, accessStatus, checkedAt, now)
      ensures row == if client in destinations then Some(destinations[client]) else None
    {
      if client !in destinations {
        return None;
      }
      var existing := destinations[client];
      destinations := destinations[client := existing.(
        fields := existing.fields.(accessStatus := accessStatus, accessCheckedAt := checkedAt,
                                   writeReadiness := "not_verified", deliveryExecution := "disabled", enabled := false),
        updatedAt := now)];
      row := Some(destinations[client]);
    }

    method DeleteDestination(client: string) returns (deleted: bool)
      modifies this
      ensures Value() == Remove(old(Value()), client)
      ensures deleted == (client in old(destinations))
    {
      if client !in destinations {
        return false;
      }
      var id := destinations[client].id;
      contracts := set c | c in contracts && c.destination != id;
      destinations := destinations - {client};
      deleted := true;
    }
  }
}
