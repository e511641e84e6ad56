/**
 The paired clients of one node and the epochs they have used: what each locked section of the
 pairing service does to them. Checks made outside the file - signatures, device-removal review,
 open pairing windows - only ever refuse, so an operation here is one that passed them.
 */
module Roster {
  import opened Common

  type ClientId = string

  datatype Scope = Read | Receive | Spend | Admin | Identity | Credential | FrontDoor

  const GRANTABLE: set<Scope> := {Spend, FrontDoor}
  const DEFAULT_SCOPES: set<Scope> := {Read, Receive}
  const BOOTSTRAP_SCOPES: set<Scope> := {Read, Receive, Identity}

  /** A paired client; its id is derived from its public key, so the key is not repeated. */
  datatype Client = Client(id: ClientId, scopes: set<Scope>, epoch: nat, identity: string,
                           transport: Option<string>, createdAt: int, lastSeen: Option<int>)

  /** `lastEpoch` outlives the records: the highest epoch ever assigned to an id. */
  datatype Roster = Roster(clients: seq<Client>, lastEpoch: map<ClientId, nat>)

  function Find(cs: seq<Client>, id: ClientId): Option<Client> {
    if cs == [] then None else if cs[0].id == id then Some(cs[0]) else Find(cs[1..], id)
  }

  function Without(cs: seq<Client>, id: ClientId): seq<Client> {
    if cs == [] then [] else if cs[0].id == id then Without(cs[1..], id) else [cs[0]] + Without(cs[1..], id)
  }

  function WithoutAll(cs: seq<Client>, ids: set<ClientId>): seq<Client> {
    if cs == [] then [] else if cs[0].id in ids then WithoutAll(cs[1..], ids) else [cs[0]] + WithoutAll(cs[1..], ids)
  }

  /** Replaces the first record carrying `r`'s id. */
  function Put(cs: seq<Client>, r: Client): seq<Client> {
    if cs == [] then [] else if cs[0].id == r.id then [r] + cs[1..] else [cs[0]] + Put(cs[1..], r)
  }

  function Rebound(cs: seq<Client>, identity: string): seq<Client> {
    if cs == [] then [] else [cs[0].(identity := identity, scopes := DEFAULT_SCOPES)] + Rebound(cs[1..], identity)
  }

  function Last(f: Roster, id: ClientId): nat { if id in f.lastEpoch then f.lastEpoch[id] else 0 }

  function Epoch(f: Roster, id: ClientId): nat {
    match Find(f.clients, id) case Some(r) => r.epoch case None => 0
  }

  /** The highest epoch this roster remembers for `id`. */
  function Mark(f: Roster, id: ClientId): nat { if Epoch(f, id) > Last(f, id) then Epoch(f, id) else Last(f, id) }

  // ---- Operations ----

  datatype PairOp =
    | Confirm(id: ClientId, scopes: set<Scope>, now: int)
    | RemotePair(id: ClientId, wire: string, now: int)
    | BootstrapPair(id: ClientId, wire: string, now: int)
    | EnrollSecond(id: ClientId, wire: string, now: int)
    | PromoteSecond(id: ClientId)
    | DropProvisional(id: ClientId)
    | Bump(id: ClientId)
    | Revoke(id: ClientId)
    | ConsoleRevoke(ids: set<ClientId>, owners: set<ClientId>)
    | Rotate(id: ClientId, to: ClientId)
    | Rebind(identity: string)
    | Touch(id: ClientId, now: int)

  /**
   `Refuse` and `Agree` write nothing; `Refuse` may still have touched memory. `Commit` is written,
   and undone in memory when the write fails only if `rollback` says so.
   */
  datatype Edit = Refuse(roster: Roster) | Agree(roster: Roster) | Commit(roster: Roster, rollback: bool)

  predicate WireTaken(f: Roster, wire: string, id: ClientId) {
    exists c :: c in f.clients && c.transport == Some(wire) && c.id != id
  }

  function Enrolled(f: Roster, r: Client): Roster {
    Roster(f.clients + [r], f.lastEpoch[r.id := r.epoch])
  }

  function DoConfirm(f: Roster, bound: string, id: ClientId, scopes: set<Scope>, now: int): Edit {
    var mark := Mark(f, id);
    if Identity in scopes && bound != "" then Refuse(f)
    else if mark >= U64_MAX then Refuse(f.(lastEpoch := f.lastEpoch[id := mark]))
    else Commit(Enrolled(f.(clients := Without(f.clients, id)),
                         Client(id, scopes, mark + 1, bound, None, now, None)), false)
  }

  function DoRemotePair(f: Roster, bound: string, id: ClientId, wire: string, now: int): Edit {
    var known := Find(f.clients, id);
    if WireTaken(f, wire, id) || bound == "" then Refuse(f)
    else if known.Some? then
      var r := known.value;
      if r.identity != bound then Refuse(f)
      else if r.transport == Some(wire) then Agree(f)
      else if r.transport.Some? then Refuse(f)
      else Commit(f.(clients := Put(f.clients, r.(transport := Some(wire)))), true)
    else if Last(f, id) >= U64_MAX then Refuse(f)
    else Commit(Enrolled(f, Client(id, DEFAULT_SCOPES, Last(f, id) + 1, bound, Some(wire), now, None)), true)
  }

  function DoBootstrapPair(f: Roster, bound: string, id: ClientId, wire: string, now: int): Edit {
    if bound != "" || f.clients != [] || Last(f, id) >= U64_MAX then Refuse(f)
    else Commit(Enrolled(f, Client(id, BOOTSTRAP_SCOPES, Last(f, id) + 1, "", Some(wire), now, None)), true)
  }

  /** A second device enrolls with no scopes; the owner's approval later gives it the default ones. */
  function DoEnrollSecond(f: Roster, bound: string, id: ClientId, wire: string, now: int): Edit {
    if bound == "" || Find(f.clients, id).Some? || WireTaken(f, wire, id) || Last(f, id) >= U64_MAX
    then Refuse(f)
    else Commit(Enrolled(f, Client(id, {}, Last(f, id) + 1, bound, Some(wire), now, None)), true)
  }

  function DoPromote(f: Roster, id: ClientId): Edit {
    match Find(f.clients, id)
    case Some(r) =>
      if r.scopes == {} then Commit(f.(clients := Put(f.clients, r.(scopes := DEFAULT_SCOPES))), true) else Refuse(f)
    case None => Refuse(f)
  }

  function DoDropProvisional(f: Roster, id: ClientId): Edit {
    match Find(f.clients, id)
    case Some(r) => if r.scopes == {} then Commit(f.(clients := Without(f.clients, id)), true) else Refuse(f)
    case None => Refuse(f)
  }

  /** `bump_epoch` adds without a check, so the epoch wraps at 64 bits. */
  function DoBump(f: Roster, id: ClientId): Edit {
    match Find(f.clients, id)
    case Some(r) =>
      var epoch := if r.epoch >= U64_MAX then 0 else r.epoch + 1;
      Commit(Roster(Put(f.clients, r.(epoch := epoch)), f.lastEpoch[id := epoch]), false)
    case None => Refuse(f)
  }

  function DoRevoke(f: Roster, id: ClientId): Edit {
    if Find(f.clients, id).None? then Refuse(f)
    else Commit(Roster(Without(f.clients, id), f.lastEpoch[id := Mark(f, id)]), false)
  }

  /** The history once the records of these clients are folded into it. */
  function Remembered(f: Roster, ids: set<ClientId>): map<ClientId, nat> {
    var recorded := set x | x in ids && Find(f.clients, x).Some?;
    map x | x in f.lastEpoch.Keys + recorded :: if x in ids then Mark(f, x) else f.lastEpoch[x]
  }

  /** The owner console removes several pairings at once; each keeps its history. */
  function DoConsoleRevoke(f: Roster, ids: set<ClientId>): Edit {
    Commit(Roster(WithoutAll(f.clients, ids), Remembered(f, ids)), true)
  }

  function DoRotate(f: Roster, id: ClientId, to: ClientId): Edit {
    match Find(f.clients, id)
    case Some(r) =>
      var top := Max(r.epoch, Mark(f, to));
      if r.scopes == {} || top >= U64_MAX then Refuse(f)
      else Commit(Roster(Without(Without(f.clients, id), to) + [r.(id := to, transport := None, epoch := top + 1)],
                         f.lastEpoch[id := Mark(f, id)][to := top + 1]), false)
    case None => Refuse(f)
  }

  function DoTouch(f: Roster, id: ClientId, now: int): Edit {
    match Find(f.clients, id)
    case Some(r) => Commit(f.(clients := Put(f.clients, r.(lastSeen := Some(now)))), false)
    case None => Refuse(f)
  }

  function EditOf(f: Roster, bound: string, o: PairOp): Edit {
    match o
    case Confirm(id, scopes, now) => DoConfirm(f, bound, id, scopes, now)
    case RemotePair(id, wire, now) => DoRemotePair(f, bound, id, wire, now)
    case BootstrapPair(id, wire, now) => DoBootstrapPair(f, bound, id, wire, now)
    case EnrollSecond(id, wire, now) => DoEnrollSecond(f, bound, id, wire, now)
    case PromoteSecond(id) => DoPromote(f, id)
    case DropProvisional(id) => DoDropProvisional(f, id)
    case Bump(id) => DoBump(f, id)
    case Revoke(id) => DoRevoke(f, id)
    case ConsoleRevoke(ids, _) => DoConsoleRevoke(f, ids)
    case Rotate(id, to) => DoRotate(f, id, to)
    case Rebind(identity) => Commit(f.(clients := Rebound(f.clients, identity)), false)
    case Touch(id, now) => DoTouch(f, id, now)
  }

  // ---- Reading a record after an edit ----

  lemma {:induction false} FindWithout(cs: seq<Client>, id: ClientId, x: ClientId)
    ensures Find(Without(cs, id), x) == if x == id then None else Find(cs, x)
  {
    if cs != [] { FindWithout(cs[1..], id, x); }
  }

  lemma {:induction false} FindWithoutAll(cs: seq<Client>, ids: set<ClientId>, x: ClientId)
    ensures Find(WithoutAll(cs, ids), x) == if x in ids then None else Find(cs, x)
  {
    if cs != [] { FindWithoutAll(cs[1..], ids, x); }
  }

  lemma {:induction false} FindAppend(cs: seq<Client>, r: Client, x: ClientId)
    ensures Find(cs + [r], x) == if Find(cs, x).None? && x == r.id then Some(r) else Find(cs, x)
  {
    if cs != [] {
      FindAppend(cs[1..], r, x);
      assert (cs + [r])[1..] == cs[1..] + [r];
    }
  }

  lemma {:induction false} FindPut(cs: seq<Client>, r: Client, x: ClientId)
    ensures Find(Put(cs, r), x) == if x == r.id && Find(cs, x).Some? then Some(r) else Find(cs, x)
  {
    if cs != [] { FindPut(cs[1..], r, x); }
  }

  lemma {:induction false} FindRebound(cs: seq<Client>, identity: string, x: ClientId)
    ensures Find(Rebound(cs, identity), x)
         == match Find(cs, x)
            case Some(r) => Some(r.(identity := identity, scopes := DEFAULT_SCOPES))
            case None => None
  {
    if cs != [] { FindRebound(cs[1..], identity, x); }
  }

  lemma {:induction false} FindId(cs: seq<Client>, x: ClientId)
    ensures Find(cs, x).Some? ==> Find(cs, x).value.id == x && Find(cs, x).value in cs
  {
    if cs != [] { FindId(cs[1..], x); }
  }

  // ---- Epochs ----

  /** A live record is never behind its history, and a provisional one is exactly in step with it. */
  predicate InStep(f: Roster, x: ClientId) {
    var r := Find(f.clients, x);
    r.Some? ==> r.value.epoch >= Last(f, x) && (r.value.scopes == {} ==> r.value.epoch == Last(f, x))
  }

  /** No record of `x` now, or ever created from this roster, has an epoch of at most `b`. */
  predicate Beyond(f: Roster, x: ClientId, b: nat) {
    match Find(f.clients, x) case Some(r) => r.epoch > b case None => Last(f, x) >= b
  }

  /** What an edit must leave behind for one client. */
  predicate Advances(f: Roster, g: Roster, x: ClientId, b: nat) {
    InStep(g, x) && Mark(g, x) >= Mark(f, x) && (Beyond(f, x, b) ==> Beyond(g, x, b))
  }

  /** The operations after which no earlier token of `x` may be honoured. */
  predicate Retires(o: PairOp, x: ClientId) {
    match o
    case Bump(id) => id == x
    case Revoke(id) => id == x
    case ConsoleRevoke(ids, _) => x in ids
    case Rotate(id, to) => id == x || to == x
    case Confirm(id, _, _) => id == x
    case _ => false
  }

  lemma ConfirmAdvances(f: Roster, bound: string, id: ClientId, scopes: set<Scope>, now: int, x: ClientId, b: nat)
    requires InStep(f, x)
    ensures var e := DoConfirm(f, bound, id, scopes, now);
            Advances(f, e.roster, x, b) && (e.Commit? && x == id ==> Beyond(e.roster, x, Mark(f, x)))
  {
    FindWithout(f.clients, id, x);
    FindAppend(Without(f.clients, id), Client(id, scopes, Mark(f, id) + 1, bound, None, now, None), x);
  }

  /** A new record at the next epoch. */
  lemma EnrolledAdvances(f: Roster, r: Client, x: ClientId, b: nat)
    requires InStep(f, x) && Find(f.clients, r.id).None? && r.epoch == Last(f, r.id) + 1
    ensures Advances(f, Enrolled(f, r), x, b)
  {
    FindAppend(f.clients, r, x);
  }

  /** A record edited in place at the same epoch. */
  lemma PutAdvances(f: Roster, r: Client, x: ClientId, b: nat)
    requires InStep(f, x) && Find(f.clients, r.id).Some?
    requires r.epoch == Epoch(f, r.id) && (r.scopes == {} ==> Find(f.clients, r.id).value.scopes == {})
    ensures Advances(f, f.(clients := Put(f.clients, r)), x, b)
  {
    FindPut(f.clients, r, x);
  }

  lemma RemotePairAdvances(f: Roster, bound: string, id: ClientId, wire: string, now: int, x: ClientId, b: nat)
    requires InStep(f, x)
    ensures Advances(f, DoRemotePair(f, bound, id, wire, now).roster, x, b)
  {
    FindId(f.clients, id);
    if Find(f.clients, id).Some? {
      PutAdvances(f, Find(f.clients, id).value.(transport := Some(wire)), x, b);
    } else {
      EnrolledAdvances(f, Client(id, DEFAULT_SCOPES, Last(f, id) + 1, bound, Some(wire), now, None), x, b);
    }
  }

  lemma RemovalAdvances(f: Roster, id: ClientId, x: ClientId, b: nat)
    requires InStep(f, x)
    ensures Advances(f, DoDropProvisional(f, id).roster, x, b)
    ensures var e := DoRevoke(f, id);
            Advances(f, e.roster, x, b) && (e.Commit? && x == id ==> Beyond(e.roster, x, Mark(f, x)))
  {
    FindWithout(f.clients, id, x);
  }

  lemma ConsoleRevokeAdvances(f: Roster, ids: set<ClientId>, x: ClientId, b: nat)
    requires InStep(f, x)
    ensures var e := DoConsoleRevoke(f, ids);
            Advances(f, e.roster, x, b) && (x in ids ==> Beyond(e.roster, x, Mark(f, x)))
  {
    FindWithoutAll(f.clients, ids, x);
  }

  lemma ReboundAdvances(f: Roster, identity: string, x: ClientId, b: nat)
    requires InStep(f, x)
    ensures Advances(f, f.(clients := Rebound(f.clients, identity)), x, b)
  {
    FindRebound(f.clients, identity, x);
  }

  lemma BumpAdvances(f: Roster, id: ClientId, x: ClientId, b: nat)
    requires InStep(f, x) && Epoch(f, id) < U64_MAX
    ensures var e := DoBump(f, id);
            Advances(f, e.roster, x, b) && (e.Commit? && x == id ==> Beyond(e.roster, x, Mark(f, x)))
  {
    FindId(f.clients, id);
    if Find(f.clients, id).Some? {
      var r := Find(f.clients, id).value;
      FindPut(f.clients, r.(epoch := r.epoch + 1), x);
    }
  }

  /** A bump retires what came before it exactly when the epoch has not reached its last 64-bit value. */
  lemma BumpRetiresIff(f: Roster, id: ClientId)
    requires Find(f.clients, id).Some? && InStep(f, id)
    ensures Beyond(DoBump(f, id).roster, id, Mark(f, id)) <==> Epoch(f, id) < U64_MAX
  {
    FindId(f.clients, id);
    var r := Find(f.clients, id).value;
    FindPut(f.clients, r.(epoch := if r.epoch >= U64_MAX then 0 else r.epoch + 1), id);
  }

  /** A record at the last epoch: a bump takes it back to zero and retires nothing. */
  lemma BumpCanWrap()
    ensures var f := Roster([Client("c", DEFAULT_SCOPES, U64_MAX, "", None, 0, None)], map["c" := U64_MAX]);
            && InStep(f, "c") && Epoch(DoBump(f, "c").roster, "c") == 0
            && !Beyond(DoBump(f, "c").roster, "c", U64_MAX)
  {
    var f := Roster([Client("c", DEFAULT_SCOPES, U64_MAX, "", None, 0, None)], map["c" := U64_MAX]);
    BumpRetiresIff(f, "c");
    FindPut(f.clients, f.clients[0].(epoch := 0), "c");
  }

  lemma RotateAdvances(f: Roster, id: ClientId, to: ClientId, x: ClientId, b: nat)
    requires InStep(f, x)
    ensures var e := DoRotate(f, id, to);
            Advances(f, e.roster, x, b) && (e.Commit? && (x == id || x == to) ==> Beyond(e.roster, x, Mark(f, x)))
  {
    FindWithout(f.clients, id, x);
    FindWithout(Without(f.clients, id), to, x);
    if Find(f.clients, id).Some? {
      var r := Find(f.clients, id).value;
      FindAppend(Without(Without(f.clients, id), to),
                 r.(id := to, transport := None, epoch := Max(r.epoch, Mark(f, to)) + 1), x);
    }
  }

  lemma BootstrapPairAdvances(f: Roster, bound: string, id: ClientId, wire: string, now: int, x: ClientId, b: nat)
    requires InStep(f, x)
    ensures Advances(f, DoBootstrapPair(f, bound, id, wire, now).roster, x, b)
  {
    if f.clients == [] {
      EnrolledAdvances(f, Client(id, BOOTSTRAP_SCOPES, Last(f, id) + 1, "", Some(wire), now, None), x, b);
    }
  }

  lemma EnrollSecondAdvances(f: Roster, bound: string, id: ClientId, wire: string, now: int, x: ClientId, b: nat)
    requires InStep(f, x)
    ensures Advances(f, DoEnrollSecond(f, bound, id, wire, now).roster, x, b)
  {
    if Find(f.clients, id).None? {
      EnrolledAdvances(f, Client(id, {}, Last(f, id) + 1, bound, Some(wire), now, None), x, b);
    }
  }

  /** Promotion and use both edit a record at its own epoch. */
  lemma InPlaceAdvances(f: Roster, id: ClientId, now: int, x: ClientId, b: nat)
    requires InStep(f, x)
    ensures Advances(f, DoPromote(f, id).roster, x, b) && Advances(f, DoTouch(f, id, now).roster, x, b)
  {
    FindId(f.clients, id);
    if Find(f.clients, id).Some? {
      PutAdvances(f, Find(f.clients, id).value.(scopes := DEFAULT_SCOPES), x, b);
      PutAdvances(f, Find(f.clients, id).value.(lastSeen := Some(now)), x, b);
    }
  }

  /** Every edit advances every client: no history is lost, and a retired epoch stays retired. */
  lemma EditAdvances(f: Roster, bound: string, o: PairOp, x: ClientId, b: nat)
    requires InStep(f, x) && (o.Bump? ==> Epoch(f, o.id) < U64_MAX)
    ensures var e := EditOf(f, bound, o);
            Advances(f, e.roster, x, b) && (e.Commit? && Retires(o, x) ==> Beyond(e.roster, x, Mark(f, x)))
  {
    hide Mark, Beyond, InStep, Advances, Without, Put, DoConfirm, DoRemotePair, DoBootstrapPair, DoEnrollSecond,
         DoPromote, DoDropProvisional, DoBump, DoRevoke, DoConsoleRevoke, DoRotate, DoTouch;
    match o
    case Confirm(id, scopes, now) => ConfirmAdvances(f, bound, id, scopes, now, x, b);
    case RemotePair(id, wire, now) => RemotePairAdvances(f, bound, id, wire, now, x, b);
    case BootstrapPair(id, wire, now) => BootstrapPairAdvances(f, bound, id, wire, now, x, b);
    case EnrollSecond(id, wire, now) => EnrollSecondAdvances(f, bound, id, wire, now, x, b);
    case PromoteSecond(id) => InPlaceAdvances(f, id, 0, x, b);
    case DropProvisional(id) => RemovalAdvances(f, id, x, b);
    case Bump(id) => BumpAdvances(f, id, x, b);
    case Revoke(id) => RemovalAdvances(f, id, x, b);
    case ConsoleRevoke(ids, _) => ConsoleRevokeAdvances(f, ids, x, b);
    case Rotate(id, to) => RotateAdvances(f, id, to, x, b);
    case Rebind(identity) => ReboundAdvances(f, identity, x, b);
    case Touch(id, now) => InPlaceAdvances(f, id, now, x, b);
  }

  // ---- First-run authority ----

  /** A record stamped with an identity does not carry the authority to replace one. */
  predicate Stripped(c: Client) { c.identity != "" ==> Identity !in c.scopes }

  predicate AllStripped(cs: seq<Client>) { forall c :: c in cs ==> Stripped(c) }

  lemma {:induction false} WithoutStripped(cs: seq<Client>, id: ClientId)
    requires AllStripped(cs)
    ensures AllStripped(Without(cs, id))
  {
    if cs != [] {
      assert AllStripped(cs[1..]);
      WithoutStripped(cs[1..], id);
    }
  }

  lemma {:induction false} WithoutAllStripped(cs: seq<Client>, ids: set<ClientId>)
    requires AllStripped(cs)
    ensures AllStripped(WithoutAll(cs, ids))
  {
    if cs != [] {
      assert AllStripped(cs[1..]);
      WithoutAllStripped(cs[1..], ids);
    }
  }

  lemma {:induction false} PutStripped(cs: seq<Client>, r: Client)
    requires AllStripped(cs) && Stripped(r)
    ensures AllStripped(Put(cs, r))
  {
    if cs != [] {
      assert AllStripped(cs[1..]);
      PutStripped(cs[1..], r);
    }
  }

  lemma {:induction false} ReboundStripped(cs: seq<Client>, identity: string)
    ensures AllStripped(Rebound(cs, identity))
  {
    if cs != [] { ReboundStripped(cs[1..], identity); }
  }

  lemma FoundStripped(cs: seq<Client>, id: ClientId)
    requires AllStripped(cs)
    ensures Find(cs, id).Some? ==> Stripped(Find(cs, id).value)
  {
    FindId(cs, id);
  }

  /** No edit ever lets a record keep first-run authority once an identity is stamped on it. */
  lemma EditStrips(f: Roster, bound: string, o: PairOp)
    requires AllStripped(f.clients)
    ensures AllStripped(EditOf(f, bound, o).roster.clients)
  {
    match o
    case Confirm(id, scopes, now) => WithoutStripped(f.clients, id);
    case RemotePair(id, wire, now) =>
      FoundStripped(f.clients, id);
      if Find(f.clients, id).Some? { PutStripped(f.clients, Find(f.clients, id).value.(transport := Some(wire))); }
    case BootstrapPair(_, _, _) =>
    case EnrollSecond(_, _, _) =>
    case PromoteSecond(id) =>
      if Find(f.clients, id).Some? { PutStripped(f.clients, Find(f.clients, id).value.(scopes := DEFAULT_SCOPES)); }
    case DropProvisional(id) => WithoutStripped(f.clients, id);
    case Bump(id) =>
      FoundStripped(f.clients, id);
      if Find(f.clients, id).Some? {
        var r := Find(f.clients, id).value;
        PutStripped(f.clients, r.(epoch := if r.epoch >= U64_MAX then 0 else r.epoch + 1));
      }
    case Revoke(id) => WithoutStripped(f.clients, id);
    case ConsoleRevoke(ids, _) => WithoutAllStripped(f.clients, ids);
    case Rotate(id, to) =>
      FoundStripped(f.clients, id);
      WithoutStripped(f.clients, id);
      WithoutStripped(Without(f.clients, id), to);
    case Rebind(identity) => ReboundStripped(f.clients, identity);
    case Touch(id, now) =>
      FoundStripped(f.clients, id);
      if Find(f.clients, id).Some? { PutStripped(f.clients, Find(f.clients, id).value.(lastSeen := Some(now))); }
  }
}
