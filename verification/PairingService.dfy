/**
 The pairing service itself: the fields under its lock, and methods that edit them in place,
 write the file and roll back or keep the edit. Each method is one step of the ledger machine.
 */
module PairingService {
  import opened Common
  import opened SpendBudget
  import opened Roster
  import opened GrantBook
  import opened PairingLedger
  import opened PairingStore

  lemma {:induction false} FindAt(cs: seq<Client>, id: ClientId, i: nat)
    requires i <= |cs| && (forall j :: 0 <= j < i ==> cs[j].id != id)
    ensures i == |cs| ==> Find(cs, id) == None
    ensures i < |cs| && cs[i].id == id ==> Find(cs, id) == Some(cs[i])
    ensures i < |cs| && cs[i].id == id ==> forall r: Client :: r.id == id ==> cs[i := r] == Put(cs, r)
  {
    if i > 0 {
      FindAt(cs[1..], id, i - 1);
      if i < |cs| && cs[i].id == id {
        forall r: Client | r.id == id ensures cs[i := r] == Put(cs, r) {
          assert cs[1..][i - 1 := r] == cs[i := r][1..];
        }
      }
    }
  }

  /** `iter().position(..)`: the first record of a client, or the length. */
  method Position(cs: seq<Client>, id: ClientId) returns (i: nat)
    ensures i <= |cs| && (forall j :: 0 <= j < i ==> cs[j].id != id) && (i < |cs| ==> cs[i].id == id)
    ensures Find(cs, id) == if i < |cs| then Some(cs[i]) else None
  {
    i := 0;
    while i < |cs| && cs[i].id != id
      invariant i <= |cs|
      invariant forall j :: 0 <= j < i ==> cs[j].id != id
    {
      i := i + 1;
    }
    FindAt(cs, id, i);
  }

  lemma {:induction false} WithoutSnoc(cs: seq<Client>, r: Client, id: ClientId)
    ensures Without(cs + [r], id) == Without(cs, id) + if r.id == id then [] else [r]
  {
    if cs != [] {
      assert (cs + [r])[1..] == cs[1..] + [r];
      WithoutSnoc(cs[1..], r, id);
    }
  }

  /** `retain(|c| c.client_id != id)`. */
  method Retain(cs: seq<Client>, id: ClientId) returns (kept: seq<Client>)
    ensures kept == Without(cs, id)
  {
    kept := [];
    for i := 0 to |cs|
      invariant kept == Without(cs[..i], id)
    {
      WithoutSnoc(cs[..i], cs[i], id);
      assert cs[..i + 1] == cs[..i] + [cs[i]];
      if cs[i].id != id { kept := kept + [cs[i]]; }
    }
    assert cs[..|cs|] == cs;
  }

  lemma {:induction false} ReboundSnoc(cs: seq<Client>, r: Client, identity: string)
    ensures Rebound(cs + [r], identity) == Rebound(cs, identity) + [r.(identity := identity, scopes := DEFAULT_SCOPES)]
  {
    if cs != [] {
      assert (cs + [r])[1..] == cs[1..] + [r];
      ReboundSnoc(cs[1..], r, identity);
    }
  }

  method Restamp(cs: seq<Client>, identity: string) returns (out: seq<Client>)
    ensures out == Rebound(cs, identity)
  {
    out := cs;
    for i := 0 to |cs|
      invariant |out| == |cs| && out[..i] == Rebound(cs[..i], identity) && out[i..] == cs[i..]
    {
      ReboundSnoc(cs[..i], cs[i], identity);
      assert cs[..i + 1] == cs[..i] + [cs[i]];
      assert out[i] == out[i..][0];
      ghost var was := out;
      out := out[i := cs[i].(identity := identity, scopes := DEFAULT_SCOPES)];
      assert out[..i + 1] == was[..i] + [out[i]];
      assert out[i + 1..] == was[i..][1..];
    }
    assert cs[..|cs|] == cs && out[..|cs|] == out;
  }

  // ---- The edits, as the service computes them ----

  method EditForConfirm(f: Roster, bound: string, id: ClientId, scopes: set<Scope>, now: int) returns (e: Edit)
    ensures e == DoConfirm(f, bound, id, scopes, now)
  {
    if Identity in scopes && bound != "" { return Refuse(f); }
    var i := Position(f.clients, id);
    var prior := if i < |f.clients| then f.clients[i].epoch else 0;
    var entry := Max(Last(f, id), prior);
    var seen := f.lastEpoch[id := entry];
    if entry >= U64_MAX { return Refuse(f.(lastEpoch := seen)); }
    var kept := Retain(f.clients, id);
    var record := Client(id, scopes, entry + 1, bound, None, now, None);
    assert seen[id := entry + 1] == f.lastEpoch[id := entry + 1];
    e := Commit(Roster(kept + [record], seen[id := entry + 1]), false);
  }

  method EditForRemotePair(f: Roster, bound: string, id: ClientId, wire: string, now: int) returns (e: Edit)
    ensures e == DoRemotePair(f, bound, id, wire, now)
  {
    if WireTaken(f, wire, id) || bound == "" { return Refuse(f); }
    var i := Position(f.clients, id);
    FindAt(f.clients, id, i);
    if i < |f.clients| {
      var record := f.clients[i];
      if record.identity != bound { return Refuse(f); }
      if record.transport == Some(wire) { return Agree(f); }
      if record.transport.Some? { return Refuse(f); }
      e := Commit(f.(clients := f.clients[i := record.(transport := Some(wire))]), true);
    } else if Last(f, id) >= U64_MAX {
      e := Refuse(f);
    } else {
      var record := Client(id, DEFAULT_SCOPES, Last(f, id) + 1, bound, Some(wire), now, None);
      e := Commit(Roster(f.clients + [record], f.lastEpoch[id := record.epoch]), true);
    }
  }

  method EditForBump(f: Roster, id: ClientId) returns (e: Edit)
    ensures e == DoBump(f, id)
  {
    var i := Position(f.clients, id);
    if i == |f.clients| { return Refuse(f); }
    FindAt(f.clients, id, i);
    var record := f.clients[i];
    var epoch := if record.epoch >= U64_MAX then 0 else record.epoch + 1;
    e := Commit(Roster(f.clients[i := record.(epoch := epoch)], f.lastEpoch[id := epoch]), false);
  }

  method EditForRevoke(f: Roster, id: ClientId) returns (e: Edit)
    ensures e == DoRevoke(f, id)
  {
    var i := Position(f.clients, id);
    if i == |f.clients| { return Refuse(f); }
    var kept := Retain(f.clients, id);
    e := Commit(Roster(kept, f.lastEpoch[id := Max(Last(f, id), f.clients[i].epoch)]), false);
  }

  lemma {:induction false} WithoutAllSnoc(cs: seq<Client>, r: Client, ids: set<ClientId>)
    ensures WithoutAll(cs + [r], ids) == WithoutAll(cs, ids) + if r.id in ids then [] else [r]
  {
    if cs != [] {
      assert (cs + [r])[1..] == cs[1..] + [r];
      WithoutAllSnoc(cs[1..], r, ids);
    }
  }

  /** `retain(|c| !pairings.contains(&c.client_id))`. */
  method RetainOthers(cs: seq<Client>, ids: set<ClientId>) returns (kept: seq<Client>)
    ensures kept == WithoutAll(cs, ids)
  {
    kept := [];
    for i := 0 to |cs|
      invariant kept == WithoutAll(cs[..i], ids)
    {
      WithoutAllSnoc(cs[..i], cs[i], ids);
      assert cs[..i + 1] == cs[..i] + [cs[i]];
      if cs[i].id !in ids { kept := kept + [cs[i]]; }
    }
    assert cs[..|cs|] == cs;
  }

  lemma RememberedNone(f: Roster)
    ensures Remembered(f, {}) == f.lastEpoch
  {
  }

  lemma RememberedPut(f: Roster, ids: set<ClientId>, id: ClientId)
    ensures Remembered(f, ids + {id})
         == if Find(f.clients, id).Some? then Remembered(f, ids)[id := Mark(f, id)] else Remembered(f, ids)
  {
  }

  method EditForConsoleRevoke(f: Roster, ids: set<ClientId>) returns (e: Edit)
    ensures e == DoConsoleRevoke(f, ids)
  {
    hide Remembered;
    var rest, last := ids, f.lastEpoch;
    ghost var done: set<ClientId> := {};
    RememberedNone(f);
    while rest != {}
      invariant done + rest == ids && done !! rest && last == Remembered(f, done)
      decreases |rest|
    {
      var id :| id in rest;
      var i := Position(f.clients, id);
      RememberedPut(f, done, id);
      if i < |f.clients| { last := last[id := Max(Last(f, id), f.clients[i].epoch)]; }
      done, rest := done + {id}, rest - {id};
    }
    assert done == ids;
    var kept := RetainOthers(f.clients, ids);
    e := Commit(Roster(kept, last), true);
  }

  method EditForRotate(f: Roster, id: ClientId, to: ClientId) returns (e: Edit)
    ensures e == DoRotate(f, id, to)
  {
    var i := Position(f.clients, id);
    if i == |f.clients| || f.clients[i].scopes == {} { return Refuse(f); }
    var record := f.clients[i];
    var j := Position(f.clients, to);
    var current := if j < |f.clients| then f.clients[j].epoch else 0;
    var top := Max(Max(record.epoch, Last(f, to)), current);
    if top >= U64_MAX { return Refuse(f); }
    var kept := Retain(f.clients, id);
    kept := Retain(kept, to);
    e := Commit(Roster(kept + [record.(id := to, transport := None, epoch := top + 1)],
                       f.lastEpoch[id := Max(Last(f, id), record.epoch)][to := top + 1]), false);
  }

  /** A roster edit and what it sweeps, as the change the section then writes. */
  function Edited(f: File, e: Edit, swept: Book): Change {
    match e
    case Refuse(r) => NoWrite(f.(roster := r), Told(Failed))
    case Agree(r) => NoWrite(f.(roster := r), Told(Fine))
    case Commit(r, rollback) => var g := File(r, swept); Writes(g, if rollback then f else g, Told(Fine))
  }

  lemma EditedIsChange(f: File, bound: string, p: PairOp, e: Edit, swept: Book)
    requires e == EditOf(f.roster, bound, p) && swept == Swept(f.book, p)
    ensures Edited(f, e, swept) == ChangeByPair(f, bound, p)
  {
    hide EditOf, Swept;
  }

  /** `reserve_spend_locked` up to the write. */
  method EffectOfReserve(k: Book, x: Context, o: GrantOp) returns (fx: Effect)
    requires o.Reserve?
    ensures fx == DoReserve(k, x, o)
  {
    hide Admit, ChargeIndex, Permits, Find, SetBudget;
    var at := Position(x.roster.clients, o.id);
    if at == |x.roster.clients| || x.roster.clients[at].epoch != o.epoch { return Stay(Failed); }
    var i := ChargeIndex(k.grants, x, o);
    if i == |k.grants| { return Stay(Failed); }
    var g := k.grants[i];
    if (o.payment && Messaging(g)) || (o.liquidity && !g.budget.value.liquidity) { return Stay(Failed); }
    var a := TryAdmit(g.budget.value, o.rid, o.charges, o.ids, o.payment, o.now);
    if a.Denied? && a.noted.None? { return Stay(Failed); }
    if a.Denied? { return Rewrite(k, i, a.noted.value, Failed); }
    fx := Rewrite(k, i, a.budget, Accepted(g.op, o.rid, o.ids));
  }

  /** `try_resolve_spend_outcome` up to the write. */
  method EffectOfResolve(k: Book, o: GrantOp) returns (fx: Effect)
    requires o.ResolveShare?
    ensures fx == DoResolve(k, o)
  {
    hide Resolve, SetBudget;
    var i := HeldIndex(k.grants, o.op, o.id);
    if i == |k.grants| { return Stay(Fine); }
    var g := k.grants[i];
    if g.budget.None? || !Outstanding(g.budget.value, o.share) { return Stay(Fine); }
    fx := Rewrite(k, i, Resolve(g.budget.value, o.share, o.actual, o.now), Settled(o.op, o.share));
  }

  method ChangeOfIssue(f: File, bound: string, d: Deployment, id: ClientId, now: int) returns (c: Change)
    ensures c == ChangeByIssue(f, bound, d, id, now)
  {
    hide Effective;
    var i := Position(f.roster.clients, id);
    if i == |f.roster.clients| { return NoWrite(f, Told(Failed)); }
    FindAt(f.roster.clients, id, i);
    var record := f.roster.clients[i];
    var seen := if record.lastSeen.Some? then record.lastSeen.value else record.createdAt;
    if record.identity != bound || now - seen > INACTIVITY { return NoWrite(f, Told(Failed)); }
    var used := f.(roster := f.roster.(clients := f.roster.clients[i := record.(lastSeen := Some(now))]));
    c := Writes(used, used, Issued(Token(id, record.epoch, bound, Effective(f, bound, d, record, now))));
  }

  class Service {
    var file: File
    var disk: File
    var bound: string
    const deployment: Deployment
    ghost var drawn: set<string>

    ghost function Now(): Node
      reads this
    {
      Node(file, disk, bound, deployment, drawn)
    }

    /** A fresh node, or one that reloads what a previous process left on disk. */
    constructor (stored: File, identity: string, d: Deployment, ghost ids: set<string>)
      ensures Now() == Node(stored, stored, identity, d, ids)
    {
      file, disk, bound, deployment, drawn := stored, stored, identity, d, ids;
    }

    /** Writes the file; a reported failure leaves the edit in memory. */
    method Save(clock: nat -> int, fault: nat -> Fault) returns (w: Outcome)
      requires Nondecreasing(clock)
      modifies `file, `disk
      ensures w.Lost? ==> file == old(file) && disk == old(disk)
      ensures w.Torn? ==> file == old(file) && disk == Pruned(old(file), w.at)
      ensures w.Kept? ==> file == disk == Pruned(old(file), w.at)
      ensures NoFault(fault) ==> w.Kept?
    {
      var f, d, ticks;
      w, f, d, ticks := Persist(file, disk, clock, fault);
      file, disk := f, d;
    }

    /**
     The tail every section shares: edit in place, write, restore what the section restores on a failed
     write, and answer. A rebind changes the identity before it writes, whatever becomes of the write.
     */
    method Finish(c: Change, o: Op, clock: nat -> int, fault: nat -> Fault) returns (a: Answer, w: Outcome)
      requires Nondecreasing(clock) && c == ChangeOf(Now(), o)
      modifies this
      ensures (Now(), a) == Step(old(Now()), Do(o, w))
      ensures NoFault(fault) && ChangeOf(old(Now()), o).Writes? ==> w.Kept?
    {
      hide ChangeOf, Live, Survives;
      drawn := drawn + DrawsOf(o);
      if o.Pair? && o.pair.Rebind? { bound := o.pair.identity; }
      a, w := c.answer, Lost;
      file := c.file;
      if c.NoWrite? { return; }
      w := Save(clock, fault);
      if !w.Kept? {
        file := c.undo;
        a := Told(Failed);
      } else if !Survives(file, o, a) {
        a := Told(Failed);
      }
    }

    method ConfirmPairing(id: ClientId, scopes: set<Scope>, now: int, clock: nat -> int, fault: nat -> Fault)
      returns (a: Answer, w: Outcome)
      requires Nondecreasing(clock)
      modifies this
      ensures (Now(), a) == Step(old(Now()), Do(Pair(Confirm(id, scopes, now)), w))
      ensures NoFault(fault) && ChangeOf(old(Now()), Pair(Confirm(id, scopes, now))).Writes? ==> w.Kept?
    {
      hide Step, DoConfirm, Edited, ChangeByPair;
      var p := Confirm(id, scopes, now);
      var e := EditForConfirm(file.roster, bound, id, scopes, now);
      EditedIsChange(file, bound, p, e, file.book);
      a, w := Finish(Edited(file, e, file.book), Pair(p), clock, fault);
    }

    method CreateRemotePairing(id: ClientId, wire: string, now: int, clock: nat -> int, fault: nat -> Fault)
      returns (a: Answer, w: Outcome)
      requires Nondecreasing(clock)
      modifies this
      ensures (Now(), a) == Step(old(Now()), Do(Pair(RemotePair(id, wire, now)), w))
      ensures NoFault(fault) && ChangeOf(old(Now()), Pair(RemotePair(id, wire, now))).Writes? ==> w.Kept?
    {
      hide Step, DoRemotePair, Edited, ChangeByPair;
      var p := RemotePair(id, wire, now);
      var e := EditForRemotePair(file.roster, bound, id, wire, now);
      EditedIsChange(file, bound, p, e, file.book);
      a, w := Finish(Edited(file, e, file.book), Pair(p), clock, fault);
    }

    method BumpEpoch(id: ClientId, clock: nat -> int, fault: nat -> Fault) returns (a: Answer, w: Outcome)
      requires Nondecreasing(clock)
      modifies this
      ensures (Now(), a) == Step(old(Now()), Do(Pair(Bump(id)), w))
      ensures NoFault(fault) && ChangeOf(old(Now()), Pair(Bump(id))).Writes? ==> w.Kept?
    {
      hide Step, DoBump, Edited, ChangeByPair;
      var e := EditForBump(file.roster, id);
      var swept := Kill(file.book, Only(id));
      EditedIsChange(file, bound, Bump(id), e, swept);
      a, w := Finish(Edited(file, e, swept), Pair(Bump(id)), clock, fault);
    }

    method RevokeClient(id: ClientId, clock: nat -> int, fault: nat -> Fault) returns (a: Answer, w: Outcome)
      requires Nondecreasing(clock)
      modifies this
      ensures (Now(), a) == Step(old(Now()), Do(Pair(Revoke(id)), w))
      ensures NoFault(fault) && ChangeOf(old(Now()), Pair(Revoke(id))).Writes? ==> w.Kept?
    {
      hide Step, DoRevoke, Edited, ChangeByPair;
      var e := EditForRevoke(file.roster, id);
      var swept := Kill(file.book, Only(id));
      swept := swept.(elevations := ElevationsExceptClients(swept.elevations, {id}));
      EditedIsChange(file, bound, Revoke(id), e, swept);
      a, w := Finish(Edited(file, e, swept), Pair(Revoke(id)), clock, fault);
    }

    /** The owner console removes pairings and the keys enrolled through them; a failed write undoes it all. */
    method ConsoleRevokeClients(ids: set<ClientId>, owners: set<ClientId>, clock: nat -> int, fault: nat -> Fault)
      returns (a: Answer, w: Outcome)
      requires Nondecreasing(clock)
      modifies this
      ensures (Now(), a) == Step(old(Now()), Do(Pair(ConsoleRevoke(ids, owners)), w))
      ensures NoFault(fault) && ChangeOf(old(Now()), Pair(ConsoleRevoke(ids, owners))).Writes? ==> w.Kept?
    {
      hide Step, DoConsoleRevoke, Edited, ChangeByPair;
      var p := ConsoleRevoke(ids, owners);
      var e := EditForConsoleRevoke(file.roster, ids);
      var swept := Kill(file.book, These(ids));
      swept := Kill(swept, RelationsOf(owners));
      swept := swept.(elevations := ElevationsExceptClients(swept.elevations, ids));
      EditedIsChange(file, bound, p, e, swept);
      a, w := Finish(Edited(file, e, swept), Pair(p), clock, fault);
    }

    method RotateKey(id: ClientId, to: ClientId, clock: nat -> int, fault: nat -> Fault) returns (a: Answer, w: Outcome)
      requires Nondecreasing(clock)
      modifies this
      ensures (Now(), a) == Step(old(Now()), Do(Pair(Rotate(id, to)), w))
      ensures NoFault(fault) && ChangeOf(old(Now()), Pair(Rotate(id, to))).Writes? ==> w.Kept?
    {
      hide Step, DoRotate, Edited, ChangeByPair;
      var e := EditForRotate(file.roster, id, to);
      var swept := Kill(file.book, Only(id));
      EditedIsChange(file, bound, Rotate(id, to), e, swept);
      a, w := Finish(Edited(file, e, swept), Pair(Rotate(id, to)), clock, fault);
    }

    method RebindToIdentity(identity: string, clock: nat -> int, fault: nat -> Fault) returns (a: Answer, w: Outcome)
      requires Nondecreasing(clock)
      modifies this
      ensures (Now(), a) == Step(old(Now()), Do(Pair(Rebind(identity)), w))
      ensures NoFault(fault) && ChangeOf(old(Now()), Pair(Rebind(identity))).Writes? ==> w.Kept?
    {
      hide Step, Edited, ChangeByPair;
      var clients := Restamp(file.roster.clients, identity);
      var e := Commit(file.roster.(clients := clients), false);
      var swept := Kill(file.book, Everyone).(elevations := []);
      EditedIsChange(file, bound, Rebind(identity), e, swept);
      a, w := Finish(Edited(file, e, swept), Pair(Rebind(identity)), clock, fault);
    }

    method IssueToken(id: ClientId, now: int, clock: nat -> int, fault: nat -> Fault) returns (a: Answer, w: Outcome)
      requires Nondecreasing(clock)
      modifies this
      ensures (Now(), a) == Step(old(Now()), Do(Op.IssueToken(id, now), w))
      ensures NoFault(fault) && ChangeOf(old(Now()), Op.IssueToken(id, now)).Writes? ==> w.Kept?
    {
      hide Step, ChangeByIssue;
      var c := ChangeOfIssue(file, bound, deployment, id, now);
      a, w := Finish(c, Op.IssueToken(id, now), clock, fault);
    }

    /** A section on the grants: nothing to write, or one budget edited and put back if the write fails. */
    method FinishGrant(fx: Effect, o: GrantOp, clock: nat -> int, fault: nat -> Fault) returns (a: Answer, w: Outcome)
      requires Nondecreasing(clock) && fx == EffectOf(file.book, Context(file.roster, bound, deployment), o)
      modifies this
      ensures (Now(), a) == Step(old(Now()), Do(Grant(o), w))
      ensures NoFault(fault) && ChangeOf(old(Now()), Grant(o)).Writes? ==> w.Kept?
    {
      hide Step, EffectOf;
      var c := if fx.Stay? then NoWrite(file, Told(fx.reply))
               else Writes(file.(book := fx.book), file.(book := fx.undo), Told(fx.reply));
      a, w := Finish(c, Grant(o), clock, fault);
    }

    /** Debits the first grant the caller may charge, or says no; a failed write puts the budget back. */
    method ReserveSpend(o: GrantOp, clock: nat -> int, fault: nat -> Fault) returns (a: Answer, w: Outcome)
      requires Nondecreasing(clock) && o.Reserve?
      modifies this
      ensures (Now(), a) == Step(old(Now()), Do(Grant(o), w))
      ensures NoFault(fault) && ChangeOf(old(Now()), Grant(o)).Writes? ==> w.Kept?
    {
      hide Step, DoReserve;
      var fx := EffectOfReserve(file.book, Context(file.roster, bound, deployment), o);
      a, w := FinishGrant(fx, o, clock, fault);
    }

    /** Applies one recipient's outcome; a failed write puts the whole budget back. */
    method ResolveSpend(o: GrantOp, clock: nat -> int, fault: nat -> Fault) returns (a: Answer, w: Outcome)
      requires Nondecreasing(clock) && o.ResolveShare?
      modifies this
      ensures (Now(), a) == Step(old(Now()), Do(Grant(o), w))
      ensures NoFault(fault) && ChangeOf(old(Now()), Grant(o)).Writes? ==> w.Kept?
    {
      hide Step, DoResolve;
      var fx := EffectOfResolve(file.book, o);
      a, w := FinishGrant(fx, o, clock, fault);
    }
  }
}
