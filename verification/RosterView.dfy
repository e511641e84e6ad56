/**
 The roster as each client sees it. The edits work on lists of records; here each is what it does to
 one client's record, and when it does it. An edit that concerns other clients leaves a record alone.
 */
module RosterView {
  import opened Common
  import opened Roster

  /** Nobody else uses this transport key. */
  ghost predicate WireFree(f: Roster, wire: string, id: ClientId) {
    forall c :: c in f.clients && c.id != id ==> c.transport != Some(wire)
  }

  /** When an edit is made at all, in terms of the records of the clients it names. */
  ghost predicate Goes(f: Roster, bound: string, o: PairOp) {
    match o
    case Confirm(id, scopes, _) =>
      (Identity in scopes ==> bound == "") && Epoch(f, id) < U64_MAX && Last(f, id) < U64_MAX
    case RemotePair(id, wire, _) =>
      && bound != "" && WireFree(f, wire, id)
      && (match Find(f.clients, id)
          case Some(r) => r.identity == bound && r.transport.None?
          case None => Last(f, id) < U64_MAX)
    case BootstrapPair(id, _, _) => bound == "" && f.clients == [] && Last(f, id) < U64_MAX
    case EnrollSecond(id, wire, _) =>
      bound != "" && Find(f.clients, id).None? && WireFree(f, wire, id) && Last(f, id) < U64_MAX
    case PromoteSecond(id) => Find(f.clients, id).Some? && Find(f.clients, id).value.scopes == {}
    case DropProvisional(id) => Find(f.clients, id).Some? && Find(f.clients, id).value.scopes == {}
    case Bump(id) => Find(f.clients, id).Some?
    case Revoke(id) => Find(f.clients, id).Some?
    case ConsoleRevoke(_, _) => true
    case Rotate(id, to) =>
      && Find(f.clients, id).Some? && Find(f.clients, id).value.scopes != {}
      && Epoch(f, id) < U64_MAX && Epoch(f, to) < U64_MAX && Last(f, to) < U64_MAX
    case Rebind(_) => true
    case Touch(id, _) => Find(f.clients, id).Some?
  }

  /** The record one client has afterwards, given the one it had and the epochs on record. */
  function Record(f: Roster, bound: string, o: PairOp, x: ClientId): Option<Client> {
    var r := Find(f.clients, x);
    match o
    case Confirm(id, scopes, now) =>
      if x == id then Some(Client(x, scopes, Max(Epoch(f, x), Last(f, x)) + 1, bound, None, now, None)) else r
    case RemotePair(id, wire, now) =>
      if x != id then r
      else if r.Some? then Some(r.value.(transport := Some(wire)))
      else Some(Client(x, {Read, Receive}, Last(f, x) + 1, bound, Some(wire), now, None))
    case BootstrapPair(id, wire, now) =>
      if x == id then Some(Client(x, {Read, Receive, Identity}, Last(f, x) + 1, "", Some(wire), now, None)) else r
    case EnrollSecond(id, wire, now) =>
      if x == id then Some(Client(x, {}, Last(f, x) + 1, bound, Some(wire), now, None)) else r
    case PromoteSecond(id) => if x == id && r.Some? then Some(r.value.(scopes := {Read, Receive})) else r
    case DropProvisional(id) => if x == id then None else r
    case Bump(id) =>
      if x != id || r.None? then r
      else Some(r.value.(epoch := if r.value.epoch < U64_MAX then r.value.epoch + 1 else 0))
    case Revoke(id) => if x == id then None else r
    case ConsoleRevoke(ids, _) => if x in ids then None else r
    case Rotate(id, to) =>
      var was := Find(f.clients, id);
      if x == to && was.Some? then
        var top := Max(was.value.epoch, Max(Epoch(f, to), Last(f, to)));
        Some(was.value.(id := to, transport := None, epoch := top + 1))
      else if x == id then None else r
    case Rebind(identity) => if r.Some? then Some(r.value.(identity := identity, scopes := {Read, Receive})) else r
    case Touch(id, now) => if x == id && r.Some? then Some(r.value.(lastSeen := Some(now))) else r
  }

  lemma {:induction false} WireFreeIff(f: Roster, wire: string, id: ClientId)
    ensures WireTaken(f, wire, id) <==> !WireFree(f, wire, id)
  {
  }

  /** An edit is written exactly when it goes; a pairing already bound to the same transport is only confirmed. */
  lemma WritesIff(f: Roster, bound: string, o: PairOp)
    ensures EditOf(f, bound, o).Commit? <==> Goes(f, bound, o)
    ensures EditOf(f, bound, o).Agree? <==>
              && o.RemotePair? && bound != "" && WireFree(f, o.wire, o.id) && Find(f.clients, o.id).Some?
              && Find(f.clients, o.id).value.identity == bound && Find(f.clients, o.id).value.transport == Some(o.wire)
  {
    if o.RemotePair? || o.EnrollSecond? { WireFreeIff(f, o.wire, o.id); }
    hide WireTaken, WireFree, Without, Put, Rebound, Remembered, WithoutAll;
  }

  lemma SeenAfterAdding(f: Roster, bound: string, o: PairOp, x: ClientId)
    requires o.Confirm? || o.RemotePair? || o.BootstrapPair? || o.EnrollSecond?
    ensures var e := EditOf(f, bound, o); e.Commit? ==> Find(e.roster.clients, x) == Record(f, bound, o, x)
  {
    FindId(f.clients, o.id);
    match o
    case Confirm(id, scopes, now) =>
      FindWithout(f.clients, id, x);
      FindAppend(Without(f.clients, id), Client(id, scopes, Mark(f, id) + 1, bound, None, now, None), x);
    case RemotePair(id, wire, now) =>
      if Find(f.clients, id).Some? {
        FindPut(f.clients, Find(f.clients, id).value.(transport := Some(wire)), x);
      } else {
        FindAppend(f.clients, Client(id, DEFAULT_SCOPES, Last(f, id) + 1, bound, Some(wire), now, None), x);
      }
    case BootstrapPair(id, wire, now) =>
      FindAppend(f.clients, Client(id, BOOTSTRAP_SCOPES, Last(f, id) + 1, "", Some(wire), now, None), x);
    case EnrollSecond(id, wire, now) =>
      FindAppend(f.clients, Client(id, {}, Last(f, id) + 1, bound, Some(wire), now, None), x);
  }

  lemma SeenAfterChanging(f: Roster, bound: string, o: PairOp, x: ClientId)
    requires o.PromoteSecond? || o.Bump? || o.Touch? || o.Rebind?
    ensures var e := EditOf(f, bound, o); e.Commit? ==> Find(e.roster.clients, x) == Record(f, bound, o, x)
  {
    if o.Rebind? {
      FindRebound(f.clients, o.identity, x);
    } else {
      FindId(f.clients, o.id);
      if Find(f.clients, o.id).Some? {
        var r := Find(f.clients, o.id).value;
        FindPut(f.clients, r.(scopes := DEFAULT_SCOPES), x);
        FindPut(f.clients, r.(epoch := if r.epoch >= U64_MAX then 0 else r.epoch + 1), x);
        if o.Touch? { FindPut(f.clients, r.(lastSeen := Some(o.now)), x); }
      }
    }
  }

  lemma SeenAfterRemoving(f: Roster, bound: string, o: PairOp, x: ClientId)
    requires o.DropProvisional? || o.Revoke? || o.ConsoleRevoke? || o.Rotate?
    ensures var e := EditOf(f, bound, o); e.Commit? ==> Find(e.roster.clients, x) == Record(f, bound, o, x)
  {
    if o.ConsoleRevoke? {
      FindWithoutAll(f.clients, o.ids, x);
    } else {
      FindWithout(f.clients, o.id, x);
      if o.Rotate? {
        FindId(f.clients, o.id);
        FindWithout(Without(f.clients, o.id), o.to, x);
        if Find(f.clients, o.id).Some? {
          var r := Find(f.clients, o.id).value;
          FindAppend(Without(Without(f.clients, o.id), o.to),
                     r.(id := o.to, transport := None, epoch := Max(r.epoch, Mark(f, o.to)) + 1), x);
        }
      }
    }
  }

  /** Every client sees exactly its own record change, as the edit says; an edit not made changes no record. */
  lemma EveryClientSees(f: Roster, bound: string, o: PairOp, x: ClientId)
    ensures Find(EditOf(f, bound, o).roster.clients, x)
         == if Goes(f, bound, o) then Record(f, bound, o, x) else Find(f.clients, x)
  {
    WritesIff(f, bound, o);
    if Goes(f, bound, o) {
      hide Goes, EditOf, Record;
      match o
      case Confirm(_, _, _) => SeenAfterAdding(f, bound, o, x);
      case RemotePair(_, _, _) => SeenAfterAdding(f, bound, o, x);
      case BootstrapPair(_, _, _) => SeenAfterAdding(f, bound, o, x);
      case EnrollSecond(_, _, _) => SeenAfterAdding(f, bound, o, x);
      case PromoteSecond(_) => SeenAfterChanging(f, bound, o, x);
      case Bump(_) => SeenAfterChanging(f, bound, o, x);
      case Touch(_, _) => SeenAfterChanging(f, bound, o, x);
      case Rebind(_) => SeenAfterChanging(f, bound, o, x);
      case _ => SeenAfterRemoving(f, bound, o, x);
    } else {
      NotMadeIsNothing(f, bound, o);
    }
  }

  lemma NotMadeIsNothing(f: Roster, bound: string, o: PairOp)
    requires !EditOf(f, bound, o).Commit?
    ensures EditOf(f, bound, o).roster.clients == f.clients
  {
    hide WireTaken, Without, Put, Rebound;
  }

  /** The highest epoch on record for a client afterwards. */
  ghost function History(f: Roster, bound: string, o: PairOp, x: ClientId): nat {
    var top := Max(Epoch(f, x), Last(f, x));
    match o
    case Confirm(id, scopes, _) =>
      if x != id || (Identity in scopes && bound != "") then Last(f, x) else if top >= U64_MAX then top else top + 1
    case RemotePair(id, _, _) =>
      if x == id && Goes(f, bound, o) && Find(f.clients, id).None? then Last(f, x) + 1 else Last(f, x)
    case BootstrapPair(id, _, _) => if x == id && Goes(f, bound, o) then Last(f, x) + 1 else Last(f, x)
    case EnrollSecond(id, _, _) => if x == id && Goes(f, bound, o) then Last(f, x) + 1 else Last(f, x)
    case Bump(id) =>
      if x == id && Goes(f, bound, o) then (if Epoch(f, x) < U64_MAX then Epoch(f, x) + 1 else 0) else Last(f, x)
    case Revoke(id) => if x == id && Goes(f, bound, o) then top else Last(f, x)
    case ConsoleRevoke(ids, _) => if x in ids then top else Last(f, x)
    case Rotate(id, to) =>
      if !Goes(f, bound, o) then Last(f, x)
      else if x == to then Max(Epoch(f, id), top) + 1
      else if x == id then top else Last(f, x)
    case _ => Last(f, x)
  }

  /** What is remembered of every client's epochs after an edit, made or refused. */
  lemma EveryHistory(f: Roster, bound: string, o: PairOp, x: ClientId)
    ensures Last(EditOf(f, bound, o).roster, x) == History(f, bound, o, x)
  {
    WritesIff(f, bound, o);
    if o.RemotePair? || o.EnrollSecond? { WireFreeIff(f, o.wire, o.id); }
    hide WireTaken, WireFree, Without, WithoutAll, Put, Rebound;
  }

  /** A failed write is undone in memory for exactly these edits. */
  lemma RollsBackIff(f: Roster, bound: string, o: PairOp)
    ensures EditOf(f, bound, o).Commit? ==>
              (EditOf(f, bound, o).rollback <==>
                 || o.RemotePair? || o.BootstrapPair? || o.EnrollSecond? || o.PromoteSecond? || o.DropProvisional?
                 || o.ConsoleRevoke?)
  {
    hide WireTaken, Without, Put, Rebound, Remembered;
  }
}
