/**
 When each section on the grants succeeds, and what it leaves: which grants end, what a new one
 carries, and which grant a reservation is charged to. Sections of one client leave the others alone.
 */
module GrantRules {
  import opened Common
  import opened SpendBudget
  import opened Roster
  import opened GrantBook
  import opened PairingLedger

  // ---- Life and death ----

  /** A grant can spend: it has a budget, has not expired, and was not written for more than a day. */
  predicate Working(g: SpendGrant, now: int) { g.budget.Some? && now < g.expiresAt <= g.grantedAt + 86_400 }

  lemma {:induction false} PruningKeepsIff(gs: seq<SpendGrant>, now: int, g: SpendGrant)
    ensures g in LiveGrants(gs, now) <==> g in gs && Working(g, now)
  {
    if gs != [] { PruningKeepsIff(gs[1..], now, g); }
  }

  /** Whose grants are meant. */
  predicate Means(whom: Whom, g: SpendGrant) {
    match whom
    case Everyone => true
    case These(ids) => g.client in ids
    case RelationsOf(ids) => g.client in ids && g.budget.Some? && g.budget.value.recipientsOnly
  }

  /** Ending grants takes the budget of exactly those meant, and leaves every other as it was, in place. */
  lemma {:induction false} EndsExactly(gs: seq<SpendGrant>, whom: Whom, i: nat)
    requires i < |gs|
    ensures |KillSpend(gs, whom)| == |gs|
    ensures KillSpend(gs, whom)[i] == if Means(whom, gs[i]) then gs[i].(budget := None) else gs[i]
  {
    if i > 0 {
      EndsExactly(gs[1..], whom, i - 1);
    } else if |gs| > 1 {
      EndsExactly(gs[1..], whom, 0);
    }
  }

  lemma {:induction false} ClosesDoorsExactly(gs: seq<FrontDoorGrant>, whom: Whom, i: nat)
    requires i < |gs|
    ensures |KillFrontDoor(gs, whom)| == |gs|
    ensures KillFrontDoor(gs, whom)[i]
         == if whom.Everyone? || (whom.These? && gs[i].client in whom.ids) then gs[i].(revoked := true) else gs[i]
  {
    if i > 0 {
      ClosesDoorsExactly(gs[1..], whom, i - 1);
    } else if |gs| > 1 {
      ClosesDoorsExactly(gs[1..], whom, 0);
    }
  }

  /** The pairing sections that end grants, and whose. */
  predicate EndedBy(o: PairOp, g: SpendGrant) {
    match o
    case Bump(id) => g.client == id
    case Revoke(id) => g.client == id
    case Rotate(id, _) => g.client == id
    case ConsoleRevoke(ids, owners) =>
      g.client in ids || (g.client in owners && g.budget.Some? && g.budget.value.recipientsOnly)
    case Rebind(_) => true
    case _ => false
  }

  lemma PairingEndsExactly(k: Book, o: PairOp, i: nat)
    requires i < |k.grants|
    ensures var gs := Swept(k, o).grants;
            |gs| == |k.grants| && gs[i] == if EndedBy(o, k.grants[i]) then k.grants[i].(budget := None) else k.grants[i]
  {
    hide KillFrontDoor, ElevationsExceptClients;
    match o
    case Bump(id) => EndsExactly(k.grants, Only(id), i);
    case Revoke(id) => EndsExactly(k.grants, Only(id), i);
    case Rotate(id, _) => EndsExactly(k.grants, Only(id), i);
    case ConsoleRevoke(ids, owners) =>
      EndsExactly(k.grants, These(ids), i);
      EndsExactly(KillSpend(k.grants, These(ids)), RelationsOf(owners), i);
    case Rebind(_) => EndsExactly(k.grants, Everyone, i);
    case _ =>
  }

  lemma {:induction false} OthersRequestsStay(es: seq<Elevation>, ids: set<ClientId>, op: OpId, now: int, e: Elevation)
    ensures e in ElevationsExceptClients(es, ids) <==> e in es && e.client !in ids
    ensures e in ElevationsExcept(es, op) <==> e in es && e.op != op
    ensures e in RecentElevations(es, now) <==> e in es && now < e.expiresAt
  {
    if es != [] { OthersRequestsStay(es[1..], ids, op, now, e); }
  }

  /** A revocation, and a rebind for all, also ends the requests that wait for the owner. */
  lemma PairingDropsRequests(k: Book, o: PairOp, e: Elevation)
    ensures e in Swept(k, o).elevations <==>
              && e in k.elevations && !o.Rebind? && (o.Revoke? ==> e.client != o.id)
              && (o.ConsoleRevoke? ==> e.client !in o.ids)
  {
    hide KillSpend, KillFrontDoor;
    if o.Revoke? { OthersRequestsStay(k.elevations, {o.id}, "", 0, e); }
    if o.ConsoleRevoke? { OthersRequestsStay(k.elevations, o.ids, "", 0, e); }
  }

  // ---- Asking and granting ----

  function Waiting(es: seq<Elevation>, id: ClientId, now: int): nat {
    if es == [] then 0 else
      (if es[0].client == id && now < es[0].expiresAt then 1 else 0) + Waiting(es[1..], id, now)
  }

  lemma {:induction false} WaitingIsCounted(es: seq<Elevation>, id: ClientId, now: int)
    ensures ElevationsOf(RecentElevations(es, now), id) == Waiting(es, id, now)
  {
    if es != [] {
      WaitingIsCounted(es[1..], id, now);
      var rest := RecentElevations(es[1..], now);
      assert ([es[0]] + rest)[1..] == rest && [] + rest == rest;
    }
  }

  /** A request is taken exactly from a paired client of a node with a console, for spend or the door, up to four. */
  lemma RequestsIff(k: Book, x: Context, o: GrantOp)
    requires o.Request?
    ensures var fx := EffectOf(k, x, o);
            && (fx.reply.Fine? <==>
                  && (o.scopes == {Spend} || o.scopes == {FrontDoor}) && x.deployment.ownerControl
                  && Find(x.roster.clients, o.id).Some? && Waiting(k.elevations, o.id, o.now) < 4)
            && (fx.reply.Fine? ==>
                  && fx.Write? && fx.book.grants == k.grants && fx.book.frontDoor == k.frontDoor
                  && forall e :: e in fx.book.elevations <==>
                       e == Elevation(o.op, o.id, o.scopes, o.now + 900) || (e in k.elevations && o.now < e.expiresAt))
  {
    WaitingIsCounted(k.elevations, o.id, o.now);
    forall e ensures e in RecentElevations(k.elevations, o.now) <==> e in k.elevations && o.now < e.expiresAt {
      OthersRequestsStay(k.elevations, {}, "", o.now, e);
    }
    hide ElevationsOf, RecentElevations, ElevationsExcept;
    assert o.scopes != {} && o.scopes <= GRANTABLE && !(FrontDoor in o.scopes && o.scopes != {FrontDoor}) <==>
           o.scopes == {Spend} || o.scopes == {FrontDoor};
  }

  /** The request is there, waiting, and its client is still paired. */
  predicate Grantable(k: Book, x: Context, op: OpId, now: int) {
    && x.deployment.ownerControl && FindElevation(k.elevations, op).Some?
    && now < FindElevation(k.elevations, op).value.expiresAt
    && Find(x.roster.clients, FindElevation(k.elevations, op).value.client).Some?
  }

  /**
   The owner grants exactly a waiting request that asks for no front door. The grant is for that client
   at its present epoch and this identity, for the time approved; the client's other grants end.
   */
  lemma GrantsIff(k: Book, x: Context, o: GrantOp)
    requires o.GrantSpend?
    ensures var fx, e := EffectOf(k, x, o), FindElevation(k.elevations, o.op);
            && (fx.reply.Fine? <==> Grantable(k, x, o.op, o.now) && FrontDoor !in e.value.scopes)
            && (fx.reply.Fine? ==>
                  && fx.Write? && fx.book.frontDoor == k.frontDoor
                  && fx.book.grants == KillSpend(k.grants, These({e.value.client}))
                       + [SpendGrant(o.op, e.value.client, e.value.scopes, o.now, o.now + o.terms.ttl, x.bound,
                                     Epoch(x.roster, e.value.client), Some(FromTerms(o.terms)), Console)]
                  && forall r :: r in fx.book.elevations <==> r in k.elevations && r.op != o.op)
  {
    forall r ensures r in ElevationsExcept(k.elevations, o.op) <==> r in k.elevations && r.op != o.op {
      OthersRequestsStay(k.elevations, {}, o.op, 0, r);
    }
    hide ElevationsExcept, KillSpend;
  }

  /** The front door is opened exactly for a waiting request that asks for it alone, for at most a day. */
  lemma OpensDoorIff(k: Book, x: Context, o: GrantOp)
    requires o.GrantFrontDoor?
    ensures var fx, e := EffectOf(k, x, o), FindElevation(k.elevations, o.op);
            && (fx.reply.Fine? <==>
                  Grantable(k, x, o.op, o.now) && e.value.scopes == {FrontDoor} && 1 <= o.ttl <= 86_400)
            && (fx.reply.Fine? ==>
                  && fx.Write? && fx.book.grants == k.grants
                  && fx.book.frontDoor == KillFrontDoor(k.frontDoor, These({e.value.client}))
                       + [FrontDoorGrant(o.op, e.value.client, o.now, o.now + o.ttl, x.bound,
                                         Epoch(x.roster, e.value.client), false)])
  {
    hide ElevationsExcept, KillFrontDoor;
  }

  /** A grant signed by the owner's device is for that client, epoch and identity, and ends the client's others. */
  lemma DeviceGrants(k: Book, x: Context, o: GrantOp)
    requires o.GrantByDevice?
    ensures EffectOf(k, x, o)
         == Write(k.(grants := KillSpend(k.grants, These({o.id}))
                       + [SpendGrant(o.op, o.id, {Spend}, o.now, o.now + o.terms.ttl, o.node, o.epoch,
                                     Some(FromTerms(o.terms)), Receipt(o.verifies))]), k, Fine)
  {
    hide KillSpend;
  }

  // ---- Envelopes ----

  /** What one recipient may still be sent under a budget. */
  function Left(b: Budget, r: Recipient): nat { if r in b.caps then SatSub(b.caps[r], Get(b.usedBy, r)) else 0 }

  /** An envelope lets exactly its amount still go to the peer, act by act, and moves the total by the difference. */
  lemma EnvelopeGives(b: Budget, r: Recipient, amount: nat, perAct: nat, ends: int)
    requires Get(b.usedBy, r) + amount <= U64_MAX && b.total + amount <= U64_MAX && Left(b, r) <= b.total
    ensures var c := Enveloped(b, r, amount, perAct, ends);
            && Left(c, r) == amount && c.total - b.total == amount - Left(b, r)
            && c.perCall == Min(c.total, 6_000)
            && r in c.perAct && c.perAct[r] == perAct && r in c.envelopeEnds && c.envelopeEnds[r] == ends
            && c.used == b.used && c.usedBy == b.usedBy && c.pending == b.pending && c.breaker == b.breaker
            && (forall q :: q != r ==> && Left(c, q) == Left(b, q) && Get(c.perAct, q) == Get(b.perAct, q)
                                       && (q in c.envelopeEnds <==> q in b.envelopeEnds)
                                       && (q in b.envelopeEnds ==> c.envelopeEnds[q] == b.envelopeEnds[q]))
  {
  }

  /** A relation grant starts with nothing to spend, and within the node's own rates. */
  lemma RelationsStartBare()
    ensures var b := Relations();
            && b.recipientsOnly && b.limits == Limits(10, 60, 5, 1_000_000) && b.total == 0 && b.caps == map[]
            && b.envelopeEnds == map[] && b.used == 0 && b.pending == map[] && !b.liquidity
  {
  }

  /** A working grant of this client, for the epoch and identity the device signed for. */
  predicate Current(g: SpendGrant, o: GrantOp)
    requires o.OpenEnvelope?
  {
    Working(g, o.now) && g.client == o.id && g.epoch == o.epoch && g.identity == o.node
  }

  /**
   An envelope is opened exactly for a paired client at its epoch, within the bounds on window and
   amount, on a node that takes device signatures, and never beside a working grant of another kind.
   */
  lemma OpensEnvelopeIff(k: Book, x: Context, o: GrantOp)
    requires o.OpenEnvelope?
    ensures EffectOf(k, x, o).reply.Fine? <==>
              && (x.deployment.ownerControl || x.deployment.localDevice) && x.deployment.deviceAuthority
              && 60 <= o.window <= 86_400 && 1 <= o.perAct <= o.amount <= 100_000_000
              && x.bound == o.node && Find(x.roster.clients, o.id).Some? && Epoch(x.roster, o.id) == o.epoch
              && forall g :: g in k.grants && Current(g, o) ==> g.budget.value.recipientsOnly
  {
    hide KillSpend, Renewed;
    if forall g :: g in k.grants && Current(g, o) ==> g.budget.value.recipientsOnly {
      forall g | g in k.grants ensures !InUse(o, g, false) { assert Current(g, o) || !InUse(o, g, false); }
    }
    if g :| g in k.grants && Current(g, o) && !g.budget.value.recipientsOnly { assert InUse(o, g, false); }
  }

  /** A relation grant lasts exactly until the last of its open envelopes runs out. */
  lemma RenewedLasts(g: SpendGrant, b: Budget, o: GrantOp)
    requires o.OpenEnvelope? && o.window > 0
    ensures var h, c := Renewed(g, b, o), Enveloped(b, o.peer, o.amount, o.perAct, o.now + o.window);
            && h.budget == Some(c) && h.grantedAt == o.now && h.op == g.op && h.client == g.client
            && (forall r :: r in c.envelopeEnds ==> c.envelopeEnds[r] <= Max(h.expiresAt, o.now))
            && exists r :: r in c.envelopeEnds && c.envelopeEnds[r] == h.expiresAt
  {
    var c := Enveloped(b, o.peer, o.amount, o.perAct, o.now + o.window);
    assert o.peer in c.envelopeEnds && c.envelopeEnds[o.peer] == o.now + o.window;
    hide LatestEnd;
  }

  /** The envelope goes into the client's working relation grant, or starts a new one that ends its others. */
  lemma EnvelopeGoesWhere(k: Book, x: Context, o: GrantOp)
    requires o.OpenEnvelope? && EffectOf(k, x, o).reply.Fine?
    ensures var fx := EffectOf(k, x, o);
            && fx.Write? && fx.undo == k && fx.book.elevations == k.elevations && fx.book.frontDoor == k.frontDoor
            && ((exists i :: && 0 <= i < |k.grants| && Current(k.grants[i], o)
                             && fx.book.grants == k.grants[i := Renewed(k.grants[i], k.grants[i].budget.value, o)])
                || (&& (forall g :: g in k.grants ==> !Current(g, o))
                    && fx.book.grants == KillSpend(k.grants, These({o.id}))
                         + [Renewed(SpendGrant(o.op, o.id, {Spend}, o.now, o.now + o.window, o.node, o.epoch, None,
                                               Device), Relations(), o)]))
  {
    hide KillSpend, Renewed, Relations;
    var i := RelationIndex(k.grants, o);
    if i < |k.grants| {
      assert Current(k.grants[i], o);
    } else {
      forall g | g in k.grants ensures !Current(g, o) {
        NoRelation(k.grants, o, g);
        assert !InUse(o, g, false);
      }
    }
  }

  lemma {:induction false} NoRelation(gs: seq<SpendGrant>, o: GrantOp, g: SpendGrant)
    requires o.OpenEnvelope? && RelationIndex(gs, o) == |gs| && g in gs
    ensures !InUse(o, g, true)
  {
    hide InUse;
    if g != gs[0] { NoRelation(gs[1..], o, g); }
  }

  // ---- Ending ----

  /** The sections that end grants end exactly those meant, whether the write is kept or not. */
  lemma SectionEndsExactly(k: Book, x: Context, o: GrantOp, i: nat)
    requires (o.EndRelations? || o.RevokeGrants?) && i < |k.grants|
    ensures var fx, whom := EffectOf(k, x, o), if o.EndRelations? then RelationsOf({o.id}) else o.whom;
            && fx.Write? && fx.reply.Fine? && fx.undo == fx.book && |fx.book.grants| == |k.grants|
            && fx.book.grants[i] == if Means(whom, k.grants[i]) then k.grants[i].(budget := None) else k.grants[i]
  {
    EndsExactly(k.grants, if o.EndRelations? then RelationsOf({o.id}) else o.whom, i);
    hide KillSpend, KillFrontDoor;
  }

  /** The sweep writes exactly when there is a dead grant or door to drop. */
  lemma SweepsIff(k: Book, x: Context, now: int)
    ensures EffectOf(k, x, Sweep(now)).Write? <==>
              || (exists g :: g in k.grants && !Working(g, now))
              || (exists g :: g in k.frontDoor && !(!g.revoked && now < g.expiresAt <= g.grantedAt + 86_400))
    ensures EffectOf(k, x, Sweep(now)).Write? ==> EffectOf(k, x, Sweep(now)).book == k
  {
    forall g: SpendGrant ensures GrantLive(g, now) <==> Working(g, now) {}
    forall g: FrontDoorGrant
      ensures FrontDoorLive(g, now) <==> !g.revoked && now < g.expiresAt <= g.grantedAt + 86_400 {}
  }

  // ---- The section and its write ----

  lemma AcceptedIsWritten(k: Book, x: Context, o: GrantOp)
    ensures EffectOf(k, x, o).reply.Accepted? ==> o.Reserve? && EffectOf(k, x, o).Write?
  {
    hide Admit, KillSpend, KillFrontDoor, Renewed, ContactFits;
  }

  lemma SettledSurvives(n: Node, c: Change, o: Op, w: Outcome)
    requires c.Writes? && o.Grant? && o.grant.Reserve?
    ensures var (m, a) := Settle(n, c, o, w);
            a.Told? && a.reply.Accepted? ==>
              exists g :: g in m.mem.book.grants && g.op == a.reply.op && Working(g, o.grant.late)
  {
    hide Live;
    forall g: SpendGrant ensures GrantLive(g, o.grant.late) <==> Working(g, o.grant.late) {}
  }

  /** A reservation is handed out only while its grant still works once the ledger is on disk. */
  lemma AcceptedStillWorks(n: Node, e: Event)
    requires Said(n, e).Accepted?
    ensures e.Do? && e.op.Grant? && e.op.grant.Reserve?
    ensures exists g :: g in Step(n, e).0.mem.book.grants && g.op == Said(n, e).op && Working(g, e.op.grant.late)
  {
    HeardIsKept(n, e);
    AcceptedIsWritten(n.mem.book, Context(n.mem.roster, n.bound, n.deployment), e.op.grant);
    hide EffectOf, Settle, Working;
    SettledSurvives(n.(drawn := n.drawn + DrawsOf(e.op)), ChangeOf(n, e.op), e.op, e.outcome);
  }

  /** Which sections put the grants back when their write is reported as failed. */
  predicate PutsBack(o: GrantOp) {
    o.GrantByDevice? || o.OpenEnvelope? || o.Reserve? || o.ResolveShare? || o.ResetBreakers? || o.CapContact?
  }

  lemma RequestUndo(k: Book, x: Context, o: GrantOp)
    requires o.Request?
    ensures var fx := EffectOf(k, x, o);
            fx.Write? ==> && fx.undo.grants == k.grants && fx.undo.frontDoor == k.frontDoor
                          && forall e :: e in fx.undo.elevations <==> e in fx.book.elevations && e.op != o.op
  {
    var fx := EffectOf(k, x, o);
    hide ElevationsExcept, RecentElevations;
    if fx.Write? {
      forall e ensures e in fx.undo.elevations <==> e in fx.book.elevations && e.op != o.op {
        OthersRequestsStay(fx.book.elevations, {}, o.op, 0, e);
      }
    }
  }

  lemma SpendingUndo(k: Book, x: Context, o: GrantOp)
    requires Distinct(k.grants) && (o.Reserve? || o.ResolveShare? || o.ResetBreakers?)
    ensures var fx := EffectOf(k, x, o); fx.Write? ==> fx.undo == k
  {
    hide Rewrite, Resolve, Reset, Admit, Permits;
    if o.Reserve? {
      var i := ChargeIndex(k.grants, x, o);
      if i < |k.grants| { PutBackIs(k, i); }
    } else {
      var i := HeldIndex(k.grants, o.op, o.id);
      if i < |k.grants| { PutBackIs(k, i); }
    }
  }

  lemma UndoIs(k: Book, x: Context, o: GrantOp)
    requires Distinct(k.grants)
    ensures var fx := EffectOf(k, x, o);
            fx.Write? ==> (PutsBack(o) ==> fx.undo == k) && (!PutsBack(o) && !o.Request? ==> fx.undo == fx.book)
  {
    if o.Reserve? || o.ResolveShare? || o.ResetBreakers? {
      hide EffectOf;
      SpendingUndo(k, x, o);
    } else {
      hide KillSpend, KillFrontDoor, Renewed, Distinct, ElevationsExcept, RecentElevations, ContactFits;
    }
  }

  lemma PutBackIs(k: Book, i: nat)
    requires Distinct(k.grants) && i < |k.grants|
    ensures forall b: Budget, r: Reply :: Rewrite(k, i, b, r).undo == k
  {
    hide Distinct, SetBudget;
    forall b: Budget, r: Reply ensures Rewrite(k, i, b, r).undo == k { SetBudgetRestores(k.grants, i, Some(b)); }
  }

  /**
   What a write does to a grant section. Kept: memory and disk are the new book without its dead grants.
   Not kept: memory is what the section puts back; disk is untouched, or the new book if the rename was done.
   */
  lemma SectionAfterWrite(n: Node, o: GrantOp, w: Outcome)
    requires Distinct(n.mem.book.grants)
    ensures var fx := EffectOf(n.mem.book, Context(n.mem.roster, n.bound, n.deployment), o);
            var m := Step(n, Do(Grant(o), w)).0;
            && m.mem.roster == n.mem.roster && m.bound == n.bound && m.deployment == n.deployment
            && (fx.Stay? ==> m.mem == n.mem && m.disk == n.disk)
            && (fx.Write? && w.Kept? ==> m.mem == m.disk && m.mem.book == Live(fx.book, w.at))
            && (fx.Write? && w.Torn? ==> m.disk.book == Live(fx.book, w.at) && m.disk.roster == n.mem.roster)
            && (w.Lost? ==> m.disk == n.disk)
            && (fx.Write? && !w.Kept? && PutsBack(o) ==> m.mem == n.mem)
            && (fx.Write? && !w.Kept? && !PutsBack(o) && !o.Request? ==> m.mem.book == fx.book)
  {
    UndoIs(n.mem.book, Context(n.mem.roster, n.bound, n.deployment), o);
    hide EffectOf, Survives, Live, Distinct;
  }

  /** A restart loads the file and takes the identity and deployment it is given; nothing else remains. */
  lemma RestartLoadsDisk(n: Node, bound: string, d: Deployment)
    ensures Step(n, Restart(bound, d)) == (Node(n.disk, n.disk, bound, d, n.drawn), Told(Fine))
  {
  }

  /** A rebind changes the identity at once, whatever becomes of its write: no token of the former one is accepted. */
  lemma RebindTakesHold(n: Node, identity: string, w: Outcome, t: Token, now: int)
    ensures var m := Step(n, Do(Pair(Rebind(identity)), w)).0;
            m.bound == identity && (t.identity != identity ==> !Accepts(m, t, now))
  {
    hide Effective, Survives, Live, Rebound, KillSpend, KillFrontDoor;
  }

  /** A pairing section not kept: memory is as before where the edit is undone, and the edit stands where it is not. */
  lemma PairingAfterWrite(n: Node, o: PairOp, w: Outcome)
    ensures var m, e := Step(n, Do(Pair(o), w)).0, EditOf(n.mem.roster, n.bound, o);
            && (e.Commit? && !w.Kept? && e.rollback ==> m.mem == n.mem)
            && (e.Commit? && !w.Kept? && !e.rollback ==> m.mem == File(e.roster, Swept(n.mem.book, o)))
            && (e.Commit? && w.Kept? ==> m.mem == m.disk == File(e.roster, Live(Swept(n.mem.book, o), w.at)))
            && (e.Commit? && w.Torn? ==> m.disk == File(e.roster, Live(Swept(n.mem.book, o), w.at)))
            && (!e.Commit? ==> m.mem == n.mem.(roster := e.roster) && m.disk == n.disk)
            && (w.Lost? ==> m.disk == n.disk)
  {
    hide EditOf, Swept, Survives, Live;
  }

  // ---- Spending ----

  /** The caller may charge this grant: theirs, working, of their epoch and identity, honoured here, the one named. */
  predicate MayCharge(x: Context, o: GrantOp, g: SpendGrant)
    requires o.Reserve?
  {
    && Working(g, o.now) && g.client == o.id && g.epoch == o.epoch && g.identity == x.bound
    && (o.expected == None || o.expected == Some(g.op))
    && (match g.origin
        case Console => x.deployment.ownerControl
        case Device =>
          || x.deployment.ownerControl
          || (x.deployment.localDevice && x.deployment.ownerKey && g.budget.value.recipientsOnly)
        case Receipt(verifies) =>
          (x.deployment.ownerControl || x.deployment.localDevice) && x.deployment.deviceAuthority && verifies)
  }

  lemma ChargeableIff(x: Context, o: GrantOp, g: SpendGrant)
    requires o.Reserve?
    ensures Chargeable(x, o, g) <==> MayCharge(x, o, g)
  {
  }

  /** Payments need a grant made for payments, liquidity fees one that allows them. */
  predicate FitsPurpose(o: GrantOp, g: SpendGrant)
    requires o.Reserve? && g.budget.Some?
  {
    && (o.payment ==> !g.origin.Receipt? && !g.budget.value.recipientsOnly)
    && (o.liquidity ==> g.budget.value.liquidity)
  }

  /**
   A reservation is accepted exactly when the caller is paired at that epoch and the first grant they may
   charge fits the purpose, has room, has not seen the identities, and allows the call.
   */
  lemma ReservesIff(k: Book, x: Context, o: GrantOp, i: nat)
    requires o.Reserve? && i < |k.grants| && MayCharge(x, o, k.grants[i])
    requires forall j :: 0 <= j < i ==> !MayCharge(x, o, k.grants[j])
    ensures var b := k.grants[i].budget.value;
            EffectOf(k, x, o).reply.Accepted? <==>
              && Find(x.roster.clients, o.id).Some? && Epoch(x.roster, o.id) == o.epoch && FitsPurpose(o, k.grants[i])
              && o.ids !! b.paymentIds && |b.paymentIds| + |o.ids| <= 4096 && |b.pending| < 1024
              && (!o.payment ==> Amount(o.charges) <= 6_000) && Allowed(b, o.charges, o.now)
  {
    ChargeIndexIs(k.grants, x, o, i);
    AdmittedIff(k.grants[i].budget.value, o.rid, o.charges, o.ids, o.payment, o.now);
    hide MayCharge, Admit, Allowed, Rewrite, ChargeIndex;
  }

  /** Without a grant the caller may charge, nothing is reserved. */
  lemma NoGrantNoReservation(k: Book, x: Context, o: GrantOp)
    requires o.Reserve? && forall g :: g in k.grants ==> !MayCharge(x, o, g)
    ensures EffectOf(k, x, o) == Stay(Failed)
  {
    hide MayCharge, Admit, Rewrite;
    var i := ChargeIndex(k.grants, x, o);
    if i < |k.grants| { ChargeableIff(x, o, k.grants[i]); }
  }

  lemma ChargeIndexIs(gs: seq<SpendGrant>, x: Context, o: GrantOp, i: nat)
    requires o.Reserve? && i < |gs| && MayCharge(x, o, gs[i]) && forall j :: 0 <= j < i ==> !MayCharge(x, o, gs[j])
    ensures ChargeIndex(gs, x, o) == i
  {
    hide MayCharge, Chargeable;
    var j := ChargeIndex(gs, x, o);
    ChargeableIff(x, o, gs[i]);
    if j < i { ChargeableIff(x, o, gs[j]); }
  }

  /** A share is settled exactly where the client's grant of that id still owes it. */
  lemma ResolvesIff(k: Book, x: Context, o: GrantOp)
    requires o.ResolveShare? && Distinct(k.grants)
    ensures EffectOf(k, x, o).reply.Settled? <==>
              exists g :: g in k.grants && g.op == o.op && g.client == o.id && g.budget.Some?
                          && Outstanding(g.budget.value, o.share)
    ensures !EffectOf(k, x, o).reply.Settled? ==> EffectOf(k, x, o) == Stay(Fine)
  {
    hide Resolve, SetBudget, Outstanding, Distinct;
    if g :| g in k.grants && g.op == o.op && g.client == o.id && g.budget.Some?
            && Outstanding(g.budget.value, o.share) {
      HeldIs(k.grants, g);
    }
  }

  lemma HeldIs(gs: seq<SpendGrant>, g: SpendGrant)
    requires Distinct(gs) && g in gs
    ensures var i := HeldIndex(gs, g.op, g.client); i < |gs| && gs[i] == g
  {
    var j :| 0 <= j < |gs| && gs[j] == g;
    var i := HeldIndex(gs, g.op, g.client);
    if i < j { DistinctAt(gs, i, j); }
  }

  /** Breakers start over exactly for a working grant, by the console or the owner's device; then nothing counts. */
  lemma ResetsIff(k: Book, x: Context, o: GrantOp, g: SpendGrant)
    requires o.ResetBreakers? && Distinct(k.grants) && g in k.grants && g.op == o.op && g.client == o.id
    ensures EffectOf(k, x, o).reply.Fine? <==> (x.deployment.ownerControl || o.byDevice) && Working(g, o.now)
    ensures g.budget.Some? ==>
              var b, c := g.budget.value, Reset(g.budget.value);
              && !c.breaker.paused && c.breaker.failures == 0 && c.breaker.buckets == map[] && c.breaker.lastAt.None?
              && c.used == b.used && c.usedBy == b.usedBy && c.pending == b.pending && c.paymentIds == b.paymentIds
              && c.total == b.total && c.caps == b.caps
  {
    hide SetBudget;
    HeldIs(k.grants, g);
  }

  /** A first contact is confirmed exactly within what the call, the total and the contact's own cap leave. */
  lemma ConfirmsContactIff(k: Book, x: Context, o: GrantOp, g: SpendGrant)
    requires o.CapContact? && Distinct(k.grants) && g in k.grants && g.op == o.op && g.client == o.id
    ensures EffectOf(k, x, o).reply.Fine? <==>
              && (x.deployment.ownerControl || o.byDevice) && Working(g, o.now) && g.identity == x.bound
              && Find(x.roster.clients, o.id).Some? && Epoch(x.roster, o.id) == g.epoch
              && var b := g.budget.value;
                 && 1 <= o.amount <= 100_000 && o.amount <= b.perCall && o.amount <= 6_000
                 && b.used + o.amount <= b.total
                 && (o.peer in b.caps ==> Get(b.usedBy, o.peer) + o.amount <= b.caps[o.peer])
                 && (o.cap.Some? ==> && o.amount <= o.cap.value <= b.total
                                     && (o.peer in b.caps ==> o.cap.value == b.caps[o.peer]))
  {
    hide Capped;
    HeldIs(k.grants, g);
  }
}
