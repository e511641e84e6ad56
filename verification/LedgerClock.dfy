/**
 The breakers never let their clock go back: a call is charged at the later of its own time and the
 last charge. While the node's clock does not go back either, across restarts included, the two are
 the same, and the rate limits hold in the callers' own time.
 */
module LedgerClock {
  import opened Common
  import opened SpendBudget
  import Rates = SpendRates
  import opened Roster
  import opened GrantBook
  import opened PairingLedger

  predicate BudgetOnTime(b: Option<Budget>, t: int) {
    b.Some? && b.value.breaker.lastAt.Some? ==> b.value.breaker.lastAt.value <= t
  }

  /** No grant was charged after `t`. */
  predicate OnTime(gs: seq<SpendGrant>, t: int) { forall g :: g in gs ==> BudgetOnTime(g.budget, t) }

  // ---- Lists of grants ----

  lemma {:induction false} LiveOnTime(gs: seq<SpendGrant>, now: int, t: int)
    requires OnTime(gs, t)
    ensures OnTime(LiveGrants(gs, now), t)
  {
    hide BudgetOnTime, GrantLive;
    if gs != [] {
      assert gs[0] in gs && forall g :: g in gs[1..] ==> g in gs;
      LiveOnTime(gs[1..], now, t);
    }
  }

  lemma {:induction false} KillOnTime(gs: seq<SpendGrant>, whom: Whom, t: int)
    requires OnTime(gs, t)
    ensures OnTime(KillSpend(gs, whom), t)
  {
    hide Hits;
    if gs != [] {
      assert gs[0] in gs && forall g :: g in gs[1..] ==> g in gs;
      KillOnTime(gs[1..], whom, t);
    }
  }

  lemma {:induction false} SetBudgetOnTime(gs: seq<SpendGrant>, op: OpId, b: Option<Budget>, t: int)
    requires OnTime(gs, t) && BudgetOnTime(b, t)
    ensures OnTime(SetBudget(gs, op, b), t)
  {
    hide BudgetOnTime;
    if gs != [] {
      assert gs[0] in gs && forall g :: g in gs[1..] ==> g in gs;
      SetBudgetOnTime(gs[1..], op, b, t);
    }
  }

  lemma LaterIsOnTime(gs: seq<SpendGrant>, t: int, u: int)
    requires OnTime(gs, t) && t <= u
    ensures OnTime(gs, u)
  {
  }

  lemma RewriteOnTime(k: Book, i: nat, b: Budget, reply: Reply, t: int)
    requires OnTime(k.grants, t) && i < |k.grants| && BudgetOnTime(Some(b), t)
    ensures var fx := Rewrite(k, i, b, reply); OnTime(fx.book.grants, t) && OnTime(fx.undo.grants, t)
  {
    hide BudgetOnTime;
    assert k.grants[i] in k.grants;
    SetBudgetOnTime(k.grants[i := k.grants[i].(budget := Some(b))], k.grants[i].op, k.grants[i].budget, t);
  }

  // ---- Sections ----

  /** When a section charges or records, if it does. */
  function ChargeTime(o: GrantOp, t: int): int { if o.Reserve? || o.ResolveShare? then o.now else t }

  lemma HeldOnTime(b: Budget, o: GrantOp, t: int)
    requires o.Reserve? && BudgetOnTime(Some(b), t) && t <= o.now
    ensures BudgetOnTime(Some(Held(b, o.rid, o.charges, o.ids, o.now)), o.now)
  {
    hide Held;
    HeldBreaker(b, o.rid, o.charges, o.ids, o.now);
  }

  lemma NotedOnTime(b: Budget, c: Budget, t: int, u: int)
    requires BudgetOnTime(Some(b), t) && OnlyNoted(b, c) && t <= u
    ensures BudgetOnTime(Some(c), u)
  {
  }

  lemma AdmitOnTime(b: Budget, o: GrantOp, t: int)
    requires o.Reserve? && BudgetOnTime(Some(b), t) && t <= o.now
    ensures match Admit(b, o.rid, o.charges, o.ids, o.payment, o.now)
            case Admitted(c) => BudgetOnTime(Some(c), o.now)
            case Denied(_, noted) => noted.Some? ==> BudgetOnTime(noted, o.now)
  {
    hide Admit, WhyNot, Held, OnlyNoted, BudgetOnTime;
    AdmitShape(b, o.rid, o.charges, o.ids, o.payment, o.now);
    match Admit(b, o.rid, o.charges, o.ids, o.payment, o.now)
    case Admitted(_) => HeldOnTime(b, o, t);
    case Denied(_, noted) => if noted.Some? { NotedOnTime(b, noted.value, t, o.now); }
  }

  lemma ReserveOnTime(k: Book, x: Context, o: GrantOp, t: int)
    requires o.Reserve? && OnTime(k.grants, t) && t <= o.now
    ensures var fx := DoReserve(k, x, o); fx.Write? ==> OnTime(fx.book.grants, o.now) && OnTime(fx.undo.grants, o.now)
  {
    LaterIsOnTime(k.grants, t, o.now);
    var i := ChargeIndex(k.grants, x, o);
    if i < |k.grants| {
      var g := k.grants[i];
      assert g in k.grants;
      AdmitOnTime(g.budget.value, o, t);
      hide Admit, OnTime, BudgetOnTime, Rewrite, Permits;
      match Admit(g.budget.value, o.rid, o.charges, o.ids, o.payment, o.now)
      case Admitted(b) => RewriteOnTime(k, i, b, Accepted(g.op, o.rid, o.ids), o.now);
      case Denied(_, noted) => if noted.Some? { RewriteOnTime(k, i, noted.value, Failed, o.now); }
    }
  }

  lemma ResolveOnTime(k: Book, o: GrantOp, t: int)
    requires o.ResolveShare? && OnTime(k.grants, t) && t <= o.now
    ensures var fx := DoResolve(k, o); fx.Write? ==> OnTime(fx.book.grants, o.now) && OnTime(fx.undo.grants, o.now)
  {
    LaterIsOnTime(k.grants, t, o.now);
    var i := HeldIndex(k.grants, o.op, o.id);
    if i < |k.grants| && k.grants[i].budget.Some? && Outstanding(k.grants[i].budget.value, o.share) {
      var b := k.grants[i].budget.value;
      assert k.grants[i] in k.grants;
      assert BudgetOnTime(Some(Resolve(b, o.share, o.actual, o.now)), o.now) by { hide RemoveShare, Adjusted; }
      hide Resolve, OnTime, BudgetOnTime, Rewrite;
      RewriteOnTime(k, i, Resolve(b, o.share, o.actual, o.now), Settled(o.op, o.share), o.now);
    }
  }

  lemma ReplaceOnTime(gs: seq<SpendGrant>, g: SpendGrant, t: int)
    requires OnTime(gs, t) && BudgetOnTime(g.budget, t)
    ensures OnTime(KillSpend(gs, Only(g.client)) + [g], t)
  {
    hide BudgetOnTime, KillSpend;
    KillOnTime(gs, Only(g.client), t);
  }

  lemma GrantSpendOnTime(k: Book, x: Context, o: GrantOp, t: int)
    requires o.GrantSpend? && OnTime(k.grants, t)
    ensures var fx := DoGrantSpend(k, x, o.op, o.terms, o.now);
            fx.Write? ==> OnTime(fx.book.grants, t) && OnTime(fx.undo.grants, t)
  {
    hide OnTime, KillSpend;
    var e := FindElevation(k.elevations, o.op);
    if e.Some? {
      ReplaceOnTime(k.grants, SpendGrant(o.op, e.value.client, e.value.scopes, o.now, o.now + o.terms.ttl, x.bound,
                                         Epoch(x.roster, e.value.client), Some(FromTerms(o.terms)), Console), t);
    }
  }

  lemma OpenEnvelopeOnTime(k: Book, x: Context, o: GrantOp, t: int)
    requires o.OpenEnvelope? && OnTime(k.grants, t)
    ensures var fx := DoOpenEnvelope(k, x, o); fx.Write? ==> OnTime(fx.book.grants, t) && OnTime(fx.undo.grants, t)
  {
    hide LatestEnd, KillSpend;
    var i := RelationIndex(k.grants, o);
    if i < |k.grants| {
      assert k.grants[i] in k.grants;
    } else {
      var g := SpendGrant(o.op, o.id, {Spend}, o.now, o.now + o.window, o.node, o.epoch, None, Device);
      ReplaceOnTime(k.grants, Renewed(g, Relations(), o), t);
    }
  }

  lemma ResetOnTime(k: Book, x: Context, o: GrantOp, t: int)
    requires o.ResetBreakers? && OnTime(k.grants, t)
    ensures var fx := DoResetBreakers(k, x, o); fx.Write? ==> OnTime(fx.book.grants, t) && OnTime(fx.undo.grants, t)
  {
    var i := HeldIndex(k.grants, o.op, o.id);
    if i < |k.grants| && GrantLive(k.grants[i], o.now) {
      hide OnTime, Rewrite;
      RewriteOnTime(k, i, Reset(k.grants[i].budget.value), Fine, t);
    }
  }

  lemma CapContactOnTime(k: Book, x: Context, o: GrantOp, t: int)
    requires o.CapContact? && OnTime(k.grants, t)
    ensures var fx := DoCapContact(k, x, o); fx.Write? ==> OnTime(fx.book.grants, t) && OnTime(fx.undo.grants, t)
  {
    hide ContactFits;
    var i := HeldIndex(k.grants, o.op, o.id);
    if i < |k.grants| { assert k.grants[i] in k.grants; }
  }

  lemma EffectOnTime(k: Book, x: Context, o: GrantOp, t: int)
    requires OnTime(k.grants, t) && t <= ChargeTime(o, t)
    ensures var fx, u := EffectOf(k, x, o), ChargeTime(o, t);
            fx.Write? ==> OnTime(fx.book.grants, u) && OnTime(fx.undo.grants, u)
  {
    hide OnTime, DoGrantSpend, DoOpenEnvelope, DoReserve, DoResolve, DoResetBreakers, DoCapContact, KillSpend;
    match o
    case GrantSpend(_, _, _) => GrantSpendOnTime(k, x, o, t);
    case GrantByDevice(op, id, epoch, node, terms, verifies, now) =>
      ReplaceOnTime(k.grants, SpendGrant(op, id, {Spend}, now, now + terms.ttl, node, epoch,
                                         Some(FromTerms(terms)), Receipt(verifies)), t);
    case OpenEnvelope(_, _, _, _, _, _, _, _, _) => OpenEnvelopeOnTime(k, x, o, t);
    case EndRelations(id) => KillOnTime(k.grants, RelationsOf({id}), t);
    case RevokeGrants(whom) => KillOnTime(k.grants, whom, t);
    case Reserve(_, _, _, _, _, _, _, _, _, _) => ReserveOnTime(k, x, o, t);
    case ResolveShare(_, _, _, _, _) => ResolveOnTime(k, o, t);
    case ResetBreakers(_, _, _, _) => ResetOnTime(k, x, o, t);
    case CapContact(_, _, _, _, _, _, _) => CapContactOnTime(k, x, o, t);
    case _ =>
  }

  lemma SweptOnTime(k: Book, p: PairOp, t: int)
    requires OnTime(k.grants, t)
    ensures OnTime(Swept(k, p).grants, t)
  {
    hide OnTime;
    match p
    case Bump(id) => KillOnTime(k.grants, Only(id), t);
    case Rotate(id, _) => KillOnTime(k.grants, Only(id), t);
    case Revoke(id) => KillOnTime(k.grants, Only(id), t);
    case ConsoleRevoke(ids, owners) =>
      KillOnTime(k.grants, These(ids), t);
      KillOnTime(KillSpend(k.grants, These(ids)), RelationsOf(owners), t);
    case Rebind(_) => KillOnTime(k.grants, Everyone, t);
    case _ =>
  }

  // ---- Runs ----

  predicate BothOnTime(n: Node, t: int) { OnTime(n.mem.book.grants, t) && OnTime(n.disk.book.grants, t) }

  function TimeOf(e: Event, t: int): int { if e.Do? && e.op.Grant? then ChargeTime(e.op.grant, t) else t }

  /** Charges and outcomes come in the order of the node's clock. */
  predicate ClockRuns(es: seq<Event>, t: int)
    decreases |es|
  {
    es == [] || (t <= TimeOf(es[0], t) && ClockRuns(es[1..], TimeOf(es[0], t)))
  }

  lemma ChangeOnTime(n: Node, o: Op, t: int)
    requires OnTime(n.mem.book.grants, t) && t <= TimeOf(Do(o, Lost), t)
    ensures var c, u := ChangeOf(n, o), TimeOf(Do(o, Lost), t);
            OnTime(c.file.book.grants, u) && (c.Writes? ==> OnTime(c.undo.book.grants, u))
  {
    hide EffectOf, EditOf, Effective, OnTime, Swept;
    LaterIsOnTime(n.mem.book.grants, t, TimeOf(Do(o, Lost), t));
    match o
    case Pair(p) => SweptOnTime(n.mem.book, p, t);
    case Grant(g) => EffectOnTime(n.mem.book, Context(n.mem.roster, n.bound, n.deployment), g, t);
    case IssueToken(_, _) =>
  }

  lemma StepOnTime(n: Node, e: Event, t: int)
    requires BothOnTime(n, t) && t <= TimeOf(e, t)
    ensures BothOnTime(Step(n, e).0, TimeOf(e, t))
  {
    if e.Do? {
      hide ChangeOf, Survives, OnTime;
      ChangeOnTime(n, e.op, t);
      LaterIsOnTime(n.disk.book.grants, t, TimeOf(e, t));
      var c := ChangeOf(n, e.op);
      if c.Writes? && !e.outcome.Lost? { LiveOnTime(c.file.book.grants, e.outcome.at, TimeOf(e, t)); }
    }
  }

  /** Every paying reservation the run accepts under a grant, at the time its caller made it. */
  ghost function Made(n: Node, es: seq<Event>, op: OpId, seen: map<ReservationId, Stamp>): map<ReservationId, Stamp>
    decreases |es|
  {
    if es == [] then seen else
      var r := Said(n, es[0]);
      Made(Step(n, es[0]).0, es[1..], op,
           if Counts(r, es[0], op)
           then
             var o := es[0].op.grant;
             seen[r.rid := Stamp(o.now, Payments(o.charges), Amount(o.charges))]
           else seen)
  }

  /** A grant on time charges a call at the call's own time. */
  lemma ChargedWhenMade(n: Node, o: GrantOp, t: int)
    requires o.Reserve? && OnTime(n.mem.book.grants, t) && t <= o.now
    ensures StampOf(n, o) == Stamp(o.now, Payments(o.charges), Amount(o.charges))
  {
    hide Permits, GrantLive;
    var i := ChargeIndex(n.mem.book.grants, Context(n.mem.roster, n.bound, n.deployment), o);
    if i < |n.mem.book.grants| { assert BudgetOnTime(n.mem.book.grants[i].budget, t); }
  }

  lemma {:induction false} MadeIsAdmitted(n: Node, es: seq<Event>, op: OpId, seen: map<ReservationId, Stamp>, t: int)
    requires BothOnTime(n, t) && ClockRuns(es, t)
    ensures Made(n, es, op, seen) == Admissions(n, es, op, seen)
    decreases |es|
  {
    if es != [] {
      var e, r := es[0], Said(n, es[0]);
      if Counts(r, e, op) { ChargedWhenMade(n, e.op.grant, t); }
      StepOnTime(n, e, t);
      hide Step, Said, OnTime, StampOf;
      MadeIsAdmitted(Step(n, e).0, es[1..], op,
                     if Counts(r, e, op) then seen[r.rid := StampOf(n, e.op.grant)] else seen, TimeOf(e, t));
    }
  }

  /**
   While the clock does not go back, no minute and no hour of it sees more payments accepted under a
   grant, and no ten minutes a larger amount, than its acknowledged terms allow until a reset.
   */
  lemma {:induction false} RatesHoldInRealTime(n: Node, e: Event, es: seq<Event>, t: int)
    requires BooksOk(n, None) && BothOnTime(n, t) && ClockRuns([e] + es, t)
    requires LegalRun(n, [e] + es) && Grants(n, e) && NoReset(es, e.op.grant.op)
    ensures var l := Begins(n.mem.book, e.op.grant).value.limits;
            Said(n, e).Fine? ==> Rates.Rationed(l, Made(Step(n, e).0, es, e.op.grant.op, map[]))
  {
    assert ([e] + es)[1..] == es;
    hide BooksOk, Step, Said, LegalRun, Rates.Rationed, OnTime, Begins;
    GrantKeepsToItsRates(n, e, es);
    StepOnTime(n, e, t);
    MadeIsAdmitted(Step(n, e).0, es, e.op.grant.op, map[], TimeOf(e, t));
  }
}
