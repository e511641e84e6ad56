/**
 A client holds at most one working spend grant: writing a new one ends the old one in the same
 step, and no failure or restart brings it back beside the new one.
 */
module OneGrant {
  import opened Common
  import opened SpendBudget
  import opened Roster
  import opened GrantBook
  import opened PairingLedger

  /** No grant of this client can spend. */
  predicate Spent(gs: seq<SpendGrant>, id: ClientId) { forall g :: g in gs && g.client == id ==> g.budget.None? }

  predicate OneEach(gs: seq<SpendGrant>) {
    gs == [] || ((gs[0].budget.Some? ==> Spent(gs[1..], gs[0].client)) && OneEach(gs[1..]))
  }

  // ---- What the edits of a list of grants keep ----

  lemma {:induction false} LiveKeepsOne(gs: seq<SpendGrant>, now: int)
    requires OneEach(gs)
    ensures OneEach(LiveGrants(gs, now)) && forall g :: g in LiveGrants(gs, now) ==> g in gs
  {
    if gs != [] {
      LiveKeepsOne(gs[1..], now);
      var rest := LiveGrants(gs[1..], now);
      if GrantLive(gs[0], now) { assert LiveGrants(gs, now)[1..] == rest; } else { assert LiveGrants(gs, now) == rest; }
    }
  }

  lemma {:induction false} KillKeepsOne(gs: seq<SpendGrant>, whom: Whom)
    requires OneEach(gs)
    ensures OneEach(KillSpend(gs, whom))
    ensures whom.These? ==> forall id :: id in whom.ids ==> Spent(KillSpend(gs, whom), id)
    ensures forall id :: Spent(gs, id) ==> Spent(KillSpend(gs, whom), id)
  {
    if gs != [] {
      KillKeepsOne(gs[1..], whom);
      assert KillSpend(gs, whom)[1..] == KillSpend(gs[1..], whom);
      forall id | Spent(gs, id) ensures Spent(KillSpend(gs, whom), id) { assert gs[0] in gs && Spent(gs[1..], id); }
    }
  }

  lemma {:induction false} AppendKeepsOne(gs: seq<SpendGrant>, g: SpendGrant)
    requires OneEach(gs) && Spent(gs, g.client)
    ensures OneEach(gs + [g])
  {
    if gs != [] {
      assert gs[0] in gs && Spent(gs[1..], g.client);
      AppendKeepsOne(gs[1..], g);
      assert (gs + [g])[1..] == gs[1..] + [g];
    }
  }

  lemma {:induction false} EditKeepsOne(gs: seq<SpendGrant>, i: nat, h: SpendGrant)
    requires OneEach(gs) && i < |gs| && gs[i].budget.Some? && h.client == gs[i].client
    ensures OneEach(gs[i := h])
    ensures forall id :: Spent(gs, id) ==> Spent(gs[i := h], id)
  {
    var all := gs[i := h];
    assert gs[i] in gs;
    if i == 0 {
      assert all[1..] == gs[1..];
    } else {
      assert all[1..] == gs[1..][i - 1 := h];
      EditKeepsOne(gs[1..], i - 1, h);
    }
  }

  /** A new grant in place of the client's old ones. */
  lemma ReplaceKeepsOne(gs: seq<SpendGrant>, g: SpendGrant)
    requires OneEach(gs)
    ensures OneEach(KillSpend(gs, Only(g.client)) + [g])
  {
    KillKeepsOne(gs, Only(g.client));
    AppendKeepsOne(KillSpend(gs, Only(g.client)), g);
  }

  // ---- Every section ----

  lemma RewriteKeepsOne(k: Book, i: nat, b: Budget, reply: Reply)
    requires OneEach(k.grants) && Distinct(k.grants) && i < |k.grants| && k.grants[i].budget.Some?
    ensures var fx := Rewrite(k, i, b, reply); OneEach(fx.book.grants) && fx.undo.grants == k.grants
  {
    hide OneEach, Distinct, SetBudget;
    SetBudgetRestores(k.grants, i, Some(b));
    EditKeepsOne(k.grants, i, k.grants[i].(budget := Some(b)));
  }

  lemma ReserveKeepsOne(k: Book, x: Context, o: GrantOp)
    requires o.Reserve? && OneEach(k.grants) && Distinct(k.grants)
    ensures var fx := DoReserve(k, x, o); fx.Write? ==> OneEach(fx.book.grants) && OneEach(fx.undo.grants)
  {
    hide Admit, OneEach, Distinct, Rewrite, Permits;
    var i := ChargeIndex(k.grants, x, o);
    if i < |k.grants| {
      var g := k.grants[i];
      match Admit(g.budget.value, o.rid, o.charges, o.ids, o.payment, o.now)
      case Admitted(b) => RewriteKeepsOne(k, i, b, Accepted(g.op, o.rid, o.ids));
      case Denied(_, noted) => if noted.Some? { RewriteKeepsOne(k, i, noted.value, Failed); }
    }
  }

  lemma ResolveKeepsOne(k: Book, o: GrantOp)
    requires o.ResolveShare? && OneEach(k.grants) && Distinct(k.grants)
    ensures var fx := DoResolve(k, o); fx.Write? ==> OneEach(fx.book.grants) && OneEach(fx.undo.grants)
  {
    hide Resolve, OneEach, Distinct, Rewrite;
    var i := HeldIndex(k.grants, o.op, o.id);
    if i < |k.grants| && k.grants[i].budget.Some? && Outstanding(k.grants[i].budget.value, o.share) {
      RewriteKeepsOne(k, i, Resolve(k.grants[i].budget.value, o.share, o.actual, o.now), Settled(o.op, o.share));
    }
  }

  lemma ResetKeepsOne(k: Book, x: Context, o: GrantOp)
    requires o.ResetBreakers? && OneEach(k.grants) && Distinct(k.grants)
    ensures var fx := DoResetBreakers(k, x, o); fx.Write? ==> OneEach(fx.book.grants) && OneEach(fx.undo.grants)
  {
    hide Reset, OneEach, Distinct, Rewrite;
    var i := HeldIndex(k.grants, o.op, o.id);
    if i < |k.grants| && GrantLive(k.grants[i], o.now) { RewriteKeepsOne(k, i, Reset(k.grants[i].budget.value), Fine); }
  }

  lemma GrantSpendKeepsOne(k: Book, x: Context, o: GrantOp)
    requires o.GrantSpend? && OneEach(k.grants)
    ensures var fx := DoGrantSpend(k, x, o.op, o.terms, o.now);
            fx.Write? ==> OneEach(fx.book.grants) && OneEach(fx.undo.grants)
  {
    hide OneEach, KillSpend;
    var e := FindElevation(k.elevations, o.op);
    if e.Some? {
      ReplaceKeepsOne(k.grants, SpendGrant(o.op, e.value.client, e.value.scopes, o.now, o.now + o.terms.ttl, x.bound,
                                           Epoch(x.roster, e.value.client), Some(FromTerms(o.terms)), Console));
    }
  }

  /** An envelope goes into the client's one relation grant, or into a new grant that replaces what is over. */
  lemma OpenEnvelopeKeepsOne(k: Book, x: Context, o: GrantOp)
    requires o.OpenEnvelope? && OneEach(k.grants)
    ensures var fx := DoOpenEnvelope(k, x, o); fx.Write? ==> OneEach(fx.book.grants) && OneEach(fx.undo.grants)
  {
    hide OneEach, KillSpend, Enveloped, LatestEnd;
    var i := RelationIndex(k.grants, o);
    if i < |k.grants| {
      EditKeepsOne(k.grants, i, Renewed(k.grants[i], k.grants[i].budget.value, o));
    } else {
      var g := SpendGrant(o.op, o.id, {Spend}, o.now, o.now + o.window, o.node, o.epoch, None, Device);
      ReplaceKeepsOne(k.grants, Renewed(g, Relations(), o));
    }
  }

  lemma CapContactKeepsOne(k: Book, x: Context, o: GrantOp)
    requires o.CapContact? && OneEach(k.grants)
    ensures var fx := DoCapContact(k, x, o); fx.Write? ==> OneEach(fx.book.grants) && OneEach(fx.undo.grants)
  {
    hide Capped, ContactFits, OneEach;
    var i := HeldIndex(k.grants, o.op, o.id);
    if i < |k.grants| && GrantLive(k.grants[i], o.now) && o.cap.Some? {
      EditKeepsOne(k.grants, i, k.grants[i].(budget := Some(Capped(k.grants[i].budget.value, o.peer, o.cap.value))));
    }
  }

  lemma EffectKeepsOne(k: Book, x: Context, o: GrantOp)
    requires OneEach(k.grants) && Distinct(k.grants)
    ensures var fx := EffectOf(k, x, o); fx.Write? ==> OneEach(fx.book.grants) && OneEach(fx.undo.grants)
  {
    hide OneEach, Distinct, DoGrantSpend, DoOpenEnvelope, DoReserve, DoResolve, DoResetBreakers, DoCapContact;
    match o
    case GrantSpend(_, _, _) => GrantSpendKeepsOne(k, x, o);
    case GrantByDevice(op, id, epoch, node, terms, verifies, now) =>
      ReplaceKeepsOne(k.grants, SpendGrant(op, id, {Spend}, now, now + terms.ttl, node, epoch,
                                           Some(FromTerms(terms)), Receipt(verifies)));
    case OpenEnvelope(_, _, _, _, _, _, _, _, _) => OpenEnvelopeKeepsOne(k, x, o);
    case EndRelations(id) => KillKeepsOne(k.grants, RelationsOf({id}));
    case RevokeGrants(whom) => KillKeepsOne(k.grants, whom);
    case Reserve(_, _, _, _, _, _, _, _, _, _) => ReserveKeepsOne(k, x, o);
    case ResolveShare(_, _, _, _, _) => ResolveKeepsOne(k, o);
    case ResetBreakers(_, _, _, _) => ResetKeepsOne(k, x, o);
    case CapContact(_, _, _, _, _, _, _) => CapContactKeepsOne(k, x, o);
    case _ =>
  }

  // ---- Runs ----

  predicate BothOne(n: Node) { OneEach(n.mem.book.grants) && OneEach(n.disk.book.grants) }

  lemma SweptKeepsOne(k: Book, p: PairOp)
    requires OneEach(k.grants)
    ensures OneEach(Swept(k, p).grants)
  {
    hide OneEach;
    match p
    case Bump(id) => KillKeepsOne(k.grants, Only(id));
    case Rotate(id, _) => KillKeepsOne(k.grants, Only(id));
    case Revoke(id) => KillKeepsOne(k.grants, Only(id));
    case ConsoleRevoke(ids, owners) =>
      KillKeepsOne(k.grants, These(ids));
      KillKeepsOne(KillSpend(k.grants, These(ids)), RelationsOf(owners));
    case Rebind(_) => KillKeepsOne(k.grants, Everyone);
    case _ =>
  }

  lemma ChangeKeepsOne(n: Node, o: Op)
    requires OneEach(n.mem.book.grants) && Distinct(n.mem.book.grants)
    ensures var c := ChangeOf(n, o); OneEach(c.file.book.grants) && (c.Writes? ==> OneEach(c.undo.book.grants))
  {
    hide EffectOf, EditOf, Effective, OneEach, Distinct, Swept;
    match o
    case Pair(p) => SweptKeepsOne(n.mem.book, p);
    case Grant(g) => EffectKeepsOne(n.mem.book, Context(n.mem.roster, n.bound, n.deployment), g);
    case IssueToken(_, _) =>
  }

  lemma StepKeepsOne(n: Node, e: Event)
    requires BothOne(n) && Distinct(n.mem.book.grants)
    ensures BothOne(Step(n, e).0)
  {
    if e.Do? {
      hide ChangeOf, Survives, OneEach;
      ChangeKeepsOne(n, e.op);
      var c := ChangeOf(n, e.op);
      if c.Writes? && !e.outcome.Lost? { LiveKeepsOne(c.file.book.grants, e.outcome.at); }
    }
  }

  /** Over every run, in memory and on disk, no client ever has two grants that can spend. */
  lemma {:induction false} OneGrantPerClient(n: Node, es: seq<Event>)
    requires BooksOk(n, None) && BothOne(n) && LegalRun(n, es)
    ensures BothOne(After(n, es))
    decreases |es|
  {
    if es != [] {
      assert Distinct(n.mem.book.grants);
      hide BooksOk, BothOne, Step, Legal;
      assert SparedBy(es[0], None);
      StepKeepsBooks(n, es[0], None);
      StepKeepsOne(n, es[0]);
      OneGrantPerClient(Step(n, es[0]).0, es[1..]);
    }
  }

  /** Two grants of one client that can both spend are the same grant. */
  lemma {:induction false} WorkingGrantIsUnique(gs: seq<SpendGrant>, i: nat, j: nat)
    requires OneEach(gs) && i < j < |gs| && gs[i].client == gs[j].client
    ensures gs[i].budget.None? || gs[j].budget.None?
  {
    if i == 0 { assert gs[j] in gs[1..]; } else { WorkingGrantIsUnique(gs[1..], i - 1, j - 1); }
  }
}
