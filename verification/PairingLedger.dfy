/**
 The pairing authority as one state machine: an in-memory file, the durable file it is
 mirrored to, writes that can fail before or after the rename, and restarts that reload disk.
 Each locked section of the service is one step.
 */
module PairingLedger {
  import opened Common
  import opened SpendBudget
  import opened Roster
  import opened GrantBook
  import Rates = SpendRates

  const INACTIVITY: int := 180 * 24 * 3600

  datatype File = File(roster: Roster, book: Book)

  datatype Token = Token(client: ClientId, epoch: nat, identity: string, scopes: set<Scope>)

  datatype Op = Pair(pair: PairOp) | Grant(grant: GrantOp) | IssueToken(id: ClientId, now: int)

  /**
   What a write did: failed with the durable file untouched; renamed the new file into place and
   was then reported as failed; or succeeded. `at` is when dead grants were last pruned.
   */
  datatype Outcome = Lost | Torn(at: int) | Kept(at: int)

  /** `drawn` is a history variable: every operation and reservation id ever drawn at random. */
  datatype Node = Node(mem: File, disk: File, bound: string, deployment: Deployment, drawn: set<string>)

  datatype Event = Do(op: Op, outcome: Outcome) | Restart(bound: string, deployment: Deployment)

  datatype Answer = Told(reply: Reply) | Issued(token: Token)

  function Pruned(f: File, at: int): File { f.(book := Live(f.book, at)) }

  // ---- Tokens ----

  predicate Lends(k: Book, bound: string, r: Client, g: SpendGrant, now: int) {
    g in k.grants && g.client == r.id && GrantLive(g, now) && g.epoch == r.epoch && g.identity == bound
  }

  predicate DoorOpen(k: Book, bound: string, r: Client, now: int) {
    exists g :: g in k.frontDoor && g.client == r.id && FrontDoorLive(g, now)
                && g.epoch == r.epoch && g.identity == bound
  }

  /** The scopes a pairing carries in this deployment, at issuance and at every request. */
  function Effective(f: File, bound: string, d: Deployment, r: Client, now: int): set<Scope> {
    if r.scopes == {} then {} else
      (if d.ownerControl then r.scopes else r.scopes - GRANTABLE)
      + (set g, s | g in f.book.grants && s in g.scopes && Lends(f.book, bound, r, g, now)
                    && (d.ownerControl || (s == Spend && Permits(d, g))) :: s)
      + (if d.ownerControl && DoorOpen(f.book, bound, r, now) then {FrontDoor} else {})
  }

  /** `verify_token_binding`: every authenticated request carrying a client id passes here. */
  predicate Accepts(n: Node, t: Token, now: int) {
    var r := Find(n.mem.roster.clients, t.client);
    n.bound == t.identity && r.Some? && r.value.epoch == t.epoch && r.value.identity == t.identity
    && t.scopes <= Effective(n.mem, n.bound, n.deployment, r.value, now)
  }

  /**
   A node without an owner console accepts `spend` only on a grant its owner's device signed, for this
   client's current epoch and this identity, with a budget and unexpired. It never accepts `front door`,
   whatever the pairing record says.
   */
  lemma SidecarSpendNeedsOwnerDevice(n: Node, t: Token, now: int)
    requires Accepts(n, t, now) && !n.deployment.ownerControl
    ensures FrontDoor !in t.scopes
    ensures Spend in t.scopes ==>
              exists g :: && g in n.mem.book.grants && g.client == t.client && Spend in g.scopes
                          && g.epoch == t.epoch && g.identity == t.identity == n.bound
                          && g.budget.Some? && now < g.expiresAt <= g.grantedAt + 24 * 3600
                          && n.deployment.localDevice && !g.origin.Console?
  {
    var r := Find(n.mem.roster.clients, t.client).value;
    FindId(n.mem.roster.clients, t.client);
    if Spend in t.scopes {
      assert Spend !in r.scopes - GRANTABLE;
      var g :| g in n.mem.book.grants && Spend in g.scopes && Lends(n.mem.book, n.bound, r, g, now)
               && Permits(n.deployment, g);
      assert g.client == t.client;
    }
  }

  // ---- Steps ----

  /** What a pairing section does to the grants in the same file. */
  function Swept(k: Book, o: PairOp): Book {
    match o
    case Bump(id) => Kill(k, Only(id))
    case Rotate(id, _) => Kill(k, Only(id))
    case Revoke(id) => Kill(k, Only(id)).(elevations := ElevationsExceptClients(k.elevations, {id}))
    case ConsoleRevoke(ids, owners) =>
      Kill(Kill(k, These(ids)), RelationsOf(owners)).(elevations := ElevationsExceptClients(k.elevations, ids))
    case Rebind(_) => Kill(k, Everyone).(elevations := [])
    case _ => k
  }

  /** One section's edit: the file it writes (if it writes), the memory left by a failed write, the answer. */
  datatype Change = NoWrite(file: File, answer: Answer) | Writes(file: File, undo: File, answer: Answer)

  function ChangeByPair(f: File, bound: string, o: PairOp): Change {
    match EditOf(f.roster, bound, o)
    case Refuse(r) => NoWrite(f.(roster := r), Told(Failed))
    case Agree(r) => NoWrite(f.(roster := r), Told(Fine))
    case Commit(r, rollback) =>
      var g := File(r, Swept(f.book, o));
      Writes(g, if rollback then f else g, Told(Fine))
  }

  ghost function ChangeByGrant(f: File, bound: string, d: Deployment, o: GrantOp): Change {
    match EffectOf(f.book, Context(f.roster, bound, d), o)
    case Stay(r) => NoWrite(f, Told(r))
    case Write(k, undo, r) => Writes(f.(book := k), f.(book := undo), Told(r))
  }

  /** A token is handed out only once the ledger recording its use is durable. */
  function ChangeByIssue(f: File, bound: string, d: Deployment, id: ClientId, now: int): Change {
    match Find(f.roster.clients, id)
    case None => NoWrite(f, Told(Failed))
    case Some(r) =>
      var seen := if r.lastSeen.Some? then r.lastSeen.value else r.createdAt;
      if r.identity != bound || now - seen > INACTIVITY then NoWrite(f, Told(Failed)) else
        var g := f.(roster := EditOf(f.roster, bound, Touch(id, now)).roster);
        Writes(g, g, Issued(Token(id, r.epoch, bound, Effective(f, bound, d, r, now))))
  }

  ghost function ChangeOf(n: Node, o: Op): Change {
    match o
    case Pair(p) => ChangeByPair(n.mem, n.bound, p)
    case Grant(g) => ChangeByGrant(n.mem, n.bound, n.deployment, g)
    case IssueToken(id, now) => ChangeByIssue(n.mem, n.bound, n.deployment, id, now)
  }

  function DrawsOf(o: Op): set<string> { if o.Grant? then Draws(o.grant) else {} }

  /** A reservation whose grant died while the ledger was syncing is not handed out. */
  predicate Survives(f: File, o: Op, a: Answer) {
    o.Grant? && o.grant.Reserve? && a.Told? && a.reply.Accepted? ==>
      exists g :: g in f.book.grants && g.op == a.reply.op && GrantLive(g, o.grant.late)
  }

  /** Memory, disk and answer after a change whose write had this outcome. */
  function Settle(n: Node, c: Change, o: Op, w: Outcome): (Node, Answer) {
    match c
    case NoWrite(f, a) => (n.(mem := f), a)
    case Writes(f, undo, a) =>
      match w
      case Lost => (n.(mem := undo), Told(Failed))
      case Torn(at) => (n.(mem := undo, disk := Pruned(f, at)), Told(Failed))
      case Kept(at) => (n.(mem := Pruned(f, at), disk := Pruned(f, at)),
                        if Survives(Pruned(f, at), o, a) then a else Told(Failed))
  }

  ghost function Step(n: Node, e: Event): (Node, Answer) {
    match e
    case Restart(bound, d) => (n.(mem := n.disk, bound := bound, deployment := d), Told(Fine))
    case Do(o, w) =>
      Settle(n.(bound := if o.Pair? && o.pair.Rebind? then o.pair.identity else n.bound, drawn := n.drawn + DrawsOf(o)),
             ChangeOf(n, o), o, w)
  }

  ghost function After(n: Node, es: seq<Event>): Node
    decreases |es|
  {
    if es == [] then n else After(Step(n, es[0]).0, es[1..])
  }

  /** Every token handed out during the run. */
  ghost function Handed(n: Node, es: seq<Event>): set<Token>
    decreases |es|
  {
    if es == [] then {} else
      var (m, a) := Step(n, es[0]);
      (if a.Issued? then {a.token} else {}) + Handed(m, es[1..])
  }

  /** Random ids are new, and no 64-bit epoch wraps or tally clips. */
  predicate Legal(n: Node, e: Event) {
    e.Do? ==> DrawsOf(e.op) !! n.drawn
              && (e.op.Pair? && e.op.pair.Bump? ==> Epoch(n.mem.roster, e.op.pair.id) < U64_MAX)
              && (e.op.Grant? ==> NoClip(n.mem.book, e.op.grant))
  }

  ghost predicate LegalRun(n: Node, es: seq<Event>)
    decreases |es|
  {
    es == [] || (Legal(n, es[0]) && LegalRun(Step(n, es[0]).0, es[1..]))
  }

  // ---- Epochs over runs ----

  predicate Retired(n: Node, x: ClientId, b: nat) {
    Beyond(n.mem.roster, x, b) && Beyond(n.disk.roster, x, b)
  }

  /** Both files a change can leave in memory or on disk advance every client. */
  lemma ChangeAdvances(n: Node, o: Op, x: ClientId, b: nat)
    requires InStep(n.mem.roster, x)
    requires o.Pair? && o.pair.Bump? ==> Epoch(n.mem.roster, o.pair.id) < U64_MAX
    ensures var c := ChangeOf(n, o);
            Advances(n.mem.roster, c.file.roster, x, b) && (c.Writes? ==> Advances(n.mem.roster, c.undo.roster, x, b))
  {
    match o
    case Pair(p) => EditAdvances(n.mem.roster, n.bound, p, x, b);
    case Grant(_) =>
    case IssueToken(id, now) => EditAdvances(n.mem.roster, n.bound, Touch(id, now), x, b);
  }

  /** Where a step's files come from. */
  lemma StepRosters(n: Node, o: Op, w: Outcome)
    ensures var c := ChangeOf(n, o);
            var m := Step(n, Do(o, w)).0;
            && (m.mem.roster == c.file.roster || (c.Writes? && m.mem.roster == c.undo.roster))
            && (m.disk.roster == n.disk.roster || (c.Writes? && m.disk.roster == c.file.roster))
  {
    hide ChangeOf, Survives;
  }

  ghost predicate BothInStep(n: Node, x: ClientId) { InStep(n.mem.roster, x) && InStep(n.disk.roster, x) }

  predicate BothMark(n: Node, x: ClientId, b: nat) { Mark(n.mem.roster, x) >= b && Mark(n.disk.roster, x) >= b }

  lemma StepAdvances(n: Node, e: Event, x: ClientId, b: nat)
    requires BothInStep(n, x) && Legal(n, e)
    ensures var m := Step(n, e).0;
            BothInStep(m, x) && (Retired(n, x, b) ==> Retired(m, x, b)) && (BothMark(n, x, b) ==> BothMark(m, x, b))
  {
    if e.Do? {
      hide ChangeOf, Step, InStep, Beyond, Mark;
      ChangeAdvances(n, e.op, x, b);
      StepRosters(n, e.op, e.outcome);
    }
  }

  ghost predicate RostersOk(n: Node) { forall x :: BothInStep(n, x) }

  lemma StepKeepsRosters(n: Node, e: Event)
    requires RostersOk(n) && Legal(n, e)
    ensures RostersOk(Step(n, e).0)
  {
    hide Step, BothInStep, Retired, BothMark, Legal;
    forall x ensures BothInStep(Step(n, e).0, x) { StepAdvances(n, e, x, 0); }
  }

  lemma {:induction false} RunAdvances(n: Node, es: seq<Event>, x: ClientId, b: nat)
    requires RostersOk(n) && LegalRun(n, es)
    ensures var m := After(n, es);
            RostersOk(m) && (Retired(n, x, b) ==> Retired(m, x, b)) && (BothMark(n, x, b) ==> BothMark(m, x, b))
    decreases |es|
  {
    hide Step, Legal, Retired, BothMark, BothInStep;
    if es != [] {
      StepKeepsRosters(n, es[0]);
      StepAdvances(n, es[0], x, b);
      RunAdvances(Step(n, es[0]).0, es[1..], x, b);
    }
  }

  /** A handed-out token's epoch is on disk before the client sees it. */
  lemma IssueIsRemembered(n: Node, e: Event)
    requires Step(n, e).1.Issued?
    ensures var (m, a) := Step(n, e); BothMark(m, a.token.client, a.token.epoch)
  {
    hide Survives, Effective, EffectOf;
    assert e.Do? && e.op.IssueToken?;
    var id := e.op.id;
    var r := Find(n.mem.roster.clients, id).value;
    FindId(n.mem.roster.clients, id);
    FindPut(n.mem.roster.clients, r.(lastSeen := Some(e.op.now)), id);
  }

  lemma {:induction false} HandedAreRemembered(n: Node, es: seq<Event>, t: Token)
    requires RostersOk(n) && LegalRun(n, es) && t in Handed(n, es)
    ensures BothMark(After(n, es), t.client, t.epoch)
    decreases |es|
  {
    hide Step, Legal, Retired, BothMark, BothInStep;
    var (m, a) := Step(n, es[0]);
    StepKeepsRosters(n, es[0]);
    if a.Issued? && a.token == t {
      IssueIsRemembered(n, es[0]);
      RunAdvances(m, es[1..], t.client, t.epoch);
    } else {
      HandedAreRemembered(m, es[1..], t);
    }
  }

  /** An acknowledged retirement holds in memory and on disk. */
  lemma RetirementIsDurable(n: Node, p: PairOp, w: Outcome, x: ClientId)
    requires InStep(n.mem.roster, x) && Legal(n, Do(Pair(p), w)) && Retires(p, x)
    requires Step(n, Do(Pair(p), w)).1 == Told(Fine)
    ensures Retired(Step(n, Do(Pair(p), w)).0, x, Mark(n.mem.roster, x))
  {
    hide Survives, Effective, ChangeByGrant, Beyond, Mark, Swept;
    EditAdvances(n.mem.roster, n.bound, p, x, 0);
  }

  lemma RetiredTokenRefused(n: Node, t: Token, b: nat, now: int)
    requires Retired(n, t.client, b) && t.epoch <= b
    ensures !Accepts(n, t, now)
  {
    hide Effective;
  }

  /**
   Once a revocation, bump, rotation or re-pairing of a client has been acknowledged, no token
   handed out for that client before it is accepted again: over every later run, with writes that
   fail before or after the rename, restarts that reload disk, and the same key pairing again.
   */
  lemma {:induction false} RevocationIsPermanent(n: Node, before: seq<Event>, p: PairOp, w: Outcome,
                                                 after: seq<Event>, t: Token, now: int)
    requires RostersOk(n) && LegalRun(n, before) && t in Handed(n, before)
    requires var n1 := After(n, before);
             var e := Do(Pair(p), w);
             Legal(n1, e) && Retires(p, t.client) && Step(n1, e).1 == Told(Fine) && LegalRun(Step(n1, e).0, after)
    ensures !Accepts(After(Step(After(n, before), Do(Pair(p), w)).0, after), t, now)
  {
    hide Step, Legal, Accepts, Retired;
    var n1 := After(n, before);
    var n2 := Step(n1, Do(Pair(p), w)).0;
    var b := Mark(n1.mem.roster, t.client);
    HandedAreRemembered(n, before, t);
    RunAdvances(n, before, t.client, 0);
    assert BothInStep(n1, t.client);
    RetirementIsDurable(n1, p, w, t.client);
    StepKeepsRosters(n1, Do(Pair(p), w));
    RunAdvances(n2, after, t.client, b);
    RetiredTokenRefused(After(n2, after), t, b, now);
  }

  /**
   The acknowledgement is what counts. A revocation always refuses the token in memory; after a crash
   the token is accepted again exactly when nothing was written, because the write was lost before the
   rename or memory had no such client any more, and what disk held before accepts it. A write
   that failed later was reported as a failure too, and is not undone.
   */
  lemma RevocationSurvivesCrashIff(n: Node, t: Token, w: Outcome, bound: string, d: Deployment, now: int)
    ensures var n1 := Step(n, Do(Pair(Revoke(t.client)), w)).0;
            && !Accepts(n1, t, now)
            && (Accepts(Step(n1, Restart(bound, d)).0, t, now) <==>
                && (w.Lost? || Find(n.mem.roster.clients, t.client).None?)
                && Accepts(Step(n, Restart(bound, d)).0, t, now))
  {
    hide Effective, Survives;
    FindWithout(n.mem.roster.clients, t.client, t.client);
  }

  // ---- First-run authority over runs ----

  predicate BothStripped(n: Node) { AllStripped(n.mem.roster.clients) && AllStripped(n.disk.roster.clients) }

  lemma StepStrips(n: Node, e: Event)
    requires BothStripped(n)
    ensures BothStripped(Step(n, e).0)
  {
    if e.Do? {
      assert var c := ChangeOf(n, e.op);
             AllStripped(c.file.roster.clients) && (c.Writes? ==> AllStripped(c.undo.roster.clients)) by {
        hide EffectOf, Effective, Swept;
        match e.op
        case Pair(p) => EditStrips(n.mem.roster, n.bound, p);
        case Grant(_) =>
        case IssueToken(id, now) => EditStrips(n.mem.roster, n.bound, Touch(id, now));
      }
      hide ChangeOf, Step;
      StepRosters(n, e.op, e.outcome);
    }
  }

  // ---- Grants over runs ----

  ghost predicate BooksOk(n: Node, w: Option<Witness>) {
    BookOk(n.mem.book, n.drawn, w) && BookOk(n.disk.book, n.drawn, w)
  }

  lemma SweptKeeps(k: Book, p: PairOp, drawn: set<string>, w: Option<Witness>)
    requires BookOk(k, drawn, w)
    ensures BookOk(Swept(k, p), drawn, w)
  {
    hide BookOk, KillSpend, KillFrontDoor, ElevationsExceptClients;
    match p
    case Bump(id) => KillBookOk(k, Only(id), drawn, w);
    case Rotate(id, _) => KillBookOk(k, Only(id), drawn, w);
    case Revoke(id) =>
      KillBookOk(k, Only(id), drawn, w);
      FewerElevations(k, Kill(k, Only(id)), {id}, drawn, w);
    case ConsoleRevoke(ids, owners) =>
      KillBookOk(k, These(ids), drawn, w);
      KillBookOk(Kill(k, These(ids)), RelationsOf(owners), drawn, w);
      FewerElevations(k, Kill(Kill(k, These(ids)), RelationsOf(owners)), ids, drawn, w);
    case Rebind(_) =>
      KillBookOk(k, Everyone, drawn, w);
      RequestedKeeps(Kill(k, Everyone), [], drawn, w);
    case _ =>
  }

  lemma FewerElevations(k: Book, l: Book, ids: set<ClientId>, drawn: set<string>, w: Option<Witness>)
    requires BookOk(l, drawn, w) && l.elevations == k.elevations
    ensures BookOk(l.(elevations := ElevationsExceptClients(k.elevations, ids)), drawn, w)
  {
    hide BookOk;
    ExceptWithin(k.elevations, "", ids, 0);
    RequestedKeeps(l, ElevationsExceptClients(k.elevations, ids), drawn, w);
  }

  /** The event does not itself end what the witness is about. */
  predicate SparedBy(e: Event, w: Option<Witness>) { e.Do? && e.op.Grant? ==> Spares(e.op.grant, w) }

  predicate SparedRun(es: seq<Event>, w: Option<Witness>) { forall e :: e in es ==> SparedBy(e, w) }

  /** The witness only says what nothing can change again, such as what was consumed or resolved. */
  predicate Lasting(v: Witness) { v.held == map[] && v.admitted == map[] && v.ceiling.None? }

  lemma AlwaysSpared(es: seq<Event>, w: Option<Witness>)
    requires w.Some? ==> Lasting(w.value)
    ensures SparedRun(es, w)
  {
  }

  lemma ChangeKeeps(n: Node, o: Op, w: Option<Witness>)
    requires BookOk(n.mem.book, n.drawn, w) && Legal(n, Do(o, Lost)) && SparedBy(Do(o, Lost), w)
    ensures var c := ChangeOf(n, o);
            var drawn := n.drawn + DrawsOf(o);
            BookOk(c.file.book, drawn, w) && (c.Writes? ==> BookOk(c.undo.book, drawn, w))
  {
    hide BookOk, EffectOf, EditOf, Swept, Effective, NoClip, Spares;
    BookGrows(n.mem.book, n.drawn, n.drawn + DrawsOf(o), w);
    match o
    case Pair(p) => SweptKeeps(n.mem.book, p, n.drawn + DrawsOf(o), w);
    case Grant(g) => EffectKeeps(n.mem.book, Context(n.mem.roster, n.bound, n.deployment), g, n.drawn, w);
    case IssueToken(id, now) =>
  }

  /** What a change leaves sound in every file it can leave, the step leaves sound. */
  lemma ChangeCarries(n: Node, e: Event, w: Option<Witness>)
    requires e.Do? && BookOk(n.disk.book, n.drawn, w)
    requires var c, drawn := ChangeOf(n, e.op), n.drawn + DrawsOf(e.op);
             BookOk(c.file.book, drawn, w) && (c.Writes? ==> BookOk(c.undo.book, drawn, w))
    ensures BooksOk(Step(n, e).0, w)
  {
    hide BookOk, ChangeOf, Survives, Live;
    var c, drawn := ChangeOf(n, e.op), n.drawn + DrawsOf(e.op);
    BookGrows(n.disk.book, n.drawn, drawn, w);
    match e.outcome
    case Lost =>
    case Torn(at) => LiveBookOk(c.file.book, at, drawn, w);
    case Kept(at) => LiveBookOk(c.file.book, at, drawn, w);
  }

  lemma StepKeepsBooks(n: Node, e: Event, w: Option<Witness>)
    requires BooksOk(n, w) && Legal(n, e) && SparedBy(e, w)
    ensures BooksOk(Step(n, e).0, w)
  {
    hide BookOk, ChangeOf, SparedBy, NoClip;
    if e.Do? {
      assert SparedBy(Do(e.op, Lost), w) by { SameOperation(e, Lost, w); }
      ChangeKeeps(n, e.op, w);
      hide Step;
      ChangeCarries(n, e, w);
    }
  }

  lemma SameOperation(e: Event, out: Outcome, w: Option<Witness>)
    requires e.Do?
    ensures SparedBy(e, w) == SparedBy(Do(e.op, out), w)
  {
  }

  /**
   Over every run, in memory and on disk: every budget's committed total is its settled shares plus
   its pending ones, every recipient's column balances, no share is both pending and settled, the
   breakers' limits hold in every rolling window, and nothing recorded about a grant is forgotten.
   */
  lemma {:induction false} BudgetsBalanceOverRuns(n: Node, es: seq<Event>, w: Option<Witness>)
    requires BooksOk(n, w) && LegalRun(n, es) && SparedRun(es, w)
    ensures BooksOk(After(n, es), w)
    decreases |es|
  {
    hide BooksOk, Step, Legal, SparedBy;
    if es != [] {
      assert es[0] in es && forall e :: e in es[1..] ==> e in es;
      StepKeepsBooks(n, es[0], w);
      BudgetsBalanceOverRuns(Step(n, es[0]).0, es[1..], w);
    }
  }

  lemma {:induction false} RunStrips(n: Node, es: seq<Event>)
    requires BothStripped(n)
    ensures BothStripped(After(n, es))
    decreases |es|
  {
    hide Step, BothStripped;
    if es != [] {
      StepStrips(n, es[0]);
      RunStrips(Step(n, es[0]).0, es[1..]);
    }
  }

  /**
   No node bound to an identity ever accepts a token claiming the authority to create one, wherever
   a rebind falls between the two halves of a pairing confirmation.
   */
  lemma {:induction false} BoundNodeRefusesFirstRunAuthority(n: Node, es: seq<Event>, t: Token, now: int)
    requires BothStripped(n) && BooksOk(n, None) && LegalRun(n, es)
    ensures var m := After(n, es); m.bound != "" && Accepts(m, t, now) ==> Identity !in t.scopes
  {
    hide After, LegalRun, BookOk;
    RunStrips(n, es);
    AlwaysSpared(es, None);
    BudgetsBalanceOverRuns(n, es, None);
    var m := After(n, es);
    if m.bound != "" && Accepts(m, t, now) {
      var r := Find(m.mem.roster.clients, t.client).value;
      FoundStripped(m.mem.roster.clients, t.client);
      LentScopes(m.mem, m.drawn);
    }
  }

  lemma LentScopes(f: File, drawn: set<string>)
    requires BookOk(f.book, drawn, None)
    ensures forall g :: g in f.book.grants ==> Identity !in g.scopes
  {
    forall g | g in f.book.grants ensures Identity !in g.scopes { assert GrantOk(g, drawn, None); }
  }

  /** A node that has never paired anyone starts every invariant off. */
  lemma FreshNodeIsSound(bound: string, d: Deployment)
    ensures var f := File(Roster([], map[]), Book([], [], []));
            var n := Node(f, f, bound, d, {});
            RostersOk(n) && BothStripped(n) && BooksOk(n, None)
  {
  }

  // ---- Replies over runs ----

  ghost function Said(n: Node, e: Event): Reply {
    var a := Step(n, e).1; if a.Told? then a.reply else Failed
  }

  /** An acceptance or settlement the caller heard of was written, and is the section's own reply. */
  lemma HeardIsKept(n: Node, e: Event)
    requires Said(n, e).Accepted? || Said(n, e).Settled?
    ensures e.Do? && e.op.Grant?
    ensures var fx := EffectOf(n.mem.book, Context(n.mem.roster, n.bound, n.deployment), e.op.grant);
            fx.reply == Said(n, e) && (fx.Write? ==> e.outcome.Kept?)
    ensures var fx := EffectOf(n.mem.book, Context(n.mem.roster, n.bound, n.deployment), e.op.grant);
            var m := Step(n, e).0;
            fx.Write? ==> && m.mem == m.disk && m.mem.book == Live(fx.book, e.outcome.at)
                          && m.drawn == n.drawn + Draws(e.op.grant)
  {
    hide EffectOf, Effective, Survives, EditOf;
  }

  lemma AcceptedComesFromReserve(k: Book, x: Context, o: GrantOp)
    ensures var fx := EffectOf(k, x, o);
            (fx.reply.Accepted? ==> o.Reserve?) && (fx.reply.Settled? ==> o.ResolveShare?)
  {
    hide Admit;
  }

  /** What an accepted reservation does to both files: they may recall whatever its budget now shows. */
  lemma AcceptIsRemembered(n: Node, e: Event, w: Option<Witness>) returns (b: Budget)
    requires BooksOk(n, w) && Legal(n, e)
    ensures Said(n, e).Accepted? ==> e.Do? && e.op.Grant? && e.op.grant.Reserve?
    ensures var r := Said(n, e);
            r.Accepted? ==>
              var o := e.op.grant;
              && r == Accepted(r.op, o.rid, o.ids) && o.rid !in n.drawn
              && BudgetOk(b, n.drawn) && Recalls(b, r.op, w) && o.ids !! b.paymentIds
              && WhyNot(b, o.charges, o.now).None? && (o.liquidity ==> b.liquidity)
              && ChargedTo(n.mem.book, Context(n.mem.roster, n.bound, n.deployment), o) == Some(b)
    ensures var r := Said(n, e);
            r.Accepted? ==>
              var o := e.op.grant;
              forall v: Witness ::
                v.op == r.op && v.client == o.id && Recollects(Held(b, o.rid, o.charges, o.ids, o.now), v) ==>
                  BooksOk(Step(n, e).0, Some(v))
  {
    hide BookOk, Step, Said, DoReserve, NoClip, BudgetOk, Recalls, WhyNot, Held, Recollects, ChargedTo, Live;
    b := Relations();
    if Said(n, e).Accepted? {
      HeardIsKept(n, e);
      var x, o := Context(n.mem.roster, n.bound, n.deployment), e.op.grant;
      AcceptedComesFromReserve(n.mem.book, x, o);
      b := AcceptShows(n.mem.book, x, o, n.drawn, w);
      var fx, c := DoReserve(n.mem.book, x, o), Held(b, o.rid, o.charges, o.ids, o.now);
      forall v: Witness | v.op == fx.reply.op && v.client == o.id && Recollects(c, v)
        ensures BooksOk(Step(n, e).0, Some(v))
      {
        LiveBookOk(fx.book, e.outcome.at, n.drawn + {o.rid}, Some(v));
      }
    }
  }

  /** What the callers of a run heard, event by event. */
  ghost function Answers(n: Node, es: seq<Event>): (r: seq<Reply>)
    ensures |r| == |es|
    decreases |es|
  {
    if es == [] then [] else [Said(n, es[0])] + Answers(Step(n, es[0]).0, es[1..])
  }

  /** The identities a reservation consumes are new to its grant, and both files recall them. */
  lemma AcceptConsumesIds(n: Node, e: Event, w: Option<Witness>)
    requires BooksOk(n, w) && Legal(n, e)
    ensures Said(n, e).Accepted? ==> e.Do? && e.op.Grant? && e.op.grant.Reserve?
    ensures var r := Said(n, e);
            r.Accepted? ==>
              && BooksOk(Step(n, e).0, Some(About(r.op, e.op.grant.id).(ids := r.ids)))
              && (w.Some? && w.value.op == r.op ==> w.value.ids !! r.ids)
  {
    hide BooksOk, Step, Said, Legal, Held, WhyNot, BudgetOk, ChargedTo;
    var r := Said(n, e);
    var b := AcceptIsRemembered(n, e, w);
    if r.Accepted? { AcceptConsumes(b, e.op.grant, r.op); }
  }

  /** Identities consumed under a grant are never consumed under it again. */
  lemma {:induction false} ConsumedStayConsumed(n: Node, es: seq<Event>, v: Witness, j: nat)
    requires BooksOk(n, Some(v)) && Lasting(v) && LegalRun(n, es) && j < |es|
    ensures var r := Answers(n, es)[j]; r.Accepted? && r.op == v.op ==> v.ids !! r.ids
    decreases |es|
  {
    hide BooksOk, Step, Legal, Said;
    if j > 0 {
      AlwaysSpared(es, Some(v));
      assert es[0] in es;
      StepKeepsBooks(n, es[0], Some(v));
      ConsumedStayConsumed(Step(n, es[0]).0, es[1..], v, j - 1);
    } else {
      AcceptConsumesIds(n, es[0], Some(v));
    }
  }

  /**
   Two reservations accepted under one grant in one run never share a payment identity, whatever
   happens in between: refusals, rolled-back writes, writes that landed but were reported lost, restarts.
   */
  lemma {:induction false} PaymentIdentityIsSingleUse(n: Node, es: seq<Event>, i: nat, j: nat)
    requires BooksOk(n, None) && LegalRun(n, es) && i < j < |es|
    ensures var r, s := Answers(n, es)[i], Answers(n, es)[j];
            r.Accepted? && s.Accepted? && r.op == s.op ==> r.ids !! s.ids
    decreases |es|
  {
    hide BooksOk, Step, Legal, Said;
    var r := Said(n, es[0]);
    if i > 0 {
      StepKeepsBooks(n, es[0], None);
      PaymentIdentityIsSingleUse(Step(n, es[0]).0, es[1..], i - 1, j - 1);
    } else if r.Accepted? {
      AcceptConsumesIds(n, es[0], None);
      ConsumedStayConsumed(Step(n, es[0]).0, es[1..], About(r.op, es[0].op.grant.id).(ids := r.ids), j - 1);
    }
  }

  /** An outstanding share is not among those a witness says are settled. */
  lemma NotYetSettled(b: Budget, op: OpId, k: Share, drawn: set<string>, w: Option<Witness>)
    requires BudgetOk(b, drawn) && Outstanding(b, k) && Recalls(b, op, w)
    ensures w.Some? && w.value.op == op ==> k !in w.value.done
  {
    assert Apart(b.pending, b.settled);
    hide BudgetOk;
  }

  lemma SettleIsRemembered(n: Node, e: Event, w: Option<Witness>)
    requires BooksOk(n, w) && Legal(n, e)
    ensures Said(n, e).Settled? ==> e.Do? && e.op.Grant? && e.op.grant.ResolveShare?
    ensures var r := Said(n, e);
            r.Settled? ==>
              var o := e.op.grant;
              && r == Settled(o.op, o.share)
              && BooksOk(Step(n, e).0, Some(About(o.op, o.id).(done := map[o.share := o.actual])))
              && (w.Some? && w.value.op == r.op ==> r.share !in w.value.done)
  {
    hide BookOk, Step, Said, DoResolve, NoClip, Live, Resolve, Balanced;
    if Said(n, e).Settled? {
      HeardIsKept(n, e);
      var x, o := Context(n.mem.roster, n.bound, n.deployment), e.op.grant;
      AcceptedComesFromReserve(n.mem.book, x, o);
      var b := SettleShows(n.mem.book, o, n.drawn, w);
      var fx := DoResolve(n.mem.book, o);
      var v := About(o.op, o.id).(done := map[o.share := o.actual]);
      NotYetSettled(b, o.op, o.share, n.drawn, w);
      hide BudgetOk;
      SettleRecords(b, o);
      LiveBookOk(fx.book, e.outcome.at, n.drawn, Some(v));
      assert n.drawn + Draws(o) == n.drawn;
    }
  }

  lemma {:induction false} SettledStaySettled(n: Node, es: seq<Event>, v: Witness, j: nat)
    requires BooksOk(n, Some(v)) && Lasting(v) && LegalRun(n, es) && j < |es|
    ensures var r := Answers(n, es)[j]; r.Settled? && r.op == v.op ==> r.share !in v.done
    decreases |es|
  {
    hide BooksOk, Step, Legal, Said;
    if j > 0 {
      AlwaysSpared(es, Some(v));
      assert es[0] in es;
      StepKeepsBooks(n, es[0], Some(v));
      SettledStaySettled(Step(n, es[0]).0, es[1..], v, j - 1);
    } else {
      SettleIsRemembered(n, es[0], Some(v));
    }
  }

  /** A recipient's share of a reservation is applied to the budget at most once in a run. */
  lemma {:induction false} ShareIsSettledOnce(n: Node, es: seq<Event>, i: nat, j: nat)
    requires BooksOk(n, None) && LegalRun(n, es) && i < j < |es|
    ensures Answers(n, es)[i].Settled? ==> Answers(n, es)[i] != Answers(n, es)[j]
    decreases |es|
  {
    hide BooksOk, Step, Legal, Said;
    if i > 0 {
      StepKeepsBooks(n, es[0], None);
      ShareIsSettledOnce(Step(n, es[0]).0, es[1..], i - 1, j - 1);
    } else if Said(n, es[0]).Settled? {
      SettleIsRemembered(n, es[0], None);
      var o := es[0].op.grant;
      SettledStaySettled(Step(n, es[0]).0, es[1..], About(o.op, o.id).(done := map[o.share := o.actual]), j - 1);
    }
  }

  // ---- Charges stay owed ----

  /** The event resolves this share of this grant. */
  predicate Resolves(e: Event, op: OpId, k: Share) {
    e.Do? && e.op.Grant? && e.op.grant.ResolveShare? && e.op.grant.op == op && e.op.grant.share == k
  }

  /** As long as the grant has a budget, it holds the share at this amount and counts it as used. */
  ghost predicate Owes(g: SpendGrant, k: Share, amount: nat) {
    g.budget.Some? ==>
      var b := g.budget.value;
      Outstanding(b, k) && b.pending[k.id][k.recipient] == amount && amount <= b.used
      && amount <= Get(b.usedBy, k.recipient)
  }

  ghost predicate BothOwe(n: Node, op: OpId, k: Share, amount: nat) {
    forall g :: (g in n.mem.book.grants || g in n.disk.book.grants) && g.op == op ==> Owes(g, k, amount)
  }

  lemma WitnessOwes(k: Book, drawn: set<string>, v: Witness, share: Share, g: SpendGrant)
    requires BookOk(k, drawn, Some(v)) && share in v.held && g in k.grants && g.op == v.op
    ensures Owes(g, share, v.held[share])
  {
    assert GrantOk(g, drawn, Some(v));
    if g.budget.Some? {
      hide Balanced;
      ShareWithin(g.budget.value, share);
    }
  }

  /**
   A charge that was accepted stays reserved, in memory and on disk, and counted against its grant,
   over every run that does not resolve that very share.
   */
  lemma {:induction false} ChargeStaysOwed(n: Node, accept: Event, es: seq<Event>, r: Recipient)
    requires BooksOk(n, None) && LegalRun(n, [accept] + es)
    ensures Said(n, accept).Accepted? ==> accept.Do? && accept.op.Grant? && accept.op.grant.Reserve?
    ensures var a := Said(n, accept);
            a.Accepted? && r in PerRecipient(accept.op.grant.charges)
            && (forall e :: e in es ==> !Resolves(e, a.op, Share(a.rid, r))) ==>
              BothOwe(After(Step(n, accept).0, es), a.op, Share(a.rid, r), PerRecipient(accept.op.grant.charges)[r])
  {
    hide BooksOk, Step, Legal, Said, PerRecipient, Held, WhyNot, BudgetOk, ChargedTo, Owes;
    assert ([accept] + es)[1..] == es;
    var a := Said(n, accept);
    var b := AcceptIsRemembered(n, accept, None);
    if a.Accepted? && r in PerRecipient(accept.op.grant.charges)
       && (forall e :: e in es ==> !Resolves(e, a.op, Share(a.rid, r))) {
      var o, share := accept.op.grant, Share(a.rid, r);
      var v := About(a.op, o.id).(held := map[share := PerRecipient(o.charges)[r]]);
      AcceptOwes(b, o, a.op, r);
      SparedUnlessResolved(es, v, share);
      BudgetsBalanceOverRuns(Step(n, accept).0, es, Some(v));
      BothFilesOwe(After(Step(n, accept).0, es), v, share);
    }
  }

  lemma SparedUnlessResolved(es: seq<Event>, v: Witness, share: Share)
    requires v.held.Keys == {share} && v.admitted == map[] && v.ceiling.None?
    requires forall e :: e in es ==> !Resolves(e, v.op, share)
    ensures SparedRun(es, Some(v))
  {
  }

  lemma BothFilesOwe(n: Node, v: Witness, share: Share)
    requires BooksOk(n, Some(v)) && share in v.held
    ensures BothOwe(n, v.op, share, v.held[share])
  {
    hide BookOk, Owes;
    forall g | g in n.mem.book.grants && g.op == v.op ensures Owes(g, share, v.held[share]) {
      WitnessOwes(n.mem.book, n.drawn, v, share, g);
    }
    forall g | g in n.disk.book.grants && g.op == v.op ensures Owes(g, share, v.held[share]) {
      WitnessOwes(n.disk.book, n.drawn, v, share, g);
    }
  }

  // ---- Rates over runs ----

  /** When an accepted reservation was charged on its grant's clock, and what it counted for. */
  function StampOf(n: Node, o: GrantOp): Stamp
    requires o.Reserve?
  {
    var b := ChargedTo(n.mem.book, Context(n.mem.roster, n.bound, n.deployment), o);
    Stamp(if b.Some? then Clamp(b.value, o.now) else o.now, Payments(o.charges), Amount(o.charges))
  }

  predicate Counts(r: Reply, e: Event, op: OpId) {
    r.Accepted? && r.op == op && e.Do? && e.op.Grant? && e.op.grant.Reserve? && Payments(e.op.grant.charges) > 0
  }

  /** Every paying reservation the run accepts under a grant, added to those in `seen`. */
  ghost function Admissions(n: Node, es: seq<Event>, op: OpId, seen: map<ReservationId, Stamp>)
    : map<ReservationId, Stamp>
    decreases |es|
  {
    if es == [] then seen else
      var r := Said(n, es[0]);
      Admissions(Step(n, es[0]).0, es[1..], op,
                 if Counts(r, es[0], op) then seen[r.rid := StampOf(n, es[0].op.grant)] else seen)
  }

  predicate NoReset(es: seq<Event>, op: OpId) {
    forall e :: e in es ==> !(e.Do? && e.op.Grant? && e.op.grant.ResetBreakers? && e.op.grant.op == op)
  }

  /** One more admission: both files recall its stamp beside the earlier ones, and together they keep to the limits. */
  lemma AdmissionIsRationed(n: Node, e: Event, v: Witness)
    requires BooksOk(n, Some(v)) && Legal(n, e) && v.limits.Some? && Counts(Said(n, e), e, v.op)
    ensures var u := v.(admitted := v.admitted[Said(n, e).rid := StampOf(n, e.op.grant)]);
            v.client == e.op.grant.id ==> BooksOk(Step(n, e).0, Some(u)) && Rates.Rationed(v.limits.value, u.admitted)
  {
    hide BooksOk, Step, Legal, Said, Held, WhyNot, BudgetOk, Rates.Rationed, Recollects;
    var b := AcceptIsRemembered(n, e, Some(v));
    AcceptStamps(b, e.op.grant, v, n.drawn);
  }

  /** The client a reservation is charged for is the one its grant was written for. */
  lemma ChargedClient(n: Node, e: Event, v: Witness)
    requires BooksOk(n, Some(v)) && Legal(n, e) && Counts(Said(n, e), e, v.op)
    ensures e.op.grant.id == v.client
  {
    hide BookOk, Step, Said, NoClip, Admit, Permits, GrantLive;
    HeardIsKept(n, e);
    var x, o := Context(n.mem.roster, n.bound, n.deployment), e.op.grant;
    var i := ChargeIndex(n.mem.book.grants, x, o);
    WitnessSeen(n.mem.book, n.drawn, i, v);
  }

  lemma {:induction false} AdmissionsAreRationed(n: Node, es: seq<Event>, v: Witness)
    requires BooksOk(n, Some(v)) && v.held == map[] && v.ceiling.None?
    requires v.limits.Some? && Rates.Rationed(v.limits.value, v.admitted)
    requires LegalRun(n, es) && NoReset(es, v.op)
    ensures Rates.Rationed(v.limits.value, Admissions(n, es, v.op, v.admitted))
    decreases |es|
  {
    hide BooksOk, Step, Legal, Said, Rates.Rationed, StampOf;
    if es != [] {
      var m := Step(n, es[0]).0;
      assert es[0] in es && forall e :: e in es[1..] ==> e in es;
      if Counts(Said(n, es[0]), es[0], v.op) {
        AdmissionIsRationed(n, es[0], v);
        ChargedClient(n, es[0], v);
        AdmissionsAreRationed(m, es[1..], v.(admitted := v.admitted[Said(n, es[0]).rid := StampOf(n, es[0].op.grant)]));
      } else {
        assert SparedBy(es[0], Some(v));
        StepKeepsBooks(n, es[0], Some(v));
        AdmissionsAreRationed(m, es[1..], v);
      }
    }
  }

  /** The event writes a new grant, if it succeeds: at the console, by a device, or for a first envelope. */
  predicate Grants(n: Node, e: Event) { e.Do? && e.op.Grant? && Begins(n.mem.book, e.op.grant).Some? }

  /** Both files recall what the budget of a new grant shows, once its writer heard of it. */
  lemma GrantIsRemembered(n: Node, e: Event) returns (client: ClientId)
    requires BooksOk(n, None) && Legal(n, e) && Grants(n, e) && Said(n, e).Fine?
    ensures var b := Begins(n.mem.book, e.op.grant).value;
            forall v: Witness :: v.op == e.op.grant.op && v.client == client && Recollects(b, v) ==>
              BooksOk(Step(n, e).0, Some(v))
  {
    var x, o := Context(n.mem.roster, n.bound, n.deployment), e.op.grant;
    hide BookOk, Step, Said, NoClip, Live, Recollects, Begins, EffectOf;
    GrantIsKept(n, e);
    client := GrantShows(n.mem.book, x, o, n.drawn);
    var fx, b := EffectOf(n.mem.book, x, o), Begins(n.mem.book, o).value;
    forall v: Witness | v.op == o.op && v.client == client && Recollects(b, v) ensures BooksOk(Step(n, e).0, Some(v)) {
      LiveBookOk(fx.book, e.outcome.at, n.drawn + Draws(o), Some(v));
    }
  }

  /**
   From the moment a grant is acknowledged, until its owner resets its breakers, no minute and no hour
   sees more payments accepted under it, and no ten minutes a larger amount, than its terms allow:
   across refusals, rollbacks, crashes and restarts, wherever the interval lies, and whether the owner
   wrote it at the console, signed it on a device or opened a first envelope.
   */
  lemma {:induction false} GrantKeepsToItsRates(n: Node, e: Event, es: seq<Event>)
    requires BooksOk(n, None) && LegalRun(n, [e] + es) && Grants(n, e) && NoReset(es, e.op.grant.op)
    ensures var l := Begins(n.mem.book, e.op.grant).value.limits;
            Said(n, e).Fine? ==> Rates.Rationed(l, Admissions(Step(n, e).0, es, e.op.grant.op, map[]))
  {
    assert ([e] + es)[1..] == es;
    hide BooksOk, Step, Said, Legal, Rates.Rationed, Begins;
    if Said(n, e).Fine? {
      var o := e.op.grant;
      var client := GrantIsRemembered(n, e);
      var b := Begins(n.mem.book, o).value;
      var v := About(o.op, client).(limits := Some(b.limits));
      NothingKnown(b, o.op, client);
      NoAdmissions(b.limits);
      AdmissionsAreRationed(Step(n, e).0, es, v);
    }
  }

  lemma NoAdmissions(l: Limits)
    ensures Rates.Rationed(l, map[])
  {
    Rates.NewKeepsRated(l);
  }

  /** A grant its writer heard of was written. */
  lemma GrantIsKept(n: Node, e: Event)
    requires e.Do? && e.op.Grant? && Said(n, e).Fine?
    ensures var m := Step(n, e).0;
            var fx := EffectOf(n.mem.book, Context(n.mem.roster, n.bound, n.deployment), e.op.grant);
            && fx.reply.Fine?
            && (fx.Write? ==>
                  && e.outcome.Kept? && m.mem == m.disk && m.mem.book == Live(fx.book, e.outcome.at)
                  && m.drawn == n.drawn + Draws(e.op.grant))
  {
    hide EffectOf, Effective, Survives, EditOf, Live;
  }

  // ---- Revoked grants ----

  /** The sections that end every grant of a client. */
  predicate EndsGrants(p: PairOp, id: ClientId) {
    match p
    case Bump(x) => x == id
    case Revoke(x) => x == id
    case ConsoleRevoke(ids, _) => id in ids
    case Rotate(x, _) => x == id
    case Rebind(_) => true
    case _ => false
  }

  function Ended(p: PairOp): Whom {
    match p
    case Bump(x) => Only(x)
    case Revoke(x) => Only(x)
    case ConsoleRevoke(ids, _) => These(ids)
    case Rotate(x, _) => Only(x)
    case _ => Everyone
  }

  /** After an acknowledged revocation the grant is dead in memory and on disk. */
  lemma RevocationEndsGrant(n: Node, p: PairOp, out: Outcome, v: Witness)
    requires BooksOk(n, Some(v)) && Legal(n, Do(Pair(p), out)) && EndsGrants(p, v.client)
    requires Step(n, Do(Pair(p), out)).1 == Told(Fine)
    ensures BooksOk(Step(n, Do(Pair(p), out)).0, Some(v.(revoked := true)))
  {
    hide BookOk, Survives, Effective, Swept, Live;
    var swept := Swept(n.mem.book, p);
    SweptEnds(n.mem.book, p, n.drawn, v);
    RetirementIsKept(n, p, out);
    LiveBookOk(swept, out.at, n.drawn, Some(v.(revoked := true)));
    assert n.drawn + DrawsOf(Pair(p)) == n.drawn;
  }

  lemma RetirementIsKept(n: Node, p: PairOp, out: Outcome)
    requires Step(n, Do(Pair(p), out)).1 == Told(Fine) && exists id :: EndsGrants(p, id)
    ensures var m := Step(n, Do(Pair(p), out)).0;
            out.Kept? && m.mem == m.disk && m.mem.book == Live(Swept(n.mem.book, p), out.at)
  {
    hide Swept, Effective, Survives, Live;
  }

  lemma SweptEnds(k: Book, p: PairOp, drawn: set<string>, v: Witness)
    requires BookOk(k, drawn, Some(v)) && EndsGrants(p, v.client)
    ensures BookOk(Swept(k, p), drawn, Some(v.(revoked := true)))
  {
    SweptKeeps(k, p, drawn, Some(v));
    KilledAreDead(k.grants, Ended(p), drawn, v);
    if p.ConsoleRevoke? { DeadStayDead(KillSpend(k.grants, Ended(p)), RelationsOf(p.owners), v.op); }
    assert forall g :: g in Swept(k, p).grants && g.op == v.op ==> g.budget.None?;
    hide BudgetOk, Recollects, Swept;
    forall g | g in Swept(k, p).grants ensures GrantOk(g, drawn, Some(v.(revoked := true))) {
      assert GrantOk(g, drawn, Some(v));
    }
    forall e | e in Swept(k, p).elevations ensures ElevationOk(e, drawn, Some(v.(revoked := true))) {
      assert ElevationOk(e, drawn, Some(v));
    }
  }

  lemma {:induction false} KilledAreDead(gs: seq<SpendGrant>, whom: Whom, drawn: set<string>, v: Witness)
    requires GrantsOk(gs, drawn, Some(v)) && (whom.Everyone? || (whom.These? && v.client in whom.ids))
    ensures forall g :: g in KillSpend(gs, whom) && g.op == v.op ==> g.budget.None?
  {
    hide BudgetOk, Recalls;
    if gs != [] {
      assert GrantOk(gs[0], drawn, Some(v));
      assert forall g :: g in gs[1..] ==> g in gs;
      KilledAreDead(gs[1..], whom, drawn, v);
    }
  }

  lemma {:induction false} DeadStayDead(gs: seq<SpendGrant>, whom: Whom, op: OpId)
    requires forall g :: g in gs && g.op == op ==> g.budget.None?
    ensures forall g :: g in KillSpend(gs, whom) && g.op == op ==> g.budget.None?
  {
    if gs != [] {
      assert gs[0] in gs && forall g :: g in gs[1..] ==> g in gs;
      DeadStayDead(gs[1..], whom, op);
    }
  }
}
