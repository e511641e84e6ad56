/**
 The owner-written grants of one node, the elevation requests waiting for the owner, and what each
 locked section of the pairing service does to them. The sections that spend are here too: a
 reservation debits the grant's budget, a resolution moves one share to its outcome.
 */
module GrantBook {
  import opened Common
  import opened SpendBudget
  import Rates = SpendRates
  import opened Roster

  type OpId = string

  const MAX_GRANT_TTL: int := 24 * 3600
  const ELEVATION_TTL: int := 900
  const MAX_ELEVATIONS: nat := 4
  const MIN_WINDOW: int := 60
  const MAX_ENVELOPE: nat := 100_000_000
  const MAX_FIRST_CONTACT: nat := 100_000

  datatype Origin = Console | Device | Receipt(verifies: bool)

  datatype SpendGrant = SpendGrant(op: OpId, client: ClientId, scopes: set<Scope>, grantedAt: int, expiresAt: int,
                                   identity: string, epoch: nat, budget: Option<Budget>, origin: Origin)

  datatype FrontDoorGrant = FrontDoorGrant(op: OpId, client: ClientId, grantedAt: int, expiresAt: int,
                                           identity: string, epoch: nat, revoked: bool)

  datatype Elevation = Elevation(op: OpId, client: ClientId, scopes: set<Scope>, expiresAt: int)

  datatype Book = Book(grants: seq<SpendGrant>, frontDoor: seq<FrontDoorGrant>, elevations: seq<Elevation>)

  /** How the process was started; fixed for its lifetime. */
  datatype Deployment = Deployment(ownerControl: bool, localDevice: bool, ownerKey: bool, deviceAuthority: bool)

  // ---- Liveness ----

  predicate GrantLive(g: SpendGrant, now: int) {
    g.budget.Some? && g.expiresAt > now && g.expiresAt - g.grantedAt <= MAX_GRANT_TTL
  }

  predicate FrontDoorLive(g: FrontDoorGrant, now: int) {
    !g.revoked && g.expiresAt > now && g.expiresAt - g.grantedAt <= MAX_GRANT_TTL
  }

  function LiveGrants(gs: seq<SpendGrant>, now: int): seq<SpendGrant> {
    if gs == [] then [] else (if GrantLive(gs[0], now) then [gs[0]] else []) + LiveGrants(gs[1..], now)
  }

  function LiveFrontDoor(gs: seq<FrontDoorGrant>, now: int): seq<FrontDoorGrant> {
    if gs == [] then [] else (if FrontDoorLive(gs[0], now) then [gs[0]] else []) + LiveFrontDoor(gs[1..], now)
  }

  /** The book without the grants that can no longer authorise anything. */
  function Live(k: Book, now: int): Book {
    k.(grants := LiveGrants(k.grants, now), frontDoor := LiveFrontDoor(k.frontDoor, now))
  }

  predicate HasDead(k: Book, now: int) {
    (exists g :: g in k.grants && !GrantLive(g, now)) || (exists g :: g in k.frontDoor && !FrontDoorLive(g, now))
  }

  /** Whose grants a section ends: everyone's, these clients', or only these clients' relation grants. */
  datatype Whom = Everyone | These(ids: set<ClientId>) | RelationsOf(ids: set<ClientId>)

  function Only(id: ClientId): Whom { These({id}) }

  predicate Hits(whom: Whom, g: SpendGrant) {
    match whom
    case Everyone => true
    case These(ids) => g.client in ids
    case RelationsOf(ids) => g.client in ids && g.budget.Some? && g.budget.value.recipientsOnly
  }

  predicate HitsDoor(whom: Whom, id: ClientId) { whom.Everyone? || (whom.These? && id in whom.ids) }

  /** Revoked at once by losing its budget; the record stays until a write removes it. */
  function KillSpend(gs: seq<SpendGrant>, whom: Whom): seq<SpendGrant> {
    if gs == [] then [] else
      [if Hits(whom, gs[0]) then gs[0].(budget := None) else gs[0]] + KillSpend(gs[1..], whom)
  }

  function KillFrontDoor(gs: seq<FrontDoorGrant>, whom: Whom): seq<FrontDoorGrant> {
    if gs == [] then [] else
      [if HitsDoor(whom, gs[0].client) then gs[0].(revoked := true) else gs[0]] + KillFrontDoor(gs[1..], whom)
  }

  function Kill(k: Book, whom: Whom): Book {
    k.(grants := KillSpend(k.grants, whom), frontDoor := KillFrontDoor(k.frontDoor, whom))
  }

  /** The deployment gate shared by scopes, reservation and dispatch. */
  predicate Permits(d: Deployment, g: SpendGrant) {
    match g.origin
    case Receipt(verifies) => (d.ownerControl || d.localDevice) && d.deviceAuthority && verifies
    case Device => d.ownerControl
                   || (d.localDevice && d.ownerKey && g.budget.Some? && g.budget.value.recipientsOnly)
    case Console => d.ownerControl
  }

  // ---- Elevations ----

  function ElevationsExcept(es: seq<Elevation>, op: OpId): seq<Elevation> {
    if es == [] then [] else (if es[0].op == op then [] else [es[0]]) + ElevationsExcept(es[1..], op)
  }

  function ElevationsExceptClients(es: seq<Elevation>, ids: set<ClientId>): seq<Elevation> {
    if es == [] then [] else (if es[0].client in ids then [] else [es[0]]) + ElevationsExceptClients(es[1..], ids)
  }

  function RecentElevations(es: seq<Elevation>, now: int): seq<Elevation> {
    if es == [] then [] else (if es[0].expiresAt > now then [es[0]] else []) + RecentElevations(es[1..], now)
  }

  function ElevationsOf(es: seq<Elevation>, id: ClientId): nat {
    if es == [] then 0 else (if es[0].client == id then 1 else 0) + ElevationsOf(es[1..], id)
  }

  function FindElevation(es: seq<Elevation>, op: OpId): (e: Option<Elevation>)
    ensures e.Some? ==> e.value in es && e.value.op == op
  {
    if es == [] then None else if es[0].op == op then Some(es[0]) else FindElevation(es[1..], op)
  }

  // ---- Operations ----

  datatype GrantOp =
    | Request(op: OpId, id: ClientId, scopes: set<Scope>, now: int)
    | GrantSpend(op: OpId, terms: Terms, now: int)
    | GrantFrontDoor(op: OpId, ttl: int, now: int)
    | GrantByDevice(op: OpId, id: ClientId, epoch: nat, node: string, terms: Terms, verifies: bool, now: int)
    | OpenEnvelope(op: OpId, id: ClientId, epoch: nat, node: string, peer: Recipient, amount: nat, perAct: nat,
                   window: int, now: int)
    | EndRelations(id: ClientId)
    | RevokeGrants(whom: Whom)
    | Sweep(now: int)
    | Reserve(id: ClientId, epoch: nat, charges: seq<Charge>, ids: set<string>, payment: bool, liquidity: bool,
              expected: Option<OpId>, rid: ReservationId, now: int, late: int)
    | ResolveShare(op: OpId, id: ClientId, share: Share, actual: nat, now: int)
    | ResetBreakers(op: OpId, id: ClientId, byDevice: bool, now: int)
    | CapContact(op: OpId, id: ClientId, peer: Recipient, amount: nat, cap: Option<nat>, byDevice: bool, now: int)

  datatype Reply =
    | Failed
    | Fine
    | Accepted(op: OpId, rid: ReservationId, ids: set<string>)
    | Settled(op: OpId, share: Share)

  /**
   `Stay` writes nothing. `Write` is written; if the write is reported as failed, memory becomes
   `undo`, which is the new book itself where the section does not roll back.
   */
  datatype Effect = Stay(reply: Reply) | Write(book: Book, undo: Book, reply: Reply)

  /** What the sections read besides the book. */
  datatype Context = Context(roster: Roster, bound: string, deployment: Deployment)

  function DoRequest(k: Book, x: Context, op: OpId, id: ClientId, scopes: set<Scope>, now: int): Effect {
    var recent := RecentElevations(k.elevations, now);
    if scopes == {} || !(scopes <= GRANTABLE) || (FrontDoor in scopes && scopes != {FrontDoor})
       || Find(x.roster.clients, id).None? || !x.deployment.ownerControl || ElevationsOf(recent, id) >= MAX_ELEVATIONS
    then Stay(Failed) else
      var all := recent + [Elevation(op, id, scopes, now + ELEVATION_TTL)];
      Write(k.(elevations := all), k.(elevations := ElevationsExcept(all, op)), Fine)
  }

  function DoGrantSpend(k: Book, x: Context, op: OpId, terms: Terms, now: int): Effect {
    var e := FindElevation(k.elevations, op);
    var rest := k.(elevations := ElevationsExcept(k.elevations, op));
    if !x.deployment.ownerControl || e.None? then Stay(Failed)
    else if e.value.expiresAt <= now then Write(rest, rest, Failed)
    else if FrontDoor in e.value.scopes || Find(x.roster.clients, e.value.client).None? then Stay(Failed)
    else
      var grant := SpendGrant(op, e.value.client, e.value.scopes, now, now + terms.ttl, x.bound,
                              Epoch(x.roster, e.value.client), Some(FromTerms(terms)), Console);
      var all := rest.(grants := KillSpend(k.grants, Only(e.value.client)) + [grant]);
      Write(all, all, Fine)
  }

  function DoGrantFrontDoor(k: Book, x: Context, op: OpId, ttl: int, now: int): Effect {
    var e := FindElevation(k.elevations, op);
    var rest := k.(elevations := ElevationsExcept(k.elevations, op));
    if !x.deployment.ownerControl || ttl <= 0 || ttl > MAX_GRANT_TTL || e.None? then Stay(Failed)
    else if e.value.expiresAt <= now then Write(rest, rest, Failed)
    else if e.value.scopes != {FrontDoor} || Find(x.roster.clients, e.value.client).None? then Stay(Failed)
    else
      var grant := FrontDoorGrant(op, e.value.client, now, now + ttl, x.bound, Epoch(x.roster, e.value.client), false);
      var all := rest.(frontDoor := KillFrontDoor(k.frontDoor, Only(e.value.client)) + [grant]);
      Write(all, all, Fine)
  }

  /** A grant an enrolled owner device signed; the owner's receipt is verified at every use. */
  function DoGrantByDevice(k: Book, o: GrantOp): Effect
    requires o.GrantByDevice?
  {
    var grant := SpendGrant(o.op, o.id, {Spend}, o.now, o.now + o.terms.ttl, o.node, o.epoch,
                            Some(FromTerms(o.terms)), Receipt(o.verifies));
    Write(k.(grants := KillSpend(k.grants, Only(o.id)) + [grant]), k, Fine)
  }

  /** A live grant of this client, for its current epoch and this identity; a relation grant or another. */
  predicate InUse(o: GrantOp, g: SpendGrant, relation: bool)
    requires o.OpenEnvelope?
  {
    g.client == o.id && g.epoch == o.epoch && g.identity == o.node && GrantLive(g, o.now)
    && g.budget.value.recipientsOnly == relation
  }

  function RelationIndex(gs: seq<SpendGrant>, o: GrantOp): (i: nat)
    requires o.OpenEnvelope?
    ensures i <= |gs|
    ensures i < |gs| ==> InUse(o, gs[i], true)
  {
    if gs == [] || InUse(o, gs[0], true) then 0 else 1 + RelationIndex(gs[1..], o)
  }

  /** The latest envelope that ends after `now`, or `floor` if that is later. */
  ghost function LatestEnd(ends: map<Recipient, int>, now: int, floor: int): (m: int)
    ensures m >= floor && forall r :: r in ends && ends[r] > now ==> ends[r] <= m
    ensures m == floor || exists r :: r in ends && ends[r] == m
    decreases |ends|
  {
    if ends == map[] then floor else
      var r :| r in ends;
      var rest := ends - {r};
      assert forall q :: q in ends ==> q == r || (q in rest && rest[q] == ends[q]);
      var m := LatestEnd(rest, now, floor);
      if ends[r] > now && ends[r] > m then ends[r] else m
  }

  /** The grant with one more envelope; a fresh signature renews it until its last one ends. */
  ghost function Renewed(g: SpendGrant, b: Budget, o: GrantOp): SpendGrant
    requires o.OpenEnvelope?
  {
    var c := Enveloped(b, o.peer, o.amount, o.perAct, o.now + o.window);
    g.(budget := Some(c), grantedAt := o.now, expiresAt := LatestEnd(c.envelopeEnds, o.now, o.now + o.window))
  }

  predicate EnvelopeAllowed(x: Context, o: GrantOp)
    requires o.OpenEnvelope?
  {
    && (x.deployment.ownerControl || x.deployment.localDevice) && x.deployment.deviceAuthority
    && MIN_WINDOW <= o.window <= MAX_GRANT_TTL && 0 < o.perAct <= o.amount <= MAX_ENVELOPE
    && x.bound == o.node && Find(x.roster.clients, o.id).Some? && Epoch(x.roster, o.id) == o.epoch
  }

  /** A device-signed envelope: into the live relation grant, or into a new one that replaces what is over. */
  ghost function DoOpenEnvelope(k: Book, x: Context, o: GrantOp): Effect
    requires o.OpenEnvelope?
  {
    var i := RelationIndex(k.grants, o);
    if !EnvelopeAllowed(x, o) || exists g :: g in k.grants && InUse(o, g, false) then Stay(Failed)
    else if i < |k.grants| then
      Write(k.(grants := k.grants[i := Renewed(k.grants[i], k.grants[i].budget.value, o)]), k, Fine)
    else
      var grant := SpendGrant(o.op, o.id, {Spend}, o.now, o.now + o.window, o.node, o.epoch, None, Device);
      Write(k.(grants := KillSpend(k.grants, Only(o.id)) + [Renewed(grant, Relations(), o)]), k, Fine)
  }

  // ---- Spending ----

  predicate Chargeable(x: Context, o: GrantOp, g: SpendGrant)
    requires o.Reserve?
  {
    (o.expected.Some? ==> g.op == o.expected.value)
    && Permits(x.deployment, g) && g.client == o.id && g.epoch == o.epoch && g.identity == x.bound
    && GrantLive(g, o.now)
  }

  /** The first grant the caller may charge, or `|gs|`. */
  function ChargeIndex(gs: seq<SpendGrant>, x: Context, o: GrantOp): (i: nat)
    requires o.Reserve?
    ensures i <= |gs|
    ensures i < |gs| ==> Chargeable(x, o, gs[i])
    ensures forall j :: 0 <= j < i ==> !Chargeable(x, o, gs[j])
  {
    if gs == [] || Chargeable(x, o, gs[0]) then 0 else 1 + ChargeIndex(gs[1..], x, o)
  }

  /** The first grant with this operation id held by this client, or `|gs|`. */
  function HeldIndex(gs: seq<SpendGrant>, op: OpId, id: ClientId): (i: nat)
    ensures i <= |gs|
    ensures i < |gs| ==> gs[i].op == op && gs[i].client == id
    ensures forall j :: 0 <= j < i ==> !(gs[j].op == op && gs[j].client == id)
  {
    if gs == [] || (gs[0].op == op && gs[0].client == id) then 0 else 1 + HeldIndex(gs[1..], op, id)
  }

  /** Assigns the budget of the first grant with this operation id. */
  function SetBudget(gs: seq<SpendGrant>, op: OpId, b: Option<Budget>): seq<SpendGrant> {
    if gs == [] then [] else if gs[0].op == op then [gs[0].(budget := b)] + gs[1..]
    else [gs[0]] + SetBudget(gs[1..], op, b)
  }

  /** Edits one grant's budget in place; a failed write restores it by operation id. */
  function Rewrite(k: Book, i: nat, b: Budget, reply: Reply): Effect
    requires i < |k.grants|
  {
    var g := k.grants[i];
    var all := k.grants[i := g.(budget := Some(b))];
    Write(k.(grants := all), k.(grants := SetBudget(all, g.op, g.budget)), reply)
  }

  predicate Messaging(g: SpendGrant) {
    g.origin.Receipt? || (g.budget.Some? && g.budget.value.recipientsOnly)
  }

  ghost function DoReserve(k: Book, x: Context, o: GrantOp): Effect
    requires o.Reserve?
  {
    var i := ChargeIndex(k.grants, x, o);
    if Find(x.roster.clients, o.id).None? || Epoch(x.roster, o.id) != o.epoch || i == |k.grants| then Stay(Failed) else
      var g := k.grants[i];
      if (o.payment && Messaging(g)) || (o.liquidity && !g.budget.value.liquidity) then Stay(Failed) else
        match Admit(g.budget.value, o.rid, o.charges, o.ids, o.payment, o.now)
        case Denied(_, noted) => if noted.None? then Stay(Failed) else Rewrite(k, i, noted.value, Failed)
        case Admitted(b) => Rewrite(k, i, b, Accepted(g.op, o.rid, o.ids))
  }

  function DoResolve(k: Book, o: GrantOp): Effect
    requires o.ResolveShare?
  {
    var i := HeldIndex(k.grants, o.op, o.id);
    if i == |k.grants| || k.grants[i].budget.None? || !Outstanding(k.grants[i].budget.value, o.share) then Stay(Fine)
    else Rewrite(k, i, Resolve(k.grants[i].budget.value, o.share, o.actual, o.now), Settled(o.op, o.share))
  }

  function DoResetBreakers(k: Book, x: Context, o: GrantOp): Effect
    requires o.ResetBreakers?
  {
    var i := HeldIndex(k.grants, o.op, o.id);
    if !(x.deployment.ownerControl || o.byDevice) || i == |k.grants| || !GrantLive(k.grants[i], o.now) then Stay(Failed)
    else Rewrite(k, i, Reset(k.grants[i].budget.value), Fine)
  }

  /** The owner may confirm a first contact of this amount, and give it this cap, under the budget. */
  predicate ContactFits(b: Budget, o: GrantOp)
    requires o.CapContact?
  {
    && 0 < o.amount <= MAX_FIRST_CONTACT
    && o.amount <= Min(b.perCall, MESSAGING_PER_CALL_MAX) && o.amount <= SatSub(b.total, b.used)
    && (o.peer in b.caps ==> o.amount <= SatSub(b.caps[o.peer], Get(b.usedBy, o.peer)))
    && (o.cap.Some? ==> o.amount <= o.cap.value <= b.total && (o.peer in b.caps ==> b.caps[o.peer] == o.cap.value))
  }

  /** Confirming a first contact; what reaches the file is the contact's cap, if it has none yet. */
  function DoCapContact(k: Book, x: Context, o: GrantOp): Effect
    requires o.CapContact?
  {
    var i := HeldIndex(k.grants, o.op, o.id);
    if !(x.deployment.ownerControl || o.byDevice) || i == |k.grants| || !GrantLive(k.grants[i], o.now)
       || k.grants[i].identity != x.bound || Find(x.roster.clients, o.id).None?
       || Epoch(x.roster, o.id) != k.grants[i].epoch || !ContactFits(k.grants[i].budget.value, o)
    then Stay(Failed)
    else if o.cap.None? || o.peer in k.grants[i].budget.value.caps then Stay(Fine)
    else
      var capped := k.grants[i].(budget := Some(Capped(k.grants[i].budget.value, o.peer, o.cap.value)));
      Write(k.(grants := k.grants[i := capped]), k, Fine)
  }

  ghost function EffectOf(k: Book, x: Context, o: GrantOp): Effect {
    match o
    case Request(op, id, scopes, now) => DoRequest(k, x, op, id, scopes, now)
    case GrantSpend(op, terms, now) => DoGrantSpend(k, x, op, terms, now)
    case GrantFrontDoor(op, ttl, now) => DoGrantFrontDoor(k, x, op, ttl, now)
    case GrantByDevice(_, _, _, _, _, _, _) => DoGrantByDevice(k, o)
    case OpenEnvelope(_, _, _, _, _, _, _, _, _) => DoOpenEnvelope(k, x, o)
    case EndRelations(id) => Write(Kill(k, RelationsOf({id})), Kill(k, RelationsOf({id})), Fine)
    case RevokeGrants(whom) => Write(Kill(k, whom), Kill(k, whom), Fine)
    case Sweep(now) => if HasDead(k, now) then Write(k, k, Fine) else Stay(Fine)
    case Reserve(_, _, _, _, _, _, _, _, _, _) => DoReserve(k, x, o)
    case ResolveShare(_, _, _, _, _) => DoResolve(k, o)
    case ResetBreakers(_, _, _, _) => DoResetBreakers(k, x, o)
    case CapContact(_, _, _, _, _, _, _) => DoCapContact(k, x, o)
  }

  // ---- What every section keeps ----

  function Draws(o: GrantOp): set<string> {
    match o
    case Request(op, _, _, _) => {op}
    case GrantByDevice(op, _, _, _, _, _, _) => {op}
    case OpenEnvelope(op, _, _, _, _, _, _, _, _) => {op}
    case Reserve(_, _, _, _, _, _, _, rid, _, _) => {rid}
    case _ => {}
  }

  /**
   Facts about one grant that must never be forgotten: whose it is and under which limits, identities
   consumed, shares resolved, shares still owed, reservations admitted, what it may have spent, and
   whether it was revoked.
   */
  datatype Witness = Witness(
    op: OpId, client: ClientId, limits: Option<Limits>, ids: set<string>, done: map<Share, nat>,
    held: map<Share, nat>, admitted: map<ReservationId, Stamp>, ceiling: Option<Ceiling>, revoked: bool)

  /** Nothing known yet but whose grant it is. */
  function About(op: OpId, client: ClientId): Witness {
    Witness(op, client, None, {}, map[], map[], map[], None, false)
  }

  predicate StillOwes(p: Holds, held: map<Share, nat>) {
    forall k :: k in held ==> Holding(p, k) && p[k.id][k.recipient] == held[k]
  }

  ghost predicate Recollects(b: Budget, v: Witness) {
    && !v.revoked && v.ids <= b.paymentIds && Extends(b.settled, v.done) && StillOwes(b.pending, v.held)
    && Extends(b.stamps, v.admitted) && (v.limits.Some? ==> b.limits == v.limits.value)
    && (v.ceiling.Some? ==> Under(b, v.ceiling.value))
  }

  ghost predicate Recalls(b: Budget, op: OpId, w: Option<Witness>) {
    w.Some? && w.value.op == op ==> Recollects(b, w.value)
  }

  /** Every reservation id in the budget was drawn at random. */
  predicate Drawn(b: Budget, drawn: set<string>) {
    b.pending.Keys <= drawn && b.stamps.Keys <= drawn && forall k :: k in b.settled ==> k.id in drawn
  }

  /** The budget balances, keeps to its rates, and holds only ids that were drawn. */
  ghost predicate BudgetOk(b: Budget, drawn: set<string>) {
    Conserved(b) && Rates.Rated(b.limits, b.breaker, b.stamps) && Drawn(b, drawn)
  }

  ghost predicate GrantOk(g: SpendGrant, drawn: set<string>, w: Option<Witness>) {
    g.op in drawn && g.scopes <= GRANTABLE && (w.Some? && w.value.op == g.op ==> g.client == w.value.client)
    && (g.budget.Some? ==> BudgetOk(g.budget.value, drawn) && Recalls(g.budget.value, g.op, w))
  }

  predicate ElevationOk(e: Elevation, drawn: set<string>, w: Option<Witness>) {
    e.op in drawn && e.scopes <= GRANTABLE && (w.Some? ==> e.op != w.value.op)
  }

  predicate Unused(gs: seq<SpendGrant>, op: OpId) { forall g :: g in gs ==> g.op != op }

  predicate Distinct(gs: seq<SpendGrant>) { gs == [] || (Unused(gs[1..], gs[0].op) && Distinct(gs[1..])) }

  ghost predicate GrantsOk(gs: seq<SpendGrant>, drawn: set<string>, w: Option<Witness>) {
    forall g :: g in gs ==> GrantOk(g, drawn, w)
  }

  predicate ElevationsOk(es: seq<Elevation>, gs: seq<SpendGrant>, drawn: set<string>, w: Option<Witness>) {
    forall e :: e in es ==> ElevationOk(e, drawn, w) && Unused(gs, e.op)
  }

  /** Each operation id stands for one request, then for at most one grant. */
  ghost predicate BookOk(k: Book, drawn: set<string>, w: Option<Witness>) {
    GrantsOk(k.grants, drawn, w) && Distinct(k.grants) && ElevationsOk(k.elevations, k.grants, drawn, w)
    && (w.Some? ==> w.value.op in drawn)
  }

  /** The section does not resolve a share the witness says is owed. */
  predicate LeavesOwed(o: GrantOp, w: Option<Witness>) {
    w.Some? && o.ResolveShare? && o.op == w.value.op ==> o.share !in w.value.held
  }

  /**
   The section does not itself end what the witness is about: resolve an owed share, move a ceiling by
   resolving any share, or reset the breakers.
   */
  predicate Spares(o: GrantOp, w: Option<Witness>) {
    LeavesOwed(o, w) && (w.Some? ==>
      && (o.ResolveShare? && o.op == w.value.op ==> w.value.ceiling.None?)
      && (o.ResetBreakers? && o.op == w.value.op ==> w.value.admitted == map[]))
  }

  /** The witness after a share to `r` cost this much more than was reserved for it. */
  function Eased(v: Witness, r: Recipient, more: nat): Witness {
    if v.ceiling.None? then v else v.(ceiling := Some(Spilled(v.ceiling.value, r, more)))
  }

  function EasedFor(w: Option<Witness>, op: OpId, r: Recipient, more: nat): Option<Witness> {
    if w.Some? && w.value.op == op then Some(Eased(w.value, r, more)) else w
  }

  /** How much more a resolution records than was reserved. */
  function Overrun(k: Book, o: GrantOp): nat
    requires o.ResolveShare?
  {
    var i := HeldIndex(k.grants, o.op, o.id);
    if i == |k.grants| || k.grants[i].budget.None? || !Outstanding(k.grants[i].budget.value, o.share) then 0
    else SatSub(o.actual, k.grants[i].budget.value.pending[o.share.id][o.share.recipient])
  }

  // ---- Lists of grants ----

  lemma {:induction false} LiveKeeps(gs: seq<SpendGrant>, now: int, drawn: set<string>, w: Option<Witness>)
    requires GrantsOk(gs, drawn, w) && Distinct(gs)
    ensures GrantsOk(LiveGrants(gs, now), drawn, w) && Distinct(LiveGrants(gs, now))
    ensures forall g :: g in LiveGrants(gs, now) ==> g in gs && GrantLive(g, now)
  {
    hide GrantOk, GrantLive;
    if gs != [] {
      assert GrantsOk(gs[1..], drawn, w) by { assert forall g :: g in gs[1..] ==> g in gs; }
      LiveKeeps(gs[1..], now, drawn, w);
      var rest := LiveGrants(gs[1..], now);
      assert Unused(rest, gs[0].op);
      if GrantLive(gs[0], now) { assert LiveGrants(gs, now)[1..] == rest; } else { assert LiveGrants(gs, now) == rest; }
    }
  }

  lemma {:induction false} KillKeeps(gs: seq<SpendGrant>, whom: Whom, drawn: set<string>, w: Option<Witness>)
    requires GrantsOk(gs, drawn, w) && Distinct(gs)
    ensures GrantsOk(KillSpend(gs, whom), drawn, w) && Distinct(KillSpend(gs, whom))
    ensures forall op :: Unused(gs, op) ==> Unused(KillSpend(gs, whom), op)
  {
    hide BudgetOk, Recalls, Hits;
    if gs != [] {
      assert GrantsOk(gs[1..], drawn, w) by { assert forall g :: g in gs[1..] ==> g in gs; }
      KillKeeps(gs[1..], whom, drawn, w);
      var rest := KillSpend(gs[1..], whom);
      assert gs[0] in gs && KillSpend(gs, whom)[1..] == rest;
      forall op | Unused(gs, op) ensures Unused(KillSpend(gs, whom), op) {
        assert Unused(gs[1..], op);
      }
    }
  }

  lemma {:induction false} AppendKeeps(gs: seq<SpendGrant>, g: SpendGrant, drawn: set<string>, w: Option<Witness>)
    requires GrantsOk(gs, drawn, w) && Distinct(gs) && GrantOk(g, drawn, w) && Unused(gs, g.op)
    ensures GrantsOk(gs + [g], drawn, w) && Distinct(gs + [g])
  {
    hide GrantOk;
    if gs != [] {
      assert forall h :: h in gs[1..] ==> h in gs;
      AppendKeeps(gs[1..], g, drawn, w);
      assert (gs + [g])[1..] == gs[1..] + [g];
      assert gs[0] in gs;
    }
  }

  /** Restoring by operation id undoes exactly the edit, because ids are distinct. */
  lemma {:induction false} SetBudgetRestores(gs: seq<SpendGrant>, i: nat, b: Option<Budget>)
    requires i < |gs| && Distinct(gs)
    ensures SetBudget(gs[i := gs[i].(budget := b)], gs[i].op, gs[i].budget) == gs
  {
    var all := gs[i := gs[i].(budget := b)];
    if i == 0 {
      assert all[1..] == gs[1..];
    } else {
      assert gs[i] in gs[1..];
      assert all[1..] == gs[1..][i - 1 := gs[i].(budget := b)];
      SetBudgetRestores(gs[1..], i - 1, b);
    }
  }

  lemma {:induction false} EditKeepsDistinct(gs: seq<SpendGrant>, i: nat, h: SpendGrant)
    requires i < |gs| && Distinct(gs) && h.op == gs[i].op
    ensures Distinct(gs[i := h])
    ensures forall op :: Unused(gs, op) ==> Unused(gs[i := h], op)
  {
    var all := gs[i := h];
    assert gs[i] in gs;
    if i == 0 {
      assert all[1..] == gs[1..];
    } else {
      assert all[1..] == gs[1..][i - 1 := h];
      EditKeepsDistinct(gs[1..], i - 1, h);
    }
  }

  /** Replacing a grant by a sound one of the same id. */
  lemma EditKeeps(k: Book, i: nat, h: SpendGrant, drawn: set<string>, w: Option<Witness>)
    requires BookOk(k, drawn, w) && i < |k.grants| && h.op == k.grants[i].op && GrantOk(h, drawn, w)
    ensures BookOk(k.(grants := k.grants[i := h]), drawn, w)
  {
    hide GrantOk, ElevationOk;
    EditKeepsDistinct(k.grants, i, h);
  }

  lemma RewriteKeeps(k: Book, i: nat, b: Budget, reply: Reply, drawn: set<string>, w: Option<Witness>)
    requires BookOk(k, drawn, w) && i < |k.grants|
    requires BudgetOk(b, drawn) && Recalls(b, k.grants[i].op, w)
    ensures var fx := Rewrite(k, i, b, reply); BookOk(fx.book, drawn, w) && fx.undo == k
  {
    assert k.grants[i] in k.grants && GrantOk(k.grants[i], drawn, w);
    hide BudgetOk, Recalls;
    SetBudgetRestores(k.grants, i, Some(b));
    EditKeeps(k, i, k.grants[i].(budget := Some(b)), drawn, w);
  }

  lemma BudgetGrows(b: Budget, drawn: set<string>, more: set<string>)
    requires BudgetOk(b, drawn) && drawn <= more
    ensures BudgetOk(b, more)
  {
    hide Conserved, Rates.Rated;
  }

  lemma BookGrows(k: Book, drawn: set<string>, more: set<string>, w: Option<Witness>)
    requires BookOk(k, drawn, w) && drawn <= more
    ensures BookOk(k, more, w)
  {
    hide BudgetOk, Recalls;
    forall g | g in k.grants ensures GrantOk(g, more, w) {
      assert GrantOk(g, drawn, w);
      if g.budget.Some? { BudgetGrows(g.budget.value, drawn, more); }
    }
  }

  /** Nothing is forgotten by pruning. */
  lemma LiveBookOk(k: Book, now: int, drawn: set<string>, w: Option<Witness>)
    requires BookOk(k, drawn, w)
    ensures BookOk(Live(k, now), drawn, w)
  {
    hide GrantOk, ElevationOk;
    LiveKeeps(k.grants, now, drawn, w);
  }

  lemma KillBookOk(k: Book, whom: Whom, drawn: set<string>, w: Option<Witness>)
    requires BookOk(k, drawn, w)
    ensures BookOk(Kill(k, whom), drawn, w)
  {
    hide GrantOk, ElevationOk;
    KillKeeps(k.grants, whom, drawn, w);
  }

  // ---- One budget ----

  /** Only the breaker's refusal note changed: nothing the ledger must recall did. */
  lemma NoteKeeps(b: Budget, c: Budget, op: OpId, drawn: set<string>, w: Option<Witness>)
    requires BudgetOk(b, drawn) && Recalls(b, op, w) && OnlyNoted(b, c)
    ensures BudgetOk(c, drawn) && Recalls(c, op, w)
  {
    hide Balanced, Rates.Covered, Rates.Rationed, Extends, StillOwes, TallyUnder;
    Rates.SameBuckets(b.breaker, c.breaker, b.stamps);
  }

  lemma HeldRecollects(b: Budget, o: GrantOp, drawn: set<string>, v: Witness)
    requires o.Reserve? && o.rid !in drawn && Drawn(b, drawn) && Recollects(b, v) && WhyNot(b, o.charges, o.now).None?
    ensures var c := Held(b, o.rid, o.charges, o.ids, o.now);
            Drawn(c, drawn + {o.rid}) && Recollects(c, v) && o.ids <= c.paymentIds
  {
    HeldShape(b, o.rid, o.charges, o.ids, o.now);
    hide Held, PerRecipient, StillOwes, Extends, WhyNot, Under;
    if v.ceiling.Some? { HeldUnder(b, o.rid, o.charges, o.ids, o.now, v.ceiling.value); }
    OwedBeside(b.pending, o.rid, PerRecipient(o.charges), v.held, drawn);
    ExtendedBeside(b.stamps, o.rid, Stamp(Clamp(b, o.now), Payments(o.charges), Amount(o.charges)), v.admitted, drawn);
  }

  /** A new reservation changes no older one. */
  lemma OwedBeside(p: Holds, id: ReservationId, due: map<Recipient, nat>, held: map<Share, nat>, drawn: set<string>)
    requires StillOwes(p, held) && p.Keys <= drawn && id !in drawn
    ensures StillOwes(p[id := due], held)
  {
  }

  lemma ExtendedBeside(
    s: map<ReservationId, Stamp>, id: ReservationId, x: Stamp, part: map<ReservationId, Stamp>, drawn: set<string>)
    requires Extends(s, part) && s.Keys <= drawn && id !in drawn
    ensures Extends(s[id := x], part)
  {
  }

  lemma HeldKeeps(b: Budget, o: GrantOp, op: OpId, drawn: set<string>, w: Option<Witness>)
    requires o.Reserve? && o.rid !in drawn && BudgetOk(b, drawn) && Recalls(b, op, w)
             && WhyNot(b, o.charges, o.now).None?
    ensures var c := Held(b, o.rid, o.charges, o.ids, o.now);
            BudgetOk(c, drawn + {o.rid}) && Recalls(c, op, w) && o.ids <= c.paymentIds
  {
    hide Held, Balanced, WhyNot, Recollects, Rates.Rated;
    HeldConserves(b, o.rid, o.charges, o.ids, o.now);
    Rates.HeldKeepsRated(b, o.rid, o.charges, o.ids, o.now);
    NothingKnown(b, op, "");
    HeldRecollects(b, o, drawn, About(op, ""));
    if w.Some? && w.value.op == op { HeldRecollects(b, o, drawn, w.value); }
  }

  lemma NothingKnown(b: Budget, op: OpId, client: ClientId)
    ensures Recollects(b, About(op, client))
  {
  }

  lemma AdmitKeeps(b: Budget, o: GrantOp, op: OpId, drawn: set<string>, w: Option<Witness>)
    requires o.Reserve? && o.rid !in drawn && BudgetOk(b, drawn) && Recalls(b, op, w)
    ensures var a := Admit(b, o.rid, o.charges, o.ids, o.payment, o.now);
            match a
            case Admitted(c) =>
              BudgetOk(c, drawn + {o.rid}) && Recalls(c, op, w) && o.ids !! b.paymentIds && o.ids <= c.paymentIds
            case Denied(_, noted) => noted.Some? ==> BudgetOk(noted.value, drawn) && Recalls(noted.value, op, w)
  {
    hide Admit, Held, BudgetOk, WhyNot, Recalls, OnlyNoted;
    AdmitShape(b, o.rid, o.charges, o.ids, o.payment, o.now);
    match Admit(b, o.rid, o.charges, o.ids, o.payment, o.now)
    case Admitted(_) => HeldKeeps(b, o, op, drawn, w);
    case Denied(_, noted) => if noted.Some? { NoteKeeps(b, noted.value, op, drawn, w); }
  }

  lemma OthersStillOwed(p: Holds, k: Share, held: map<Share, nat>)
    requires Holding(p, k) && StillOwes(p, held) && k !in held
    ensures StillOwes(RemoveShare(p, k), held)
  {
    forall j | j in held ensures Holding(RemoveShare(p, k), j) && RemoveShare(p, k)[j.id][j.recipient] == held[j] {
      assert Holding(p, j);
      if j.id == k.id { assert j.recipient != k.recipient && j.recipient in p[k.id] - {k.recipient}; }
    }
  }

  lemma ResolvedDrawn(b: Budget, k: Share, actual: nat, now: int, drawn: set<string>)
    requires Outstanding(b, k) && Drawn(b, drawn)
    ensures Drawn(Resolve(b, k, actual, now), drawn)
  {
    ResolveShape(b, k, actual, now);
    hide Resolve;
  }

  lemma SettledBeside(s: map<Share, nat>, k: Share, v: nat, done: map<Share, nat>)
    requires Extends(s, done) && k !in s
    ensures Extends(s[k := v], done)
  {
  }

  lemma ResolvedRecollects(b: Budget, k: Share, actual: nat, now: int, v: Witness)
    requires Outstanding(b, k) && Conserved(b) && Recollects(b, v) && k !in v.held
    ensures Recollects(Resolve(b, k, actual, now), Eased(v, k.recipient, SatSub(actual, b.pending[k.id][k.recipient])))
  {
    assert k !in b.settled by { assert Apart(b.pending, b.settled); }
    hide Conserved, Under, StillOwes, Spilled, Resolve, RemoveShare, Extends;
    ResolveShape(b, k, actual, now);
    if v.ceiling.Some? { ResolvedUnder(b, k, actual, now, v.ceiling.value); }
    OthersStillOwed(b.pending, k, v.held);
    SettledBeside(b.settled, k, actual, v.done);
  }

  lemma ResolvedKeeps(b: Budget, o: GrantOp, drawn: set<string>, w: Option<Witness>)
    requires o.ResolveShare? && BudgetOk(b, drawn) && Recalls(b, o.op, w) && LeavesOwed(o, w)
    requires Outstanding(b, o.share) && Fits(b, o.share, o.actual)
    ensures var c := Resolve(b, o.share, o.actual, o.now);
            var over := SatSub(o.actual, b.pending[o.share.id][o.share.recipient]);
            BudgetOk(c, drawn) && Recalls(c, o.op, EasedFor(w, o.op, o.share.recipient, over))
  {
    hide Balanced, Recollects, Rates.Rated, Recorded, Adjusted, RemoveShare, Drawn;
    ResolveConserves(b, o.share, o.actual, o.now);
    Rates.OutcomeKeepsRated(b, b.pending[o.share.id][o.share.recipient], o.actual, o.now);
    ResolvedDrawn(b, o.share, o.actual, o.now, drawn);
    if w.Some? && w.value.op == o.op { ResolvedRecollects(b, o.share, o.actual, o.now, w.value); }
  }

  lemma ResetKeepsBudget(b: Budget, o: GrantOp, drawn: set<string>, w: Option<Witness>)
    requires o.ResetBreakers? && BudgetOk(b, drawn) && Recalls(b, o.op, w) && Spares(o, w)
    ensures BudgetOk(Reset(b), drawn) && Recalls(Reset(b), o.op, w)
  {
    hide Balanced, Rates.Rated, StillOwes, TallyUnder;
    Rates.NewKeepsRated(b.limits);
  }

  /** An envelope changes what may be spent, not what was. */
  lemma EnvelopedKeeps(b: Budget, o: GrantOp, op: OpId, drawn: set<string>, w: Option<Witness>)
    requires o.OpenEnvelope? && b.recipientsOnly && BudgetOk(b, drawn) && Recalls(b, op, w)
    ensures var c := Enveloped(b, o.peer, o.amount, o.perAct, o.now + o.window); BudgetOk(c, drawn) && Recalls(c, op, w)
  {
    hide Balanced, Rates.Rated, Extends, StillOwes;
  }

  /** So does a cap, even for what the owner approved before. */
  lemma CappedKeeps(b: Budget, r: Recipient, cap: nat, op: OpId, drawn: set<string>, w: Option<Witness>)
    requires BudgetOk(b, drawn) && Recalls(b, op, w)
    ensures var c := Capped(b, r, cap); BudgetOk(c, drawn) && Recalls(c, op, w)
  {
    hide Balanced, Rates.Rated, StillOwes, TallyUnder;
  }

  lemma FreshBudgetOk(t: Terms, drawn: set<string>)
    ensures BudgetOk(FromTerms(t), drawn)
  {
    var b := FromTerms(t);
    assert Totals(b.pending) == map[];
    forall r ensures BalancedFor(b.usedBy, b.pending, b.settled, r) {
      assert Column(b.pending, r) == map[] && SettledTo(b.settled, r) == map[];
    }
    hide Rates.Rated;
    Rates.NewKeepsRated(t.limits);
  }

  lemma RelationsOk(drawn: set<string>)
    ensures BudgetOk(Relations(), drawn)
  {
    hide Balanced, Rates.Rated;
    FreshBudgetOk(Terms(DEFAULT_LIMITS, None, false, 0, 0, map[], 0), drawn);
  }

  // ---- The sections ----

  lemma ReserveKeeps(k: Book, x: Context, o: GrantOp, drawn: set<string>, w: Option<Witness>)
    requires o.Reserve? && o.rid !in drawn && BookOk(k, drawn, w)
    ensures var fx := DoReserve(k, x, o);
            fx.Write? ==> BookOk(fx.book, drawn + {o.rid}, w) && fx.undo == k
  {
    BookGrows(k, drawn, drawn + {o.rid}, w);
    var i := ChargeIndex(k.grants, x, o);
    if i < |k.grants| {
      var g := k.grants[i];
      assert g in k.grants && GrantOk(g, drawn, w);
      hide Admit, BudgetOk, Recalls, BookOk, Rewrite;
      AdmitKeeps(g.budget.value, o, g.op, drawn, w);
      match Admit(g.budget.value, o.rid, o.charges, o.ids, o.payment, o.now)
      case Admitted(b) => RewriteKeeps(k, i, b, Accepted(g.op, o.rid, o.ids), drawn + {o.rid}, w);
      case Denied(_, noted) =>
        if noted.Some? {
          BudgetGrows(noted.value, drawn, drawn + {o.rid});
          RewriteKeeps(k, i, noted.value, Failed, drawn + {o.rid}, w);
        }
    }
  }

  /** The tally of the resolved share does not clip at 64 bits. */
  predicate NoClip(k: Book, o: GrantOp) {
    o.ResolveShare? ==>
      var i := HeldIndex(k.grants, o.op, o.id);
      i < |k.grants| && k.grants[i].budget.Some? && Outstanding(k.grants[i].budget.value, o.share) ==>
        Fits(k.grants[i].budget.value, o.share, o.actual)
  }

  /** A witness still holds when its ceiling is eased. */
  lemma EasedOk(k: Book, drawn: set<string>, w: Option<Witness>, op: OpId, r: Recipient, more: nat)
    requires BookOk(k, drawn, w)
    ensures BookOk(k, drawn, EasedFor(w, op, r, more))
  {
    hide BudgetOk, Under, Spilled, StillOwes, Extends;
    forall g | g in k.grants ensures GrantOk(g, drawn, EasedFor(w, op, r, more)) {
      assert GrantOk(g, drawn, w);
      if g.budget.Some? && w.Some? && w.value.op == g.op && w.value.ceiling.Some? {
        SpilledUnder(g.budget.value, w.value.ceiling.value, r, more);
      }
    }
    forall e | e in k.elevations ensures ElevationOk(e, drawn, EasedFor(w, op, r, more)) {
      assert ElevationOk(e, drawn, w);
    }
  }

  lemma ResolveKeeps(k: Book, o: GrantOp, drawn: set<string>, w: Option<Witness>)
    requires o.ResolveShare? && NoClip(k, o) && BookOk(k, drawn, w) && LeavesOwed(o, w)
    ensures var fx := DoResolve(k, o);
            fx.Write? ==> BookOk(fx.book, drawn, EasedFor(w, o.op, o.share.recipient, Overrun(k, o))) && fx.undo == k
  {
    var i := HeldIndex(k.grants, o.op, o.id);
    if i < |k.grants| && k.grants[i].budget.Some? && Outstanding(k.grants[i].budget.value, o.share) {
      var g, u := k.grants[i], EasedFor(w, o.op, o.share.recipient, Overrun(k, o));
      assert g in k.grants && GrantOk(g, drawn, w);
      EasedOk(k, drawn, w, o.op, o.share.recipient, Overrun(k, o));
      hide BudgetOk, Recalls, BookOk, Rewrite, Resolve, LeavesOwed, EasedFor;
      ResolvedKeeps(g.budget.value, o, drawn, w);
      RewriteKeeps(k, i, Resolve(g.budget.value, o.share, o.actual, o.now), Settled(o.op, o.share), drawn, u);
    }
  }

  lemma ResetKeeps(k: Book, x: Context, o: GrantOp, drawn: set<string>, w: Option<Witness>)
    requires o.ResetBreakers? && BookOk(k, drawn, w) && Spares(o, w)
    ensures var fx := DoResetBreakers(k, x, o);
            fx.Write? ==> BookOk(fx.book, drawn, w) && fx.undo == k
  {
    var i := HeldIndex(k.grants, o.op, o.id);
    if i < |k.grants| && GrantLive(k.grants[i], o.now) {
      var g := k.grants[i];
      assert g in k.grants && GrantOk(g, drawn, w);
      hide BudgetOk, Recalls, BookOk, Rewrite, Reset, Spares;
      ResetKeepsBudget(g.budget.value, o, drawn, w);
      RewriteKeeps(k, i, Reset(g.budget.value), Fine, drawn, w);
    }
  }

  lemma CapContactKeeps(k: Book, x: Context, o: GrantOp, drawn: set<string>, w: Option<Witness>)
    requires o.CapContact? && BookOk(k, drawn, w)
    ensures var fx := DoCapContact(k, x, o);
            fx.Write? ==> BookOk(fx.book, drawn, w) && fx.undo == k
  {
    var i := HeldIndex(k.grants, o.op, o.id);
    if i < |k.grants| && GrantLive(k.grants[i], o.now) && o.cap.Some? {
      var g := k.grants[i];
      assert g in k.grants && GrantOk(g, drawn, w);
      hide BudgetOk, Recalls, BookOk, Capped, ContactFits;
      CappedKeeps(g.budget.value, o.peer, o.cap.value, g.op, drawn, w);
      EditKeeps(k, i, g.(budget := Some(Capped(g.budget.value, o.peer, o.cap.value))), drawn, w);
    }
  }

  lemma {:induction false} ExceptWithin(es: seq<Elevation>, op: OpId, ids: set<ClientId>, now: int)
    ensures forall e :: e in ElevationsExcept(es, op) ==> e in es && e.op != op
    ensures forall e :: e in ElevationsExceptClients(es, ids) ==> e in es
    ensures forall e :: e in RecentElevations(es, now) ==> e in es
  {
    if es != [] { ExceptWithin(es[1..], op, ids, now); }
  }

  /** Elevations taken from sound ones, and new ones under an id no grant bears. */
  ghost predicate Takeable(k: Book, es: seq<Elevation>, drawn: set<string>, w: Option<Witness>) {
    forall e :: e in es ==> e in k.elevations || (ElevationOk(e, drawn, w) && Unused(k.grants, e.op))
  }

  lemma RequestedKeeps(k: Book, es: seq<Elevation>, drawn: set<string>, w: Option<Witness>)
    requires BookOk(k, drawn, w) && Takeable(k, es, drawn, w)
    ensures BookOk(k.(elevations := es), drawn, w)
  {
    hide GrantsOk, ElevationOk, Distinct, Unused;
  }

  /** A newly drawn id stands for nothing yet. */
  lemma NewIdUnused(k: Book, op: OpId, drawn: set<string>, w: Option<Witness>)
    requires BookOk(k, drawn, w) && op !in drawn
    ensures Unused(k.grants, op) && (forall e :: e in k.elevations ==> e.op != op) && (w.Some? ==> w.value.op != op)
  {
    forall g | g in k.grants ensures g.op != op { assert GrantOk(g, drawn, w); }
    forall e | e in k.elevations ensures e.op != op { assert ElevationOk(e, drawn, w); }
  }

  lemma RequestedTakeable(k: Book, e: Elevation, now: int, drawn: set<string>, w: Option<Witness>)
    requires ElevationOk(e, drawn, w) && Unused(k.grants, e.op)
    ensures var all := RecentElevations(k.elevations, now) + [e];
            Takeable(k, all, drawn, w) && Takeable(k, ElevationsExcept(all, e.op), drawn, w)
  {
    hide ElevationOk, Unused, RecentElevations, ElevationsExcept;
    ExceptWithin(k.elevations, e.op, {}, now);
    ExceptWithin(RecentElevations(k.elevations, now) + [e], e.op, {}, now);
  }

  lemma RequestKeeps(k: Book, x: Context, o: GrantOp, drawn: set<string>, w: Option<Witness>)
    requires o.Request? && o.op !in drawn && BookOk(k, drawn, w)
    ensures var fx := DoRequest(k, x, o.op, o.id, o.scopes, o.now);
            fx.Write? ==> BookOk(fx.book, drawn + {o.op}, w) && BookOk(fx.undo, drawn + {o.op}, w)
  {
    NewIdUnused(k, o.op, drawn, w);
    BookGrows(k, drawn, drawn + {o.op}, w);
    hide BookOk, Takeable, RecentElevations, ElevationsExcept, ElevationsOf, Unused;
    if o.scopes <= GRANTABLE {
      var e := Elevation(o.op, o.id, o.scopes, o.now + ELEVATION_TTL);
      var all := RecentElevations(k.elevations, o.now) + [e];
      RequestedTakeable(k, e, o.now, drawn + {o.op}, w);
      RequestedKeeps(k, all, drawn + {o.op}, w);
      RequestedKeeps(k, ElevationsExcept(all, o.op), drawn + {o.op}, w);
    }
  }

  /** A new grant in place of the client's old ones. */
  lemma ReplaceKeeps(k: Book, g: SpendGrant, drawn: set<string>, w: Option<Witness>)
    requires BookOk(k, drawn, w) && GrantOk(g, drawn, w) && Unused(k.grants, g.op)
    requires forall e :: e in k.elevations ==> e.op != g.op
    ensures BookOk(k.(grants := KillSpend(k.grants, Only(g.client)) + [g]), drawn, w)
  {
    hide GrantOk, ElevationOk;
    KillKeeps(k.grants, Only(g.client), drawn, w);
    AppendKeeps(KillSpend(k.grants, Only(g.client)), g, drawn, w);
  }

  /** A request is sound, and once it is taken out its id stands for nothing. */
  lemma TakenRequest(k: Book, op: OpId, drawn: set<string>, w: Option<Witness>)
    requires BookOk(k, drawn, w) && FindElevation(k.elevations, op).Some?
    ensures ElevationOk(FindElevation(k.elevations, op).value, drawn, w)
            && FindElevation(k.elevations, op).value.op == op
    ensures Unused(k.grants, op)
    ensures var rest := ElevationsExcept(k.elevations, op);
            BookOk(k.(elevations := rest), drawn, w) && forall e :: e in rest ==> e.op != op
  {
    hide GrantsOk, Distinct, Unused, ElevationsExcept;
    ExceptWithin(k.elevations, op, {}, 0);
  }

  lemma GrantSpendKeeps(k: Book, x: Context, o: GrantOp, drawn: set<string>, w: Option<Witness>)
    requires o.GrantSpend? && BookOk(k, drawn, w)
    ensures var fx := DoGrantSpend(k, x, o.op, o.terms, o.now);
            fx.Write? ==> BookOk(fx.book, drawn, w) && BookOk(fx.undo, drawn, w)
  {
    hide BookOk, BudgetOk, KillSpend, ElevationsExcept, Unused, FindElevation;
    var e := FindElevation(k.elevations, o.op);
    if e.Some? {
      TakenRequest(k, o.op, drawn, w);
      FreshBudgetOk(o.terms, drawn);
      ReplaceKeeps(k.(elevations := ElevationsExcept(k.elevations, o.op)),
                   SpendGrant(o.op, e.value.client, e.value.scopes, o.now, o.now + o.terms.ttl, x.bound,
                              Epoch(x.roster, e.value.client), Some(FromTerms(o.terms)), Console), drawn, w);
    }
  }

  lemma GrantFrontDoorKeeps(k: Book, x: Context, o: GrantOp, drawn: set<string>, w: Option<Witness>)
    requires o.GrantFrontDoor? && BookOk(k, drawn, w)
    ensures var fx := DoGrantFrontDoor(k, x, o.op, o.ttl, o.now);
            fx.Write? ==> BookOk(fx.book, drawn, w) && BookOk(fx.undo, drawn, w)
  {
    hide GrantsOk, ElevationOk, Distinct;
    ExceptWithin(k.elevations, o.op, {}, o.now);
  }

  lemma GrantByDeviceKeeps(k: Book, o: GrantOp, drawn: set<string>, w: Option<Witness>)
    requires o.GrantByDevice? && o.op !in drawn && BookOk(k, drawn, w)
    ensures var fx := DoGrantByDevice(k, o);
            fx.Write? ==> BookOk(fx.book, drawn + {o.op}, w) && BookOk(fx.undo, drawn + {o.op}, w)
  {
    NewIdUnused(k, o.op, drawn, w);
    BookGrows(k, drawn, drawn + {o.op}, w);
    hide BookOk, BudgetOk, KillSpend;
    FreshBudgetOk(o.terms, drawn + {o.op});
    ReplaceKeeps(k, SpendGrant(o.op, o.id, {Spend}, o.now, o.now + o.terms.ttl, o.node, o.epoch,
                               Some(FromTerms(o.terms)), Receipt(o.verifies)), drawn + {o.op}, w);
  }

  /** Renewing a relation grant, old or just created, leaves a sound grant with the same id and client. */
  lemma RenewedOk(g: SpendGrant, b: Budget, o: GrantOp, drawn: set<string>, w: Option<Witness>)
    requires o.OpenEnvelope? && b.recipientsOnly && GrantOk(g.(budget := Some(b)), drawn, w)
    ensures var h := Renewed(g, b, o);
            GrantOk(h, drawn, w) && h.op == g.op && h.client == g.client && h.budget.Some?
  {
    hide BudgetOk, Recalls, LatestEnd, Enveloped;
    EnvelopedKeeps(b, o, g.op, drawn, w);
  }

  lemma OpenEnvelopeKeeps(k: Book, x: Context, o: GrantOp, drawn: set<string>, w: Option<Witness>)
    requires o.OpenEnvelope? && o.op !in drawn && BookOk(k, drawn, w)
    ensures var fx := DoOpenEnvelope(k, x, o);
            fx.Write? ==> BookOk(fx.book, drawn + {o.op}, w) && BookOk(fx.undo, drawn + {o.op}, w)
  {
    var more, i := drawn + {o.op}, RelationIndex(k.grants, o);
    NewIdUnused(k, o.op, drawn, w);
    BookGrows(k, drawn, more, w);
    if i < |k.grants| {
      var g := k.grants[i];
      assert g in k.grants && GrantOk(g, more, w);
      hide BookOk, GrantOk, Renewed;
      assert g == g.(budget := Some(g.budget.value));
      RenewedOk(g, g.budget.value, o, more, w);
      EditKeeps(k, i, Renewed(g, g.budget.value, o), more, w);
    } else {
      hide BookOk, Renewed, BudgetOk, KillSpend;
      var g := SpendGrant(o.op, o.id, {Spend}, o.now, o.now + o.window, o.node, o.epoch, None, Device);
      RelationsOk(more);
      RenewedOk(g, Relations(), o, more, w);
      ReplaceKeeps(k, Renewed(g, Relations(), o), more, w);
    }
  }

  lemma NotEased(o: GrantOp, w: Option<Witness>, more: nat)
    requires o.ResolveShare? && Spares(o, w)
    ensures LeavesOwed(o, w) && EasedFor(w, o.op, o.share.recipient, more) == w
  {
  }

  /** Every section keeps every budget balanced and within its rates, and forgets nothing it must recall. */
  lemma EffectKeeps(k: Book, x: Context, o: GrantOp, drawn: set<string>, w: Option<Witness>)
    requires BookOk(k, drawn, w) && Draws(o) !! drawn && NoClip(k, o) && Spares(o, w)
    ensures var fx := EffectOf(k, x, o);
            fx.Write? ==> BookOk(fx.book, drawn + Draws(o), w) && BookOk(fx.undo, drawn + Draws(o), w)
  {
    hide BookOk, NoClip, Spares, DoRequest, DoGrantSpend, DoGrantFrontDoor, DoGrantByDevice, DoOpenEnvelope, DoReserve,
         DoResolve, DoResetBreakers, DoCapContact, Kill, LeavesOwed, EasedFor;
    BookGrows(k, drawn, drawn + Draws(o), w);
    match o
    case Request(_, _, _, _) => RequestKeeps(k, x, o, drawn, w);
    case GrantSpend(_, _, _) => GrantSpendKeeps(k, x, o, drawn + Draws(o), w);
    case GrantFrontDoor(_, _, _) => GrantFrontDoorKeeps(k, x, o, drawn + Draws(o), w);
    case GrantByDevice(_, _, _, _, _, _, _) => GrantByDeviceKeeps(k, o, drawn, w);
    case OpenEnvelope(_, _, _, _, _, _, _, _, _) => OpenEnvelopeKeeps(k, x, o, drawn, w);
    case EndRelations(id) => KillBookOk(k, RelationsOf({id}), drawn + Draws(o), w);
    case RevokeGrants(whom) => KillBookOk(k, whom, drawn + Draws(o), w);
    case Sweep(_) =>
    case Reserve(_, _, _, _, _, _, _, _, _, _) => ReserveKeeps(k, x, o, drawn, w);
    case ResolveShare(_, _, _, _, _) =>
      assert drawn + Draws(o) == drawn;
      NotEased(o, w, Overrun(k, o));
      ResolveKeeps(k, o, drawn, w);
    case ResetBreakers(_, _, _, _) =>
      assert drawn + Draws(o) == drawn;
      ResetKeeps(k, x, o, drawn, w);
    case CapContact(_, _, _, _, _, _, _) =>
      assert drawn + Draws(o) == drawn;
      CapContactKeeps(k, x, o, drawn, w);
  }

  // ---- What a reply leaves behind ----

  lemma {:induction false} DistinctAt(gs: seq<SpendGrant>, i: nat, j: nat)
    requires Distinct(gs) && i < j < |gs|
    ensures gs[i].op != gs[j].op
  {
    if i == 0 { assert gs[j] in gs[1..]; } else { DistinctAt(gs[1..], i - 1, j - 1); }
  }

  /** What one grant shows, the whole book recalls: no other grant or request shares its id. */
  lemma WitnessHere(k: Book, drawn: set<string>, i: nat, v: Witness)
    requires BookOk(k, drawn, None) && i < |k.grants| && k.grants[i].op == v.op && k.grants[i].client == v.client
    requires k.grants[i].budget.Some? ==> Recollects(k.grants[i].budget.value, v)
    ensures BookOk(k, drawn, Some(v))
  {
    hide BudgetOk, Recollects;
    forall g | g in k.grants ensures GrantOk(g, drawn, Some(v)) {
      assert GrantOk(g, drawn, None);
      var j :| 0 <= j < |k.grants| && k.grants[j] == g;
      if i < j { DistinctAt(k.grants, i, j); }
      if j < i { DistinctAt(k.grants, j, i); }
    }
    assert k.grants[i] in k.grants;
    forall e | e in k.elevations ensures ElevationOk(e, drawn, Some(v)) {
      assert ElevationOk(e, drawn, None) && Unused(k.grants, e.op);
    }
  }

  lemma ForgetWitness(k: Book, drawn: set<string>, w: Option<Witness>)
    requires BookOk(k, drawn, w)
    ensures BookOk(k, drawn, None)
  {
    hide BudgetOk;
    forall g | g in k.grants ensures GrantOk(g, drawn, None) { assert GrantOk(g, drawn, w); }
  }

  /** Where a grant stands in a sound book, its budget shows what the witness says. */
  lemma WitnessSeen(k: Book, drawn: set<string>, i: nat, v: Witness)
    requires BookOk(k, drawn, Some(v)) && i < |k.grants| && k.grants[i].op == v.op
    ensures k.grants[i].client == v.client
    ensures k.grants[i].budget.Some? ==>
              Recollects(k.grants[i].budget.value, v) && BudgetOk(k.grants[i].budget.value, drawn)
  {
    hide BudgetOk, Recollects;
    assert k.grants[i] in k.grants && GrantOk(k.grants[i], drawn, Some(v));
  }

  /** The budget of the grant a reservation would be charged to. */
  function ChargedTo(k: Book, x: Context, o: GrantOp): Option<Budget>
    requires o.Reserve?
  {
    var i := ChargeIndex(k.grants, x, o);
    if i < |k.grants| then k.grants[i].budget else None
  }

  /** The budget an accepted reservation was charged to, and what the book may recall of it afterwards. */
  lemma AcceptShows(k: Book, x: Context, o: GrantOp, drawn: set<string>, w: Option<Witness>) returns (b: Budget)
    requires o.Reserve? && o.rid !in drawn && BookOk(k, drawn, w) && DoReserve(k, x, o).reply.Accepted?
    ensures var fx := DoReserve(k, x, o);
            && fx.Write? && fx.reply == Accepted(fx.reply.op, o.rid, o.ids)
            && BudgetOk(b, drawn) && Recalls(b, fx.reply.op, w) && o.ids !! b.paymentIds
            && WhyNot(b, o.charges, o.now).None? && (o.liquidity ==> b.liquidity)
            && ChargedTo(k, x, o) == Some(b)
    ensures var fx, c := DoReserve(k, x, o), Held(b, o.rid, o.charges, o.ids, o.now);
            forall v: Witness :: v.op == fx.reply.op && v.client == o.id && Recollects(c, v) ==>
              BookOk(fx.book, drawn + {o.rid}, Some(v))
  {
    hide Admit, BudgetOk, WhyNot, Held, Recollects, Recalls;
    var i := ChargeIndex(k.grants, x, o);
    var g := k.grants[i];
    b := g.budget.value;
    var fx, c := DoReserve(k, x, o), Held(b, o.rid, o.charges, o.ids, o.now);
    assert g in k.grants && GrantOk(g, drawn, w);
    AdmitShape(b, o.rid, o.charges, o.ids, o.payment, o.now);
    ForgetWitness(k, drawn, w);
    ReserveKeeps(k, x, o, drawn, None);
    hide BookOk;
    forall v: Witness | v.op == fx.reply.op && v.client == o.id && Recollects(c, v)
      ensures BookOk(fx.book, drawn + {o.rid}, Some(v))
    {
      WitnessHere(fx.book, drawn + {o.rid}, i, v);
    }
  }

  /** The budget a share was resolved in, and what the book may recall of it afterwards. */
  lemma SettleShows(k: Book, o: GrantOp, drawn: set<string>, w: Option<Witness>) returns (b: Budget)
    requires o.ResolveShare? && NoClip(k, o) && BookOk(k, drawn, w) && DoResolve(k, o).reply.Settled?
    ensures var fx := DoResolve(k, o);
            && fx.Write? && fx.reply == Settled(o.op, o.share)
            && BudgetOk(b, drawn) && Recalls(b, o.op, w) && Outstanding(b, o.share)
    ensures var fx, c := DoResolve(k, o), Resolve(b, o.share, o.actual, o.now);
            forall v: Witness :: v.op == o.op && v.client == o.id && Recollects(c, v) ==>
              BookOk(fx.book, drawn, Some(v))
  {
    hide BudgetOk, Resolve, Recollects, Recalls, NoClip;
    var i := HeldIndex(k.grants, o.op, o.id);
    var g := k.grants[i];
    b := g.budget.value;
    var fx, c := DoResolve(k, o), Resolve(b, o.share, o.actual, o.now);
    assert g in k.grants && GrantOk(g, drawn, w);
    ForgetWitness(k, drawn, w);
    ResolveKeeps(k, o, drawn, None);
    hide BookOk;
    forall v: Witness | v.op == o.op && v.client == o.id && Recollects(c, v) ensures BookOk(fx.book, drawn, Some(v)) {
      WitnessHere(fx.book, drawn, i, v);
    }
  }

  /** A resolved share is settled from now on, at that amount. */
  lemma SettleRecords(b: Budget, o: GrantOp)
    requires o.ResolveShare? && Outstanding(b, o.share)
    ensures Recollects(Resolve(b, o.share, o.actual, o.now), About(o.op, o.id).(done := map[o.share := o.actual]))
  {
    hide Recorded, Adjusted, RemoveShare;
  }

  /** Consumed identities: new to the grant, and part of it from now on. */
  lemma AcceptConsumes(b: Budget, o: GrantOp, op: OpId)
    requires o.Reserve?
    ensures Recollects(Held(b, o.rid, o.charges, o.ids, o.now), About(op, o.id).(ids := o.ids))
  {
    HeldShape(b, o.rid, o.charges, o.ids, o.now);
    hide Held, PerRecipient;
  }

  lemma OwesShare(p: Holds, id: ReservationId, due: map<Recipient, nat>, r: Recipient)
    requires r in due
    ensures StillOwes(p[id := due], map[Share(id, r) := due[r]])
  {
  }

  lemma OwesToo(c: Budget, v: Witness, held: map<Share, nat>)
    requires Recollects(c, v) && StillOwes(c.pending, held)
    ensures Recollects(c, v.(held := held))
  {
    hide Extends, StillOwes;
  }

  /** Each recipient's share is owed from now on, at what the call charges it. */
  lemma AcceptOwes(b: Budget, o: GrantOp, op: OpId, r: Recipient)
    requires o.Reserve? && r in PerRecipient(o.charges)
    ensures Recollects(Held(b, o.rid, o.charges, o.ids, o.now),
                       About(op, o.id).(held := map[Share(o.rid, r) := PerRecipient(o.charges)[r]]))
  {
    assert o.charges != [];
    HeldShape(b, o.rid, o.charges, o.ids, o.now);
    hide Held, PerRecipient, Recollects, StillOwes;
    var c := Held(b, o.rid, o.charges, o.ids, o.now);
    OwesShare(b.pending, o.rid, PerRecipient(o.charges), r);
    assert Recollects(c, About(op, o.id)) by { NothingKnown(c, op, o.id); }
    OwesToo(c, About(op, o.id), map[Share(o.rid, r) := PerRecipient(o.charges)[r]]);
  }

  /** The stamp of a reservation is kept, and the stamps remembered so far with it stay within the limits. */
  lemma AcceptStamps(b: Budget, o: GrantOp, v: Witness, drawn: set<string>)
    requires o.Reserve? && o.rid !in drawn && BudgetOk(b, drawn) && Recollects(b, v) && v.limits.Some?
    requires WhyNot(b, o.charges, o.now).None? && Payments(o.charges) > 0
    ensures var x := Stamp(Clamp(b, o.now), Payments(o.charges), Amount(o.charges));
            var u := v.(admitted := v.admitted[o.rid := x]);
            Recollects(Held(b, o.rid, o.charges, o.ids, o.now), u) && Rates.Rationed(v.limits.value, u.admitted)
  {
    hide WhyNot, Rates.Covered, Rates.Rationed, Balanced, PerRecipient, Held, Counted;
    HeldShape(b, o.rid, o.charges, o.ids, o.now);
    HeldRecollects(b, o, drawn, v);
    var c := Held(b, o.rid, o.charges, o.ids, o.now);
    Rates.HeldKeepsRated(b, o.rid, o.charges, o.ids, o.now);
    var x := Stamp(Clamp(b, o.now), Payments(o.charges), Amount(o.charges));
    Rates.RationedSubset(v.limits.value, v.admitted[o.rid := x], c.stamps);
  }

  /** The budget of the grant that a section, if it succeeds, writes under its own operation id. */
  function Begins(k: Book, o: GrantOp): Option<Budget> {
    match o
    case GrantSpend(_, terms, _) => Some(FromTerms(terms))
    case GrantByDevice(_, _, _, _, terms, _, _) => Some(FromTerms(terms))
    case OpenEnvelope(_, _, _, _, _, _, _, _, _) =>
      if RelationIndex(k.grants, o) < |k.grants| then None
      else Some(Enveloped(Relations(), o.peer, o.amount, o.perAct, o.now + o.window))
    case _ => None
  }

  /** A new grant stands at the end of the book, with the budget it begins with. */
  lemma NewGrantIsLast(k: Book, x: Context, o: GrantOp) returns (client: ClientId)
    requires Begins(k, o).Some? && EffectOf(k, x, o).reply.Fine?
    ensures var fx := EffectOf(k, x, o);
            && fx.Write? && fx.book.grants != []
            && var g := fx.book.grants[|fx.book.grants| - 1];
               g.op == o.op && g.client == client && g.budget == Begins(k, o)
  {
    hide KillSpend, LatestEnd, ElevationsExcept;
    client := if o.GrantSpend? then FindElevation(k.elevations, o.op).value.client else o.id;
  }

  /** What the budget of a new grant shows, the book recalls: nothing else bears its id. */
  lemma GrantShows(k: Book, x: Context, o: GrantOp, drawn: set<string>) returns (client: ClientId)
    requires BookOk(k, drawn, None) && Draws(o) !! drawn
    requires Begins(k, o).Some? && EffectOf(k, x, o).reply.Fine?
    ensures var fx := EffectOf(k, x, o);
            && fx.Write?
            && forall v: Witness :: v.op == o.op && v.client == client && Recollects(Begins(k, o).value, v) ==>
                 BookOk(fx.book, drawn + Draws(o), Some(v))
  {
    var fx := EffectOf(k, x, o);
    assert NoClip(k, o) && Spares(o, None);
    hide BookOk, NoClip, EffectOf, Recollects, Begins;
    client := NewGrantIsLast(k, x, o);
    EffectKeeps(k, x, o, drawn, None);
    forall v: Witness | v.op == o.op && v.client == client && Recollects(Begins(k, o).value, v)
      ensures BookOk(fx.book, drawn + Draws(o), Some(v))
    {
      WitnessHere(fx.book, drawn + Draws(o), |fx.book.grants| - 1, v);
    }
  }
}
