/**
 The first-run ceremony: one pending identity at a time, a bounded number of wrong answers for each,
 and a bounded number of failed comparisons for the whole process. Every operation holds the
 transition lock from start to end, so each is one step. Hashes, device proofs and the words the
 owner compares are represented by what the code learns from them.
 */
module FirstRunCeremony {
  import opened Common
  import opened FirstRunCommit

  const SETUP_WINDOW: int := 900
  const PLAIN_TTL: int := 1800
  const MAX_FAILURES: nat := 3

  /** How the owner supplies the password: at startup, through the tunnel, or not at all. */
  datatype Owner = Nobody | Local | Remote

  datatype Device = Device(key: Option<string>, name: string)

  datatype Sas = Sas(approved: bool, key: string, name: string, binding: string, digest: string)

  datatype Pending = Pending(id: string, client: string, createdAt: int, wrong: nat, commitment: Option<string>,
                             sas: Option<Sas>)

  /**
   `mismatches` and `answers` are history variables: comparisons that failed in this process, and
   wrong passwords and backups given in each ceremony.
   */
  datatype Ceremony = Ceremony(owner: Owner, dir: Dir, committed: bool, pending: Option<Pending>, failures: nat,
                               mismatches: nat, answers: map<string, nat>)

  datatype Reply =
    | Started | Committed | Cancelled | Approved
    | Closed | Unavailable | PairingRevoked | InProgress | SetupClosed | SasRequired | SetupExpired | ClaimUnavailable
    | Lost | OtherClient | Expired | OtherNoise | SasMismatch | ApprovalPending | UnexpectedSas
    | NoCommitment | PasswordRequired | PasswordMismatch | BackupFailed | DeviceRule | DeviceRefused | HooksFailed
    | NotCommitted(result: Result)

  predicate Open(s: Ceremony) { !s.committed && Startup(s.dir) == Bootstrap }

  predicate IsExpired(p: Pending, now: int) { now - p.createdAt >= if p.sas.Some? then SETUP_WINDOW else PLAIN_TTL }

  function Tidied(s: Ceremony, now: int): Ceremony {
    if s.pending.Some? && IsExpired(s.pending.value, now) then s.(pending := None) else s
  }

  // ---- Begin ----

  /** `sas`: device key and name, noise binding and the digest the box computes. Time starts at zero. */
  datatype Start = Start(id: string, client: string, commitment: Option<string>, listed: bool, required: bool,
                         sas: Option<Sas>, claim: bool)

  function Begin(s: Ceremony, b: Start, now: int): (Ceremony, Reply) {
    if !Open(s) then (s, Closed)
    else if !(if b.commitment.Some? then s.owner.Remote? else s.owner.Local?) then (s, Unavailable)
    else if b.commitment.Some? && !b.listed then (s, PairingRevoked)
    else
      var t := Tidied(s, now);
      if t.pending.Some? then (t, InProgress)
      else if t.failures >= MAX_FAILURES then (t, SetupClosed)
      else if b.commitment.Some? && b.sas.None? && b.required then (t, SasRequired)
      else if b.sas.Some? && now >= SETUP_WINDOW then (t, SetupExpired)
      else if b.sas.Some? && !b.claim then (t, ClaimUnavailable)
      else
        var sas := if b.sas.Some? then Some(b.sas.value.(approved := false)) else None;
        (t.(pending := Some(Pending(b.id, b.client, now, 0, b.commitment, sas))), Started)
  }

  // ---- Finalize ----

  datatype Password = Password(empty: bool, hash: string)

  datatype Answer = Answer(
    id: string, client: string, required: bool, noise: Option<string>, version: Option<nat>, digest: Option<string>,
    device: Option<Device>, password: Option<Password>, hooks: bool, enrolls: bool, backup: bool, deviceOk: bool,
    attempt: Attempt)

  /** A failed comparison ends the ceremony and counts for the whole process. */
  function Mismatched(s: Ceremony): Ceremony {
    s.(pending := None, failures := s.failures + 1, mismatches := s.mismatches + 1)
  }

  predicate SasMatches(sas: Sas, a: Answer) {
    a.version == Some(1) && a.digest == Some(sas.digest)
    && a.device.Some? && a.device.value.key == Some(sas.key) && a.device.value.name == sas.name
  }

  /** The third wrong password or backup ends the ceremony. */
  function Wrong(s: Ceremony, p: Pending, why: Reply): (Ceremony, Reply) {
    var n := p.wrong + 1;
    var t := s.(answers := s.answers[p.id := n]);
    if n >= 3 then (t.(pending := None, failures := if p.sas.Some? then s.failures + 1 else s.failures), Lost)
    else (t.(pending := Some(p.(wrong := n))), why)
  }

  /** From here even a failed commit consumes the phrase. */
  function Consume(s: Ceremony, a: Attempt): (Ceremony, Reply) {
    var (d, r) := Commit(s.dir, a);
    (s.(pending := None, dir := d, committed := s.committed || r.Committed?),
     if r.Committed? then Reply.Committed else NotCommitted(r))
  }

  function Backup(s: Ceremony, p: Pending, a: Answer): (Ceremony, Reply) {
    if (a.enrolls || s.owner.Remote?) != a.device.Some? then (s, DeviceRule)
    else if !a.backup then Wrong(s, p, BackupFailed)
    else if !a.deviceOk then (s, DeviceRefused)
    else Consume(s, a.attempt)
  }

  function Checked(s: Ceremony, p: Pending, a: Answer): (Ceremony, Reply) {
    if a.password.None? then Backup(s, p, a)
    else if p.commitment.None? then (s, NoCommitment)
    else if a.password.value.empty then (s, PasswordRequired)
    else if p.commitment != Some(a.password.value.hash) then Wrong(s, p, PasswordMismatch)
    else if !a.hooks then (s, HooksFailed)
    else Backup(s, p, a)
  }

  function Compared(s: Ceremony, p: Pending, a: Answer, now: int): (Ceremony, Reply) {
    match p.sas
    case Some(sas) =>
      if a.noise != Some(sas.binding) then (s, OtherNoise)
      else if now >= SETUP_WINDOW then (s.(pending := None), SetupExpired)
      else if !SasMatches(sas, a) then (Mismatched(s), SasMismatch)
      else if !sas.approved then (s, ApprovalPending)
      else Checked(s, p, a)
    case None => if a.version.Some? || a.digest.Some? then (s, UnexpectedSas) else Checked(s, p, a)
  }

  function Finalize(s: Ceremony, a: Answer, now: int): (Ceremony, Reply) {
    if !Open(s) then (s, Closed)
    else if !(if a.password.Some? then s.owner.Remote? else s.owner.Local?) then (s, Unavailable)
    else if s.pending.None? then (s, Lost)
    else
      var p := s.pending.value;
      if p.client != a.client then (s, OtherClient)
      else if IsExpired(p, now) then (s.(pending := None), Expired)
      else if p.id != a.id then (s, Lost)
      else if s.failures >= MAX_FAILURES then (s, SetupClosed)
      else if s.owner.Remote? && p.sas.None? && a.required then (s, SasRequired)
      else Compared(s, p, a, now)
  }

  // ---- Cancel, the setup page, and the legacy commit ----

  function Cancel(s: Ceremony, client: string, id: string, now: int): (Ceremony, Reply) {
    if !Open(s) then (s, Closed)
    else if s.pending.Some? && s.pending.value.client != client then (s, OtherClient)
    else if s.pending.Some? && IsExpired(s.pending.value, now) then (s.(pending := None), Expired)
    else if s.pending.Some? && id != "current" && id != s.pending.value.id then (s, Lost)
    else
      var failed := s.pending.Some? && s.pending.value.sas.Some?;
      (s.(pending := None, failures := if failed then s.failures + 1 else s.failures), Cancelled)
  }

  /** The setup page exists only beside a remote owner. */
  predicate PageOpen(s: Ceremony, now: int) {
    s.owner.Remote? && !s.committed && now < SETUP_WINDOW && s.failures < MAX_FAILURES
  }

  function PageCancel(s: Ceremony, now: int): (Ceremony, Reply) {
    if !PageOpen(s, now) then (s, SetupClosed) else (s.(pending := None, failures := s.failures + 1), Cancelled)
  }

  function PageApprove(s: Ceremony, id: string, words: bool, now: int): (Ceremony, Reply) {
    if !PageOpen(s, now) then (s, SetupClosed)
    else if s.pending.None? || IsExpired(s.pending.value, now) || s.pending.value.id != id
            || s.pending.value.sas.None? || !words then (s, Lost)
    else
      var p := s.pending.value;
      (s.(pending := Some(p.(sas := Some(p.sas.value.(approved := true))))), Approved)
  }

  function Transition(s: Ceremony, a: Attempt, now: int): (Ceremony, Reply) {
    if s.owner.Remote? || !Open(s) then (s, Closed) else
      var t := Tidied(s, now);
      if t.pending.Some? then (t, InProgress) else Consume(t, a)
  }

  // ---- Runs ----

  datatype Event =
    | BeginIt(b: Start, now: int)
    | FinalizeIt(a: Answer, now: int)
    | CancelIt(client: string, id: string, now: int)
    | PageCancelIt(now: int)
    | PageApproveIt(id: string, words: bool, now: int)
    | TransitionIt(attempt: Attempt, now: int)

  function Step(s: Ceremony, e: Event): (Ceremony, Reply) {
    match e
    case BeginIt(b, now) => Begin(s, b, now)
    case FinalizeIt(a, now) => Finalize(s, a, now)
    case CancelIt(client, id, now) => Cancel(s, client, id, now)
    case PageCancelIt(now) => PageCancel(s, now)
    case PageApproveIt(id, words, now) => PageApprove(s, id, words, now)
    case TransitionIt(a, now) => Transition(s, a, now)
  }

  function After(s: Ceremony, es: seq<Event>): Ceremony
    decreases |es|
  {
    if es == [] then s else After(Step(s, es[0]).0, es[1..])
  }

  function DrawnBy(e: Event): set<string> { if e.BeginIt? then {e.b.id} else {} }

  /** Ceremony ids are new; only a remote start carries a device to compare. */
  predicate Legal(e: Event, drawn: set<string>) {
    e.BeginIt? ==> e.b.id !in drawn && (e.b.sas.Some? ==> e.b.commitment.Some?)
  }

  predicate LegalRun(es: seq<Event>, drawn: set<string>)
    decreases |es|
  {
    es == [] || (Legal(es[0], drawn) && LegalRun(es[1..], drawn + DrawnBy(es[0])))
  }

  function Answers(s: Ceremony, id: string): nat { if id in s.answers then s.answers[id] else 0 }

  predicate PendingOk(s: Ceremony, p: Pending, drawn: set<string>) {
    s.failures < MAX_FAILURES && p.wrong < 3 && p.id in drawn && Answers(s, p.id) == p.wrong
    && (p.sas.Some? ==> s.owner.Remote?)
  }

  predicate Sound(s: Ceremony, drawn: set<string>) {
    && Consistent(s.dir) && (s.committed ==> s.dir.placed.Some?)
    && s.mismatches <= s.failures <= MAX_FAILURES && (!s.owner.Remote? ==> s.failures == 0)
    && s.answers.Keys <= drawn && (forall id :: id in s.answers ==> s.answers[id] <= 3)
    && (s.pending.Some? ==> PendingOk(s, s.pending.value, drawn))
  }

  lemma ConsumeKeeps(s: Ceremony, a: Attempt, drawn: set<string>)
    requires Sound(s, drawn)
    ensures Sound(Consume(s, a).0, drawn) && Consume(s, a).0.failures == s.failures
  {
    CommitKeeps(s.dir, a);
  }

  lemma WrongKeeps(s: Ceremony, p: Pending, why: Reply, drawn: set<string>)
    requires Sound(s, drawn) && s.pending == Some(p)
    ensures Sound(Wrong(s, p, why).0, drawn)
  {
    hide Consistent;
  }

  lemma CheckedKeeps(s: Ceremony, p: Pending, a: Answer, drawn: set<string>)
    requires Sound(s, drawn) && s.pending == Some(p)
    ensures Sound(Checked(s, p, a).0, drawn)
  {
    hide Sound, Consume, Wrong;
    ConsumeKeeps(s, a.attempt, drawn);
    WrongKeeps(s, p, PasswordMismatch, drawn);
    WrongKeeps(s, p, BackupFailed, drawn);
  }

  lemma FinalizeKeeps(s: Ceremony, a: Answer, now: int, drawn: set<string>)
    requires Sound(s, drawn)
    ensures Sound(Finalize(s, a, now).0, drawn)
  {
    hide Consistent, Checked, SasMatches, Startup;
    if s.pending.Some? { CheckedKeeps(s, s.pending.value, a, drawn); }
  }

  lemma BeginKeeps(s: Ceremony, b: Start, now: int, drawn: set<string>)
    requires Sound(s, drawn) && b.id !in drawn && (b.sas.Some? ==> b.commitment.Some?)
    ensures Sound(Begin(s, b, now).0, drawn + {b.id})
  {
    hide Consistent, Startup;
  }

  lemma CancelKeeps(s: Ceremony, client: string, id: string, words: bool, now: int, drawn: set<string>)
    requires Sound(s, drawn)
    ensures Sound(Cancel(s, client, id, now).0, drawn)
    ensures Sound(PageCancel(s, now).0, drawn) && Sound(PageApprove(s, id, words, now).0, drawn)
  {
    hide Consistent, Startup;
  }

  lemma StepKeeps(s: Ceremony, e: Event, drawn: set<string>)
    requires Sound(s, drawn) && Legal(e, drawn)
    ensures Sound(Step(s, e).0, drawn + DrawnBy(e))
  {
    assert e.BeginIt? || drawn + DrawnBy(e) == drawn;
    match e
    case BeginIt(b, now) => BeginKeeps(s, b, now, drawn);
    case FinalizeIt(a, now) => FinalizeKeeps(s, a, now, drawn);
    case CancelIt(client, id, now) => CancelKeeps(s, client, id, true, now, drawn);
    case PageCancelIt(now) => CancelKeeps(s, "", "", true, now, drawn);
    case PageApproveIt(id, words, now) => CancelKeeps(s, "", id, words, now, drawn);
    case TransitionIt(a, now) =>
      assert Sound(Tidied(s, now), drawn);
      ConsumeKeeps(Tidied(s, now), a, drawn);
  }

  /**
   Over every run: at most three counted failures and at most three failed comparisons, a pending
   ceremony only while fewer than three, and at most three wrong answers in any one ceremony.
   */
  lemma {:induction false} FailuresAreBounded(s: Ceremony, es: seq<Event>, drawn: set<string>)
    requires Sound(s, drawn) && LegalRun(es, drawn)
    ensures var t := After(s, es);
            && t.mismatches <= t.failures <= 3 && (t.pending.Some? ==> t.failures < 3)
            && (forall id :: Answers(t, id) <= 3)
            && exists d :: Sound(t, d)
    decreases |es|
  {
    if es != [] {
      hide Sound, Step, Legal;
      StepKeeps(s, es[0], drawn);
      FailuresAreBounded(Step(s, es[0]).0, es[1..], drawn + DrawnBy(es[0]));
    }
  }

  /** Setup is over: three failures, or a commit. */
  predicate Over(s: Ceremony) { s.failures >= MAX_FAILURES || s.dir.placed.Some? }

  /** Only a finalize or a legacy commit can commit, and only while the ceremony is open and not over. */
  lemma FinalizeWhenOver(s: Ceremony, a: Answer, now: int, drawn: set<string>)
    requires Sound(s, drawn)
    ensures var (t, r) := Finalize(s, a, now);
            && (r.Committed? ==> t.dir.placed.Some?) && (s.dir.placed.Some? ==> t.dir == s.dir)
            && t.failures >= s.failures && (Over(s) ==> !r.Committed?)
  {
    hide SasMatches, Commit;
    CommitKeeps(s.dir, a.attempt);
  }

  /** A commit ends setup, and setup that is over takes no step towards a commit. */
  lemma OverStaysOver(s: Ceremony, e: Event, drawn: set<string>)
    requires Sound(s, drawn)
    ensures Step(s, e).1.Committed? ==> Step(s, e).0.dir.placed.Some?
    ensures Over(s) ==> Over(Step(s, e).0) && !Step(s, e).1.Committed?
  {
    if e.FinalizeIt? {
      hide Finalize;
      FinalizeWhenOver(s, e.a, e.now, drawn);
    } else if e.TransitionIt? {
      CommitKeeps(s.dir, e.attempt);
    }
  }

  lemma {:induction false} OverForTheRun(s: Ceremony, es: seq<Event>, drawn: set<string>)
    requires Sound(s, drawn) && LegalRun(es, drawn) && Over(s)
    ensures Over(After(s, es)) && exists d :: Sound(After(s, es), d) && drawn <= d
    decreases |es|
  {
    hide Sound, Step, Legal, Over;
    if es != [] {
      OverStaysOver(s, es[0], drawn);
      StepKeeps(s, es[0], drawn);
      OverForTheRun(Step(s, es[0]).0, es[1..], drawn + DrawnBy(es[0]));
    }
  }

  /** No commit follows the third failure or a previous commit, in any continuation of the run. */
  lemma {:induction false} NoCommitWhenOver(s: Ceremony, first: Event, mid: seq<Event>, last: Event, drawn: set<string>)
    requires Sound(s, drawn) && LegalRun([first] + mid, drawn)
    requires Step(s, first).1.Committed? || Step(s, first).0.failures >= 3
    ensures !Step(After(Step(s, first).0, mid), last).1.Committed?
  {
    hide Sound, Step;
    assert ([first] + mid)[1..] == mid;
    StepKeeps(s, first, drawn);
    OverStaysOver(s, first, drawn);
    OverForTheRun(Step(s, first).0, mid, drawn + DrawnBy(first));
    var t := After(Step(s, first).0, mid);
    var d :| Sound(t, d);
    OverStaysOver(t, last, d);
  }

  // ---- The state as the service holds it ----

  class BootstrapState {
    const owner: Owner
    var dir: Dir
    var committed: bool
    var pending: Option<Pending>
    var failures: nat
    ghost var mismatches: nat
    ghost var answers: map<string, nat>

    ghost function Now(): Ceremony
      reads this
    {
      Ceremony(owner, dir, committed, pending, failures, mismatches, answers)
    }

    constructor (who: Owner, d: Dir)
      ensures Now() == Ceremony(who, d, false, None, 0, 0, map[]) && (Consistent(d) ==> Sound(Now(), {}))
    {
      owner, dir, committed, pending, failures := who, d, false, None, 0;
      mismatches, answers := 0, map[];
    }

    predicate IsOpen()
      reads this
    {
      !committed && Startup(dir) == Bootstrap
    }

    method BeginPending(b: Start, now: int) returns (r: Reply)
      modifies this
      ensures (Now(), r) == Begin(old(Now()), b, now)
    {
      if !IsOpen() { return Closed; }
      var available := if b.commitment.Some? then owner.Remote? else owner.Local?;
      if !available { return Unavailable; }
      if b.commitment.Some? && !b.listed { return PairingRevoked; }
      if pending.Some? && IsExpired(pending.value, now) { pending := None; }
      if pending.Some? { return InProgress; }
      if failures >= MAX_FAILURES { return SetupClosed; }
      if b.commitment.Some? && b.sas.None? && b.required { return SasRequired; }
      if b.sas.Some? && now >= SETUP_WINDOW { return SetupExpired; }
      if b.sas.Some? && !b.claim { return ClaimUnavailable; }
      var sas := if b.sas.Some? then Some(b.sas.value.(approved := false)) else None;
      pending := Some(Pending(b.id, b.client, now, 0, b.commitment, sas));
      r := Started;
    }

    /** Counts a wrong password or backup; the third clears the slot. */
    method CountWrong(why: Reply) returns (r: Reply)
      requires pending.Some?
      modifies this
      ensures (Now(), r) == Wrong(old(Now()), old(pending.value), why)
    {
      var p := pending.value;
      answers := answers[p.id := p.wrong + 1];
      pending := Some(p.(wrong := p.wrong + 1));
      if p.wrong + 1 >= 3 {
        if p.sas.Some? { failures := failures + 1; }
        pending := None;
        return Lost;
      }
      r := why;
    }

    method CommitLocked(a: Attempt) returns (r: Reply)
      modifies this
      ensures (Now(), r) == Consume(old(Now()), a)
    {
      pending := None;
      var (d, result) := Commit(dir, a);
      dir := d;
      if !result.Committed? { return NotCommitted(result); }
      committed := true;
      r := Reply.Committed;
    }

    method FinalizePending(a: Answer, now: int) returns (r: Reply)
      modifies this
      ensures (Now(), r) == Finalize(old(Now()), a, now)
    {
      hide Commit, Startup;
      if !IsOpen() { return Closed; }
      var usable := if a.password.Some? then owner.Remote? else owner.Local?;
      if !usable { return Unavailable; }
      if pending.None? { return Lost; }
      var p := pending.value;
      if p.client != a.client { return OtherClient; }
      if IsExpired(p, now) {
        pending := None;
        return Expired;
      }
      if p.id != a.id { return Lost; }
      if failures >= MAX_FAILURES { return SetupClosed; }
      if owner.Remote? && p.sas.None? && a.required { return SasRequired; }
      if p.sas.Some? {
        if a.noise != Some(p.sas.value.binding) { return OtherNoise; }
        if now >= SETUP_WINDOW {
          pending := None;
          return SetupExpired;
        }
        if !SasMatches(p.sas.value, a) {
          failures, mismatches := failures + 1, mismatches + 1;
          pending := None;
          return SasMismatch;
        }
        if !p.sas.value.approved { return ApprovalPending; }
      } else if a.version.Some? || a.digest.Some? {
        return UnexpectedSas;
      }
      if a.password.Some? {
        if p.commitment.None? { return NoCommitment; }
        if a.password.value.empty { return PasswordRequired; }
        if p.commitment != Some(a.password.value.hash) {
          r := CountWrong(PasswordMismatch);
          return;
        }
        if !a.hooks { return HooksFailed; }
      }
      if (a.enrolls || owner.Remote?) != a.device.Some? { return DeviceRule; }
      if !a.backup {
        r := CountWrong(BackupFailed);
        return;
      }
      if !a.deviceOk { return DeviceRefused; }
      r := CommitLocked(a.attempt);
    }

    method CancelPending(client: string, id: string, now: int) returns (r: Reply)
      modifies this
      ensures (Now(), r) == Cancel(old(Now()), client, id, now)
    {
      if !IsOpen() { return Closed; }
      if pending.Some? {
        var p := pending.value;
        if p.client != client { return OtherClient; }
        if IsExpired(p, now) {
          pending := None;
          return Expired;
        }
        if id != "current" && id != p.id { return Lost; }
        if p.sas.Some? { failures := failures + 1; }
      }
      pending := None;
      r := Cancelled;
    }
  }
}
