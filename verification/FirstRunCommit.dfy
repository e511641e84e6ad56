/**
 The first-run transition: identity material is staged, renamed into place in one step, pairings
 are rebound, and the marker is written last. Every step can fail or be cut short by a crash, and
 the commit can be tried again any number of times. Startup decides from file facts alone.
 */
module FirstRunCommit {
  import opened Common

  type Fingerprint = string

  // ---- Startup ----

  datatype Probe = Probe(marker: bool, identity: bool, state: bool, storeReadable: bool)

  datatype Reason =
    | IdentityAndStateWithoutMarker | IdentityWithoutMarker | StateWithoutIdentity
    | InitializedMissingIdentity | InitializedStoreCorrupt

  datatype Mode = Bootstrap | Initialized | Refuse(reason: Reason)

  function Classify(p: Probe): Mode {
    if !p.marker then
      if p.identity && p.state then Refuse(IdentityAndStateWithoutMarker)
      else if p.identity then Refuse(IdentityWithoutMarker)
      else if p.state then Refuse(StateWithoutIdentity)
      else Bootstrap
    else if !p.identity then Refuse(InitializedMissingIdentity)
    else if !p.storeReadable then Refuse(InitializedStoreCorrupt)
    else Initialized
  }

  // ---- The data directory ----

  /**
   `target`: the identity directory exists. `placed`: whose material it holds. `elsewhere`: identity
   material outside it. `rebound`, `installed` and `aligned` are history variables: the identity
   for which the pairing rebind, the device install and the before-marker hook last succeeded.
   */
  datatype Dir = Dir(
    target: bool, placed: Option<Fingerprint>, elsewhere: bool, state: bool, storeReadable: bool,
    marker: Option<Fingerprint>, staging: nat,
    rebound: Option<Fingerprint>, installed: Option<Fingerprint>, aligned: Option<Fingerprint>)

  function Inspect(d: Dir): Probe { Probe(d.marker.Some?, d.placed.Some? || d.elsewhere, d.state, d.storeReadable) }

  function Startup(d: Dir): Mode { Classify(Inspect(d)) }

  const EMPTY := Dir(false, None, false, false, true, None, 0, None, None, None)

  // ---- One attempt ----

  datatype Stage = Staged | Renamed | Rebound | Installed | Aligned | Marked

  /** How one step ends: done, failed or crashed without effect, or with its effect already on disk. */
  datatype Fate = Done | Failed | FailedLate

  datatype Attempt = Attempt(identity: Fingerprint, validSeed: bool, fate: Stage -> Fate)

  datatype Result = Committed | Conflict | BadSeed | Stopped(at: Stage)

  /** What a step leaves on disk when it succeeds. */
  function Effect(d: Dir, id: Fingerprint, s: Stage): Dir {
    match s
    case Staged => d.(staging := d.staging + 1)
    case Renamed => d.(target := true, placed := Some(id), staging := SatSub(d.staging, 1))
    case Rebound => d.(rebound := Some(id))
    case Installed => d.(installed := Some(id))
    case Aligned => d.(aligned := Some(id))
    case Marked => d.(marker := Some(id))
  }

  /**
   What a step that reports failure may still have left. Staging, rename and marker are seen by startup
   however they were reported: the directory sync after a rename or a marker can fail, or a crash come
   first. A rebind, install or hook that did not report success has not succeeded for its identity.
   */
  function Partial(d: Dir, id: Fingerprint, s: Stage): Dir {
    if s in {Staged, Renamed, Marked} then Effect(d, id, s) else d
  }

  const ORDER: seq<Stage> := [Staged, Renamed, Rebound, Installed, Aligned, Marked]

  /** Runs the steps from `i` on, stopping at the first that does not report success. */
  function RunFrom(d: Dir, a: Attempt, i: nat): (Dir, Result)
    requires i <= |ORDER|
    decreases |ORDER| - i
  {
    if i == |ORDER| then (d, Committed) else
      var s := ORDER[i];
      if s == Renamed && d.target then (d, Conflict) else
        match a.fate(s)
        case Done => RunFrom(Effect(d, a.identity, s), a, i + 1)
        case Failed => (d, Stopped(s))
        case FailedLate => (Partial(d, a.identity, s), Stopped(s))
  }

  function Commit(d: Dir, a: Attempt): (Dir, Result) {
    if Startup(d) != Bootstrap then (d, Conflict)
    else if !a.validSeed then (d, BadSeed)
    else RunFrom(d, a, 0)
  }

  function After(d: Dir, attempts: seq<Attempt>): Dir
    decreases |attempts|
  {
    if attempts == [] then d else After(Commit(d, attempts[0]).0, attempts[1..])
  }

  // ---- What every attempt keeps ----

  /** The marker certifies one identity: placed, rebound, installed and aligned. */
  predicate Certified(d: Dir) {
    d.marker.Some? ==> d.placed == d.marker && d.rebound == d.marker && d.installed == d.marker && d.aligned == d.marker
  }

  predicate Consistent(d: Dir) {
    Certified(d) && (d.placed.Some? ==> d.target) && !d.elsewhere && !d.state && d.storeReadable
  }

  /** What holds of the directory when the steps before `i` have succeeded for `id`. */
  predicate Reached(d: Dir, id: Fingerprint, i: nat) {
    && Consistent(d) && (i < 6 ==> d.marker.None?)
    && (i < 2 ==> d.placed.None?) && (2 <= i ==> d.placed == Some(id))
    && (3 <= i ==> d.rebound == Some(id)) && (4 <= i ==> d.installed == Some(id)) && (5 <= i ==> d.aligned == Some(id))
    && (6 <= i ==> d.marker == Some(id))
  }

  lemma {:induction false} RunKeeps(d: Dir, a: Attempt, i: nat)
    requires i <= |ORDER| && Reached(d, a.identity, i)
    ensures var (e, r) := RunFrom(d, a, i);
            && Consistent(e) && (r.Committed? ==> e.marker == Some(a.identity))
            && (e.placed == d.placed || (d.placed.None? && e.placed == Some(a.identity)))
    decreases |ORDER| - i
  {
    if i < |ORDER| {
      var s := ORDER[i];
      if !(s == Renamed && d.target) && a.fate(s).Done? {
        assert Reached(Effect(d, a.identity, s), a.identity, i + 1);
        RunKeeps(Effect(d, a.identity, s), a, i + 1);
      }
    }
  }

  lemma CommitKeeps(d: Dir, a: Attempt)
    requires Consistent(d)
    ensures var (e, r) := Commit(d, a);
            && Consistent(e) && (d.placed.Some? ==> e == d)
            && (r.Committed? ==> d.placed.None? && e.placed == e.marker == Some(a.identity))
  {
    if Startup(d) == Bootstrap && a.validSeed { RunKeeps(d, a, 0); }
  }

  /** Exactly one reading of the directory at every moment. */
  predicate Readable(d: Dir) {
    && (Startup(d) == Bootstrap <==> d.placed.None?)
    && (Startup(d) == Refuse(IdentityWithoutMarker) <==> d.placed.Some? && d.marker.None?)
    && (Startup(d) == Initialized <==> d.marker.Some?)
    && (Startup(d) == Initialized ==>
          d.placed.Some? && d.rebound == d.placed && d.installed == d.placed && d.aligned == d.placed
          && d.marker == d.placed)
  }

  /**
   Over any number of attempts, each ending anywhere: first-run authority is open exactly until the
   rename, refused between rename and marker, and the node starts only when every step succeeded
   for the one identity that was placed.
   */
  lemma {:induction false} StartupIsExact(d: Dir, attempts: seq<Attempt>)
    requires Consistent(d)
    ensures Consistent(After(d, attempts)) && Readable(After(d, attempts))
    decreases |attempts|
  {
    if attempts != [] {
      CommitKeeps(d, attempts[0]);
      StartupIsExact(Commit(d, attempts[0]).0, attempts[1..]);
    }
  }

  /** At most one identity is ever placed: once one is there, no attempt changes anything. */
  lemma {:induction false} OneIdentityEver(d: Dir, attempts: seq<Attempt>)
    requires Consistent(d) && d.placed.Some?
    ensures After(d, attempts) == d
    decreases |attempts|
  {
    if attempts != [] {
      CommitKeeps(d, attempts[0]);
      OneIdentityEver(Commit(d, attempts[0]).0, attempts[1..]);
    }
  }

  /** From an empty directory, at most one attempt of any run commits. */
  lemma {:induction false} CommitsOnce(before: seq<Attempt>, first: Attempt, mid: seq<Attempt>, second: Attempt)
    ensures var d := After(EMPTY, before);
            var e := After(Commit(d, first).0, mid);
            Commit(d, first).1.Committed? ==> Commit(e, second).1 == Conflict
  {
    StartupIsExact(EMPTY, before);
    var d := After(EMPTY, before);
    CommitKeeps(d, first);
    if Commit(d, first).1.Committed? {
      StartupIsExact(Commit(d, first).0, mid);
      OneIdentityEver(Commit(d, first).0, mid);
    }
  }

  // ---- What startup and an attempt come to ----

  /** Startup bootstraps exactly a directory with nothing in it, and starts exactly a marked and readable identity. */
  lemma StartupIff(d: Dir)
    ensures Startup(d) == Bootstrap <==> d.marker.None? && d.placed.None? && !d.elsewhere && !d.state
    ensures Startup(d) == Initialized <==> d.marker.Some? && (d.placed.Some? || d.elsewhere) && d.storeReadable
    ensures Startup(d) == Refuse(InitializedMissingIdentity) <==> d.marker.Some? && d.placed.None? && !d.elsewhere
    ensures Startup(d) == Refuse(StateWithoutIdentity) <==>
              d.marker.None? && d.placed.None? && !d.elsewhere && d.state
    ensures Startup(d) == Refuse(IdentityWithoutMarker) <==>
              d.marker.None? && (d.placed.Some? || d.elsewhere) && !d.state
  {
  }

  lemma {:induction false} RunCommitsIff(d: Dir, a: Attempt, i: nat)
    requires i <= |ORDER| && (2 <= i ==> d.target)
    ensures RunFrom(d, a, i).1.Committed? <==>
              (i < 2 ==> !d.target) && forall j :: i <= j < |ORDER| ==> a.fate(ORDER[j]).Done?
    decreases |ORDER| - i
  {
    if i < |ORDER| && !(ORDER[i] == Renamed && d.target) && a.fate(ORDER[i]).Done? {
      RunCommitsIff(Effect(d, a.identity, ORDER[i]), a, i + 1);
    }
  }

  lemma InOrder(s: Stage)
    ensures exists j :: 0 <= j < |ORDER| && ORDER[j] == s
  {
    assert ORDER[0] == Staged && ORDER[1] == Renamed && ORDER[2] == Rebound && ORDER[3] == Installed
           && ORDER[4] == Aligned && ORDER[5] == Marked;
  }

  /** An attempt commits if and only if startup would bootstrap, the seed is valid and every step is done. */
  lemma CommitsIff(d: Dir, a: Attempt)
    requires Consistent(d)
    ensures Commit(d, a).1.Committed? <==>
              Startup(d) == Bootstrap && !d.target && a.validSeed && forall s :: a.fate(s).Done?
  {
    RunCommitsIff(d, a, 0);
    if forall j :: 0 <= j < |ORDER| ==> a.fate(ORDER[j]).Done? {
      forall s ensures a.fate(s).Done? { assert exists j :: 0 <= j < |ORDER| && ORDER[j] == s by { InOrder(s); } }
    }
  }

  /** The steps before this one, and how this one may have ended, when an attempt stops there. */
  predicate StopsAt(a: Attempt, s: Stage) {
    match s
    case Staged => !a.fate(Staged).Done?
    case Renamed => a.fate(Staged).Done? && !a.fate(Renamed).Done?
    case Rebound => a.fate(Staged).Done? && a.fate(Renamed).Done? && !a.fate(Rebound).Done?
    case Installed =>
      a.fate(Staged).Done? && a.fate(Renamed).Done? && a.fate(Rebound).Done? && !a.fate(Installed).Done?
    case Aligned =>
      && a.fate(Staged).Done? && a.fate(Renamed).Done? && a.fate(Rebound).Done? && a.fate(Installed).Done?
      && !a.fate(Aligned).Done?
    case Marked =>
      && a.fate(Staged).Done? && a.fate(Renamed).Done? && a.fate(Rebound).Done? && a.fate(Installed).Done?
      && a.fate(Aligned).Done? && !a.fate(Marked).Done?
  }

  /**
   Where an attempt in an open directory stops is the first step that did not report success. The identity
   is in place from the rename on, even a rename that was not reported; the marker likewise; and staged
   material is left behind exactly by an attempt that staged it and did not rename it.
   */
  lemma AttemptLeaves(d: Dir, a: Attempt, s: Stage)
    requires Startup(d) == Bootstrap && !d.target && a.validSeed
    ensures var (e, r) := Commit(d, a);
            && (r == Stopped(s) <==> StopsAt(a, s))
            && (e.placed == Some(a.identity) <==> a.fate(Staged).Done? && !a.fate(Renamed).Failed?)
            && (e.marker == Some(a.identity) <==>
                  r.Committed? || (StopsAt(a, Marked) && a.fate(Marked).FailedLate?))
            && e.staging == d.staging
                 + if a.fate(Staged).Failed? || (a.fate(Staged).Done? && !a.fate(Renamed).Failed?) then 0 else 1
  {
    StartupIff(d);
    UnrollRun(d, a);
    hide Startup, RunFrom;
  }

  /** The same run, step by step. */
  lemma UnrollRun(d: Dir, a: Attempt)
    requires !d.target
    ensures var d1 := Effect(d, a.identity, Staged);
            var d2 := Effect(d1, a.identity, Renamed);
            var d3 := Effect(d2, a.identity, Rebound);
            var d4 := Effect(d3, a.identity, Installed);
            var d5 := Effect(d4, a.identity, Aligned);
            RunFrom(d, a, 0)
            == if !a.fate(Staged).Done? then Stop(d, a, Staged)
               else if !a.fate(Renamed).Done? then Stop(d1, a, Renamed)
               else if !a.fate(Rebound).Done? then Stop(d2, a, Rebound)
               else if !a.fate(Installed).Done? then Stop(d3, a, Installed)
               else if !a.fate(Aligned).Done? then Stop(d4, a, Aligned)
               else if !a.fate(Marked).Done? then Stop(d5, a, Marked)
               else (Effect(d5, a.identity, Marked), Committed)
  {
    var d1 := Effect(d, a.identity, Staged);
    var d2 := Effect(d1, a.identity, Renamed);
    var d3 := Effect(d2, a.identity, Rebound);
    var d4 := Effect(d3, a.identity, Installed);
    assert RunFrom(d, a, 0) == if a.fate(Staged).Done? then RunFrom(d1, a, 1) else Stop(d, a, Staged);
    assert RunFrom(d1, a, 1) == if a.fate(Renamed).Done? then RunFrom(d2, a, 2) else Stop(d1, a, Renamed);
    assert RunFrom(d2, a, 2) == if a.fate(Rebound).Done? then RunFrom(d3, a, 3) else Stop(d2, a, Rebound);
    assert RunFrom(d3, a, 3) == if a.fate(Installed).Done? then RunFrom(d4, a, 4) else Stop(d3, a, Installed);
  }

  function Stop(d: Dir, a: Attempt, s: Stage): (Dir, Result) {
    (if a.fate(s).FailedLate? then Partial(d, a.identity, s) else d, Stopped(s))
  }

  // ---- The commit as it runs ----

  class DataDir {
    var dir: Dir

    constructor ()
      ensures dir == EMPTY
    {
      dir := EMPTY;
    }

    /** One step: its effect, as far as it got, and whether it reported success. */
    method Take(s: Stage, a: Attempt) returns (ok: bool)
      modifies this
      ensures ok == a.fate(s).Done?
      ensures dir == match a.fate(s)
                     case Done => Effect(old(dir), a.identity, s)
                     case Failed => old(dir)
                     case FailedLate => Partial(old(dir), a.identity, s)
    {
      ok := a.fate(s).Done?;
      if ok {
        dir := Effect(dir, a.identity, s);
      } else if a.fate(s).FailedLate? {
        dir := Partial(dir, a.identity, s);
      }
    }

    /** `commit_first_run_local`: guard, stage, rename, rebind, install, align, and the marker last. */
    method CommitFirstRun(a: Attempt) returns (r: Result)
      requires Consistent(dir)
      modifies this
      ensures (dir, r) == Commit(old(dir), a)
      ensures Consistent(dir) && Readable(dir)
    {
      CommitKeeps(dir, a);
      if Startup(dir) != Bootstrap { return Conflict; }
      if !a.validSeed { return BadSeed; }
      ghost var expected := RunFrom(dir, a, 0);
      var ok := Take(Staged, a);
      if !ok { return Stopped(Staged); }
      if dir.target { return Conflict; }
      ok := Take(Renamed, a);
      if !ok { return Stopped(Renamed); }
      assert expected == RunFrom(dir, a, 2);
      ok := Take(Rebound, a);
      if !ok { return Stopped(Rebound); }
      ok := Take(Installed, a);
      if !ok { return Stopped(Installed); }
      assert expected == RunFrom(dir, a, 4);
      ok := Take(Aligned, a);
      if !ok { return Stopped(Aligned); }
      ok := Take(Marked, a);
      if !ok { return Stopped(Marked); }
      r := Committed;
    }
  }
}
