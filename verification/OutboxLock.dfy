/**
 * The lock around the scheduled outbox scan: SET NX with a time to live, compare-and-delete on release.
 * Outbox rows are safe without it; this is exactly what it adds.
 */
module OutboxLock {
  import opened Json

  /** A running publishPending. held: the lock it took has not expired since. */
  datatype Scan = Asking(value: nat) | Scanning(value: nat, held: bool) | Releasing(value: nat, held: bool)

  datatype State = State(lock: Option<nat>, scans: map<nat, Scan>)

  const Init := State(None, map[])

  /**
   * expires: a time to live may run out under a scan that still holds its lock; a lock without such a holder,
   * a dead pod's for instance, always may. unique: no two running scans draw one lock value.
   */
  datatype Env = Env(expires: bool, unique: bool)

  datatype Step =
    | Begin(p: nat, value: nat)   // sets the running flag and draws a lock value
    | Acquire(p: nat)
    | BatchDone(p: nat)
    | Release(p: nat)
    | Expire
    | Die(p: nat)

  predicate Active(scan: Scan) {
    !scan.Asking?
  }

  predicate Enabled(env: Env, s: State, step: Step) {
    match step
    case Begin(p, value) => p !in s.scans &&
      (env.unique ==> s.lock != Some(value) && forall q | q in s.scans :: s.scans[q].value != value)
    case Acquire(p) => p in s.scans && s.scans[p].Asking?
    case BatchDone(p) => p in s.scans && s.scans[p].Scanning?
    case Release(p) => p in s.scans && s.scans[p].Releasing?
    case Expire => env.expires || forall q | q in s.scans && Active(s.scans[q]) :: !s.scans[q].held
    case Die(p) => p in s.scans
  }

  function Lapsed(scan: Scan): (r: Scan) {
    if Active(scan) then scan.(held := false) else scan
  }

  function Apply(env: Env, s: State, step: Step): (s': State)
    requires Enabled(env, s, step)
  {
    match step
    case Begin(p, value) => s.(scans := s.scans[p := Asking(value)])
    case Acquire(p) =>
      var value := s.scans[p].value;
      if s.lock == None then State(Some(value), s.scans[p := Scanning(value, true)]) else s.(scans := s.scans - {p})
    case BatchDone(p) => s.(scans := s.scans[p := Releasing(s.scans[p].value, s.scans[p].held)])
    case Release(p) => State(if s.lock == Some(s.scans[p].value) then None else s.lock, s.scans - {p})
    case Expire => State(None, map p | p in s.scans :: Lapsed(s.scans[p]))
    case Die(p) => s.(scans := s.scans - {p})
  }

  ghost predicate IsRun(env: Env, s: State, steps: seq<Step>, s': State)
    decreases steps
  {
    if steps == [] then s' == s
    else Enabled(env, s, steps[0]) && IsRun(env, Apply(env, s, steps[0]), steps[1..], s')
  }

  lemma {:induction false} RunConcat(env: Env, s: State, a: seq<Step>, mid: State, b: seq<Step>, s': State)
    requires IsRun(env, s, a, mid) && IsRun(env, mid, b, s')
    ensures IsRun(env, s, a + b, s')
    decreases a
  {
    if a == [] {
      assert a + b == b;
    } else {
      assert (a + b)[1..] == a[1..] + b;
      RunConcat(env, Apply(env, s, a[0]), a[1..], mid, b, s');
    }
  }

  lemma OneStepRun(env: Env, s: State, step: Step)
    requires Enabled(env, s, step)
    ensures IsRun(env, s, [step], Apply(env, s, step))
  {
    assert [step][1..] == [];
  }

  /** SET NX: a free lock is taken and the scan goes on; a taken one is left alone and the tick is skipped. */
  lemma AcquireMeans(env: Env, s: State, p: nat)
    requires Enabled(env, s, Acquire(p))
    ensures var s' := Apply(env, s, Acquire(p));
      && (s.lock == None ==>
            s'.lock == Some(s.scans[p].value) && s'.scans == s.scans[p := Scanning(s.scans[p].value, true)])
      && (s.lock != None ==> s'.lock == s.lock && s'.scans == s.scans - {p})
  {
  }

  // ---------------------------------------------------------------- one scan at a time

  predicate OneScan(s: State) {
    forall p, q | p in s.scans && q in s.scans && Active(s.scans[p]) && Active(s.scans[q]) :: p == q
  }

  /** The lock of a scan that did not lose it is still there: no one else released it. */
  predicate HeldIsLocked(s: State) {
    forall p | p in s.scans && Active(s.scans[p]) && s.scans[p].held :: s.lock == Some(s.scans[p].value)
  }

  ghost predicate AlwaysOneScan(env: Env) {
    forall steps, s | IsRun(env, Init, steps, s) :: OneScan(s)
  }

  ghost predicate AlwaysHeldIsLocked(env: Env) {
    forall steps, s | IsRun(env, Init, steps, s) :: HeldIsLocked(s)
  }

  predicate NoneLapsed(s: State) {
    forall p | p in s.scans && Active(s.scans[p]) :: s.scans[p].held
  }

  lemma {:induction false} WithoutExpiry(env: Env, s: State, steps: seq<Step>, s': State)
    requires !env.expires && OneScan(s) && HeldIsLocked(s) && NoneLapsed(s) && IsRun(env, s, steps, s')
    ensures OneScan(s') && HeldIsLocked(s')
    decreases steps
  {
    if steps != [] {
      WithoutExpiry(env, Apply(env, s, steps[0]), steps[1..], s');
    }
  }

  predicate DistinctValues(s: State) {
    forall p, q | p in s.scans && q in s.scans && s.scans[p].value == s.scans[q].value :: p == q
  }

  lemma {:induction false} WithUniqueValues(env: Env, s: State, steps: seq<Step>, s': State)
    requires env.unique && DistinctValues(s) && HeldIsLocked(s) && IsRun(env, s, steps, s')
    ensures HeldIsLocked(s')
    decreases steps
  {
    if steps != [] {
      WithUniqueValues(env, Apply(env, s, steps[0]), steps[1..], s');
    }
  }

  /** Two pods draw their values while both run; the lock of the first expires and the second takes it. */
  lemma TwoScans(env: Env, value: nat) returns (steps: seq<Step>, s: State)
    requires env.expires && (env.unique ==> value != 0)
    ensures IsRun(env, Init, steps, s)
    ensures s == State(Some(value), map[0 := Scanning(0, false), 1 := Scanning(value, true)])
  {
    var s1 := Apply(env, Init, Begin(0, 0));
    var s2 := Apply(env, s1, Acquire(0));
    var s3 := Apply(env, s2, Begin(1, value));
    var s4 := Apply(env, s3, Expire);
    s := Apply(env, s4, Acquire(1));
    OneStepRun(env, Init, Begin(0, 0)); OneStepRun(env, s1, Acquire(0)); OneStepRun(env, s2, Begin(1, value));
    OneStepRun(env, s3, Expire); OneStepRun(env, s4, Acquire(1));
    RunConcat(env, Init, [Begin(0, 0)], s1, [Acquire(0)], s2);
    RunConcat(env, Init, [Begin(0, 0)] + [Acquire(0)], s2, [Begin(1, value)], s3);
    RunConcat(env, Init, [Begin(0, 0)] + [Acquire(0)] + [Begin(1, value)], s3, [Expire], s4);
    RunConcat(env, Init, [Begin(0, 0)] + [Acquire(0)] + [Begin(1, value)] + [Expire], s4, [Acquire(1)], s);
    steps := [Begin(0, 0)] + [Acquire(0)] + [Begin(1, value)] + [Expire] + [Acquire(1)];
  }

  /** The late scan then releases the other one's lock, when both drew the same value. */
  lemma StolenRelease(env: Env) returns (steps: seq<Step>, s: State)
    requires env.expires && !env.unique
    ensures IsRun(env, Init, steps, s) && !HeldIsLocked(s)
  {
    var before, s0 := TwoScans(env, 0);
    var s1 := Apply(env, s0, BatchDone(0));
    s := Apply(env, s1, Release(0));
    OneStepRun(env, s0, BatchDone(0));
    OneStepRun(env, s1, Release(0));
    RunConcat(env, s0, [BatchDone(0)], s1, [Release(0)], s);
    RunConcat(env, Init, before, s0, [BatchDone(0)] + [Release(0)], s);
    steps := before + ([BatchDone(0)] + [Release(0)]);
    assert s.scans[1] == Scanning(0, true) && s.lock == None;
  }

  /** Scans exclude each other exactly when no lock expires under its holder. */
  lemma OneScanIff(env: Env)
    ensures AlwaysOneScan(env) <==> !env.expires
  {
    if env.expires {
      var steps, s := TwoScans(env, 1);
      assert Active(s.scans[0]) && Active(s.scans[1]);
    } else {
      forall steps, s | IsRun(env, Init, steps, s) ensures OneScan(s) {
        WithoutExpiry(env, Init, steps, s);
      }
    }
  }

  /** Compare-and-delete spares the lock another pod took after an expiry exactly when lock values differ. */
  lemma ReleaseSparesOthersIff(env: Env)
    ensures AlwaysHeldIsLocked(env) <==> env.unique || !env.expires
  {
    if env.unique {
      forall steps, s | IsRun(env, Init, steps, s) ensures HeldIsLocked(s) {
        WithUniqueValues(env, Init, steps, s);
      }
    } else if env.expires {
      var steps, s := StolenRelease(env);
    } else {
      forall steps, s | IsRun(env, Init, steps, s) ensures HeldIsLocked(s) {
        WithoutExpiry(env, Init, steps, s);
      }
    }
  }
}
