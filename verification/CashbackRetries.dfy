/** What FAILED and SUCCESSFUL rows show over all runs, with the exact conditions. */
module CashbackRetries {
  import opened Json
  import opened Failures
  import opened Cashback
  import opened CashbackService
  import opened CashbackRows

  lemma ReachedRows(env: Env, steps: seq<Step>, s: State)
    requires IsRun(env, Init, steps, s)
    ensures RowsShow(env, s.rows)
  {
    RunPreservesInv(env, Init, steps, s);
  }

  // ---------------------------------------------------------------- failed rows are classified

  /**
   * In every interleaving of workers, webhooks, manual retries, scans and faults, with any provider: code and
   * flag of a row come from the classifier and agree with the public table, so no scan selects a hard failure;
   * and a FAILED row has them unless Paystack named an inherited key.
   */
  lemma FailedRowsAreClassified(env: Env, steps: seq<Step>, s: State)
    requires IsRun(env, Init, steps, s)
    ensures forall tx | tx in s.rows :: Classified(env, s.rows[tx])
    ensures forall tx, now | tx in s.rows && Eligible(s.rows[tx], now, env) ::
              s.rows[tx].code.Some? && WorthRetrying(s.rows[tx].code.value)
  {
    ReachedRows(env, steps, s);
    assert forall tx | tx in s.rows :: Classified(env, s.rows[tx]);
  }

  predicate Coded(row: Tx) {
    row.status == Failed ==> row.code.Some? && row.retryable == Some(WorthRetrying(row.code.value))
  }

  ghost predicate AlwaysCoded(env: Env) {
    forall steps, s | IsRun(env, Init, steps, s) :: forall tx | tx in s.rows :: Coded(s.rows[tx])
  }

  const InheritedReply := Paystack(Body(400, false, false, Some("constructor"), None, false))

  lemma EmptyFailureStays(env: Env, s: State, f: Failure)
    requires Payable(s, 0) && s.jobs[0].tx == 0 && s.rows[0].code == None && f.code == None && f.retryable == None
    ensures var s' := AfterThrow(env, s, 0, f, 0); 0 in s'.rows && !Coded(s'.rows[0])
  {
  }

  /** A first attempt refused with error code "constructor" leaves a FAILED row with neither code nor flag. */
  lemma FailedWithoutCode(env: Env) returns (s: State, steps: seq<Step>)
    requires env.inheritedKeys
    ensures IsRun(env, Init, steps, s) && 0 in s.rows && !Coded(s.rows[0])
  {
    InheritedKeyHasNoCode(env.patterns);
    var s0, a := FirstBadge(env);
    var b := CallRun(env, s0, 0, Answer.Throws(InheritedReply), 0);
    s := AfterThrow(env, s0, 0, Caught(env.patterns, InheritedReply), 0);
    EmptyFailureStays(env, s0, Caught(env.patterns, InheritedReply));
    RunConcat(env, Init, a, s0, b, s);
    steps := a + b;
  }

  /** Every FAILED row is classified, in every run, exactly when the error codes looked up are not inherited keys. */
  lemma AlwaysCodedIff(env: Env)
    ensures AlwaysCoded(env) <==> !env.inheritedKeys
  {
    if env.inheritedKeys {
      var s, steps := FailedWithoutCode(env);
    } else {
      forall steps, s | IsRun(env, Init, steps, s) ensures forall tx | tx in s.rows :: Coded(s.rows[tx]) {
        FailedRowsAreClassified(env, steps, s);
        assert forall tx | tx in s.rows :: Classified(env, s.rows[tx]);
      }
    }
  }

  // ---------------------------------------------------------------- what a SUCCESSFUL row shows

  /** The API document: a SUCCESSFUL row has no code, no flag, no next retry and a retry count of 0. */
  predicate Documented(row: Tx) {
    row.code.None? && row.retryable.None? && row.nextRetryAt.None? && row.retryCount == 0
  }

  /** In every run of every environment, exactly when a SUCCESSFUL row looks as documented. */
  lemma DocumentedIff(env: Env, steps: seq<Step>, s: State, tx: nat)
    requires IsRun(env, Init, steps, s) && tx in s.rows && s.rows[tx].status == Successful
    ensures Documented(s.rows[tx]) <==> s.rows[tx].retryCount == 0 && s.rows[tx].nextRetryAt == None
    ensures !env.webhooks ==> (Documented(s.rows[tx]) <==> s.rows[tx].retryCount == 0)
  {
    ReachedRows(env, steps, s);
    assert SuccessShows(env, s.rows[tx]);
  }

  ghost predicate CountDecides(env: Env) {
    forall steps, s | IsRun(env, Init, steps, s) ::
      forall tx | tx in s.rows && s.rows[tx].status == Successful :: Documented(s.rows[tx]) <==>
        s.rows[tx].retryCount == 0
  }

  lemma FailsThenSucceeds(env: Env, s: State) returns (s': State, steps: seq<Step>)
    requires Payable(s, 0) && s.jobs == map[0 := Job(0, "u", 0)] && s.retriers == map[] && s.nextJob == 1
    ensures IsRun(env, s, steps, s') && 0 in s'.rows && s'.rows[0].status == Successful && s'.rows[0].retryCount >= 1
  {
    var hard := NoBankDetails("");
    var s1 := AfterThrow(env, s, 0, Caught(env.patterns, hard), 0);
    var s2 := AfterRetry(s1, 0);
    s' := AfterAccept(s2, 1, false);
    var a := CallRun(env, s, 0, Answer.Throws(hard), 0);
    var b := RetryRun(env, s1, 0, true, 0);
    var c := CallRun(env, s2, 1, Accepts(false), 0);
    RunConcat(env, s, a, s1, b, s2);
    RunConcat(env, s, a + b, s2, c, s');
    steps := a + b + c;
  }

  /** A hard failure, a manual retry and a success leave a SUCCESSFUL row that is not as documented. */
  lemma SuccessKeepsRetryCount(env: Env) returns (s: State, steps: seq<Step>)
    ensures IsRun(env, Init, steps, s) && 0 in s.rows && s.rows[0].status == Successful && !Documented(s.rows[0])
  {
    var s0, a := FirstBadge(env);
    var b;
    s, b := FailsThenSucceeds(env, s0);
    RunConcat(env, Init, a, s0, b, s);
    steps := a + b;
  }

  // ---------------------------------------------------------------- a webhook over a FAILED row

  const SoftCause := Paystack(Unreachable(""))

  /** One job, for row 0. */
  predicate OneJob(s: State, made: nat) {
    s.workers == map[] && s.retriers == map[] && s.hooks == map[] && s.jobs == map[0 := Job(0, "u", made)] &&
      0 in s.rows
  }

  lemma SoftCall(env: Env, s: State, made: nat) returns (s': State, steps: seq<Step>)
    requires OneJob(s, made) && s.rows[0].status == Pending
    ensures IsRun(env, s, steps, s') && 0 in s'.rows && s'.rows[0].reference.Some?
    ensures made + 1 < ATTEMPTS ==> OneJob(s', made + 1) && s'.rows[0].status == Pending
    ensures made + 1 >= ATTEMPTS ==>
              s'.retriers == map[] && s'.hooks == map[] && s'.rows[0].status == Failed && s'.rows[0].nextRetryAt.Some?
  {
    FailuresAreConsistentIff(env.patterns, SoftCause);
    s' := AfterThrow(env, s, 0, Caught(env.patterns, SoftCause), 0);
    steps := CallRun(env, s, 0, Answer.Throws(SoftCause), 0);
  }

  /** Three soft failures of one job. */
  lemma FailsSoftly(env: Env) returns (s: State, steps: seq<Step>)
    ensures IsRun(env, Init, steps, s) && s.retriers == map[] && s.hooks == map[]
    ensures 0 in s.rows && s.rows[0].status == Failed && s.rows[0].nextRetryAt.Some? && s.rows[0].reference.Some?
  {
    var s0, a := FirstBadge(env);
    var s1, b := SoftCall(env, s0, 0);
    var s2, c := SoftCall(env, s1, 1);
    var d;
    s, d := SoftCall(env, s2, 2);
    RunConcat(env, Init, a, s0, b, s1);
    RunConcat(env, Init, a + b, s1, c, s2);
    RunConcat(env, Init, a + b + c, s2, d, s);
    steps := a + b + c + d;
  }

  /** New bank details reset the count; nothing has cleared the time of the next retry yet. */
  lemma CountReset(env: Env, s: State) returns (s': State, steps: seq<Step>)
    requires s.retriers == map[] && 0 in s.rows && s.rows[0].status == Failed
    ensures IsRun(env, s, steps, s') && s'.hooks == s.hooks && s'.rows == s.rows[0 := s.rows[0].(retryCount := 0)]
  {
    var mid := DoSelect(s, 0, 0, true);
    OneStepRun(env, s, SelectFailed(0, 0, true, 0));
    s' := DoReset(mid, 0);
    OneStepRun(env, mid, ResetRetryCount(0));
    RunConcat(env, s, [SelectFailed(0, 0, true, 0)], mid, [ResetRetryCount(0)], s');
    steps := [SelectFailed(0, 0, true, 0)] + [ResetRetryCount(0)];
  }

  lemma ReportedSuccessful(env: Env, s: State) returns (s': State, steps: seq<Step>)
    requires env.webhooks && s.hooks == map[] && 0 in s.rows && s.rows[0].status == Failed && s.rows[0].reference.Some?
    ensures IsRun(env, s, steps, s') && 0 in s'.rows && s'.rows[0].status == Successful
    ensures s'.rows[0].retryCount == s.rows[0].retryCount && s'.rows[0].nextRetryAt == s.rows[0].nextRetryAt
  {
    var mid := DoReceiveHook(s, 0, 0, true, Caught(env.patterns, Other("")));
    OneStepRun(env, s, ReceiveHook(0, 0, true, ""));
    s' := DoSaveHook(mid, 0);
    OneStepRun(env, mid, SaveHook(0));
    RunConcat(env, s, [ReceiveHook(0, 0, true, "")], mid, [SaveHook(0)], s');
    steps := [ReceiveHook(0, 0, true, "")] + [SaveHook(0)];
  }

  /** A success webhook over a FAILED row whose count was reset: count 0, but still a next retry. */
  lemma WebhookKeepsNextRetry(env: Env) returns (s: State, steps: seq<Step>)
    requires env.webhooks
    ensures IsRun(env, Init, steps, s) && 0 in s.rows && s.rows[0].status == Successful
    ensures s.rows[0].retryCount == 0 && !Documented(s.rows[0])
  {
    var s1, a := FailsSoftly(env);
    var s2, b := CountReset(env, s1);
    var c;
    s, c := ReportedSuccessful(env, s2);
    RunConcat(env, Init, a, s1, b, s2);
    RunConcat(env, Init, a + b, s2, c, s);
    steps := a + b + c;
  }

  /** The retry count alone decides whether a SUCCESSFUL row is as documented exactly when there are no webhooks. */
  lemma CountDecidesIff(env: Env)
    ensures CountDecides(env) <==> !env.webhooks
  {
    if env.webhooks {
      var s, steps := WebhookKeepsNextRetry(env);
    } else {
      forall steps, s | IsRun(env, Init, steps, s)
        ensures forall tx | tx in s.rows && s.rows[tx].status == Successful ::
                  Documented(s.rows[tx]) <==> s.rows[tx].retryCount == 0
      {
        forall tx | tx in s.rows && s.rows[tx].status == Successful
          ensures Documented(s.rows[tx]) <==> s.rows[tx].retryCount == 0
        {
          DocumentedIff(env, steps, s, tx);
        }
      }
    }
  }
}
