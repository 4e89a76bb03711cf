/** The exact condition for at-most-once payment, for every environment. */
module CashbackExact {
  import opened Json
  import opened Failures
  import opened Cashback
  import opened CashbackSafety
  import opened CashbackService

  // ---------------------------------------------------------------- paid, and offered again

  /** From a PENDING row with a job, a worker gets the claim, whatever happened before. */
  lemma {:induction false} ClaimAgain(env: Env, s: State, w: nat, j: nat) returns (s': State, steps: seq<Step>)
    requires w !in s.workers && j in s.jobs && s.jobs[j].tx in s.rows && s.rows[s.jobs[j].tx].status == Pending
    ensures IsRun(env, s, steps, s')
    ensures s'.ledger == s.ledger && s'.jobs == s.jobs && s'.rows.Keys == s.rows.Keys &&
            s'.workers.Keys == s.workers.Keys + {w}
    ensures s'.retriers == s.retriers
    ensures s'.workers[w].phase == Claimed && s'.workers[w].alive && s'.workers[w].job == j &&
            s'.workers[w].tx == s.jobs[j].tx
    ensures s'.workers[w].final == (s.jobs[j].made + 1 >= ATTEMPTS) && s'.workers[w].payee == s.jobs[j].payee
    ensures s'.rows[s.jobs[j].tx].status == Processing && SameIdentity(s'.rows[s.jobs[j].tx], s.rows[s.jobs[j].tx])
    ensures SameIdentity(s'.workers[w].snap, s.rows[s.jobs[j].tx])
  {
    var mid := DoStartJob(s, w, j);
    OneStepRun(env, s, StartJob(w, j));
    s' := DoClaim(mid, w);
    OneStepRun(env, mid, Claim(w));
    RunConcat(env, s, [StartJob(w, j)], mid, [Claim(w)], s');
    steps := [StartJob(w, j)] + [Claim(w)];
  }

  /** And one more step gets the transfer accepted. */
  lemma {:induction false} PayAgain(env: Env, s: State, w: nat, j: nat, later: bool)
    returns (s': State, steps: seq<Step>)
    requires w !in s.workers && j in s.jobs && s.jobs[j].tx in s.rows && s.rows[s.jobs[j].tx].status == Pending
    requires later ==> env.async
    ensures IsRun(env, s, steps, s')
    ensures s'.ledger == s.ledger + [Payment(s.jobs[j].tx, s.jobs[j].payee, s.rows[s.jobs[j].tx].badge,
            s.rows[s.jobs[j].tx].amount)]
    ensures s'.jobs == s.jobs && s'.rows.Keys == s.rows.Keys && w in s'.workers &&
            s'.workers.Keys == s.workers.Keys + {w}
    ensures s'.retriers == s.retriers
    ensures s'.workers[w].phase == Accepted(later) && s'.workers[w].alive && s'.workers[w].job == j &&
            s'.workers[w].tx == s.jobs[j].tx
    ensures s'.workers[w].final == (s.jobs[j].made + 1 >= ATTEMPTS)
    ensures s'.rows[s.jobs[j].tx].status == Processing && SameIdentity(s'.rows[s.jobs[j].tx], s.rows[s.jobs[j].tx])
    ensures SameIdentity(s'.workers[w].snap, s.rows[s.jobs[j].tx])
  {
    var mid, a := ClaimAgain(env, s, w, j);
    s' := DoAccept(mid, w, later);
    OneStepRun(env, mid, ProviderAccepts(w, later));
    RunConcat(env, s, a, mid, [ProviderAccepts(w, later)], s');
    steps := a + [ProviderAccepts(w, later)];
  }

  lemma {:induction false} PaidTwice(ledger: seq<Payment>)
    requires |ledger| == 2 && ledger[0].payee == ledger[1].payee && ledger[0].badge == ledger[1].badge
    ensures !AtMostOnce(ledger)
  {
  }

  /** The provider answers PENDING, the row goes back to PENDING, the worker dies, its job stays queued. */
  lemma {:induction false} AnsweredLater(env: Env, s: State, w: nat) returns (s': State, steps: seq<Step>)
    requires Running(s, w) && s.workers[w].phase == Accepted(true) && s.workers[w].tx in s.rows
    ensures IsRun(env, s, steps, s')
    ensures s'.ledger == s.ledger && s'.jobs == s.jobs && s'.workers.Keys == s.workers.Keys &&
            s'.rows.Keys == s.rows.Keys
    ensures s'.rows[s.workers[w].tx].status == Pending && SameIdentity(s'.rows[s.workers[w].tx], s.workers[w].snap)
  {
    var mid := Apply(env, s, SaveResult(w));
    OneStepRun(env, s, SaveResult(w));
    s' := Apply(env, mid, Crash(w));
    OneStepRun(env, mid, Crash(w));
    steps := [SaveResult(w)] + [Crash(w)];
    RunConcat(env, s, [SaveResult(w)], mid, [Crash(w)], s');
  }

  /** What is left after a transfer went out and its row can be had again. */
  predicate Repayable(s: State, j: nat) {
    && |s.ledger| == 1 && s.ledger[0].payee == "u" && s.ledger[0].badge == "b" && 1 !in s.workers
    && j in s.jobs && s.jobs[j].payee == "u" && s.jobs[j].tx in s.rows
    && s.rows[s.jobs[j].tx].status == Pending && s.rows[s.jobs[j].tx].badge == "b"
  }

  /** The first transfer of the first badge is out, its result not saved. */
  lemma {:induction false} PaidOnce(env: Env) returns (s: State, steps: seq<Step>)
    ensures IsRun(env, Init, steps, s) && s.retriers == map[]
    ensures |s.ledger| == 1 && s.ledger[0].payee == "u" && s.ledger[0].badge == "b"
    ensures s.jobs == map[0 := Job(0, "u", 0)] && s.workers.Keys == {0}
    ensures Running(s, 0) && s.workers[0].phase == Accepted(env.async) && !s.workers[0].final && s.workers[0].tx == 0
    ensures 0 in s.rows && s.rows[0].status == Processing && s.rows[0].badge == "b" && s.rows[0].user == "u"
    ensures SameIdentity(s.workers[0].snap, s.rows[0])
  {
    var s0, a := FirstBadge(env);
    var b;
    s, b := PayAgain(env, s0, 0, 0, env.async);
    RunConcat(env, Init, a, s0, b, s);
    steps := a + b;
  }

  /** Saving the result throws: the row goes back to PENDING or is FAILED, as the error is classified. */
  lemma {:induction false} FailedAfterTransfer(env: Env, s: State, w: nat) returns (s': State, steps: seq<Step>)
    requires env.faults && Running(s, w) && s.workers[w].phase.Accepted? && !s.workers[w].final
    requires s.workers[w].tx in s.rows && s.rows[s.workers[w].tx].status == Processing
    requires SameIdentity(s.workers[w].snap, s.rows[s.workers[w].tx])
    ensures IsRun(env, s, steps, s')
    ensures s'.ledger == s.ledger && s'.jobs == s.jobs && s'.retriers == s.retriers
    ensures s'.workers.Keys == s.workers.Keys && s'.rows.Keys == s.rows.Keys
    ensures s'.rows[s.workers[w].tx].status == Pending || s'.rows[s.workers[w].tx].status == Failed
    ensures SameIdentity(s'.rows[s.workers[w].tx], s.rows[s.workers[w].tx])
  {
    var mid := DoFault(s, w, Caught(env.patterns, Other("timeout")));
    OneStepRun(env, s, FaultAfterTransfer(w, "timeout"));
    s' := DoCatch(env, mid, w, 0);
    OneStepRun(env, mid, Catch(w, 0));
    steps := [FaultAfterTransfer(w, "timeout")] + [Catch(w, 0)];
    RunConcat(env, s, [FaultAfterTransfer(w, "timeout")], mid, [Catch(w, 0)], s');
  }

  /** A FAILED row is had again by a manual retry. */
  lemma {:induction false} RetriedByHand(env: Env, s: State) returns (s': State, steps: seq<Step>)
    requires |s.ledger| == 1 && s.ledger[0].payee == "u" && s.ledger[0].badge == "b" && 1 !in s.workers
    requires Retryable(s, 0) && s.rows[0].user == "u" && s.rows[0].badge == "b"
    ensures IsRun(env, s, steps, s') && Repayable(s', s.nextJob)
  {
    steps := RetryRun(env, s, 0, true, 0);
    s' := AfterRetry(s, 0);
  }

  lemma {:induction false} FaultOffersAgain(env: Env) returns (s: State, j: nat, steps: seq<Step>)
    requires env.faults
    ensures IsRun(env, Init, steps, s) && Repayable(s, j)
  {
    var s1, a := PaidOnce(env);
    var s2, b := FailedAfterTransfer(env, s1, 0);
    RunConcat(env, Init, a, s1, b, s2);
    if s2.rows[0].status == Pending {
      s, j, steps := s2, 0, a + b;
    } else {
      var s3, c := RetriedByHand(env, s2);
      RunConcat(env, Init, a + b, s2, c, s3);
      s, j, steps := s3, s2.nextJob, a + b + c;
    }
  }

  lemma {:induction false} LateAnswerOffersAgain(env: Env) returns (s: State, steps: seq<Step>)
    requires env.async
    ensures IsRun(env, Init, steps, s) && Repayable(s, 0)
  {
    var s1, a := PaidOnce(env);
    var b;
    s, b := AnsweredLater(env, s1, 0);
    RunConcat(env, Init, a, s1, b, s);
    steps := a + b;
  }

  /** Whoever gets such a row pays again. */
  lemma {:induction false} PaysTwice(env: Env) returns (s: State, steps: seq<Step>)
    requires env.async || env.faults
    ensures IsRun(env, Init, steps, s) && !AtMostOnce(s.ledger)
  {
    var mid, j, a;
    if env.async {
      mid, a := LateAnswerOffersAgain(env);
      j := 0;
    } else {
      mid, j, a := FaultOffersAgain(env);
    }
    var b;
    s, b := PayAgain(env, mid, 1, j, env.async);
    RunConcat(env, Init, a, mid, b, s);
    steps := a + b;
    PaidTwice(s.ledger);
  }

  // ---------------------------------------------------------------- webhooks

  /** What the two webhooks save over the row they looked up: the fields named here, the rest as it was then. */
  lemma {:induction false} WebhooksSave(env: Env, s: State, h: nat, tx: nat, success: bool, reason: string)
    requires Enabled(env, s, ReceiveHook(h, tx, success, reason))
    ensures var mid := Apply(env, s, ReceiveHook(h, tx, success, reason));
            var f := Classify(env.patterns, Plain(reason));
            && Enabled(env, mid, SaveHook(h)) && mid.rows == s.rows
            && var row := Apply(env, mid, SaveHook(h)).rows[tx];
               if success then row == s.rows[tx].(status := Successful, code := None, retryable := None)
               else row == s.rows[tx].(status := Failed, code := f.code, retryable := f.retryable)
  {
  }

  /** markTransferFailed skips only FAILED rows, so it also turns a SUCCESSFUL one into FAILED. */
  lemma FailureWebhookUndoesSuccess(env: Env, s: State, tx: nat, reason: string) returns (steps: seq<Step>)
    requires env.webhooks && s.hooks == map[]
    requires tx in s.rows && s.rows[tx].status == Successful && s.rows[tx].reference.Some?
    ensures IsRun(env, s, steps, s.(rows := s.rows[tx := HookRow(Hook(tx, s.rows[tx], false,
            Caught(env.patterns, Other(reason))))]))
  {
    var mid := DoReceiveHook(s, 0, tx, false, Caught(env.patterns, Other(reason)));
    var s' := s.(rows := s.rows[tx := HookRow(Hook(tx, s.rows[tx], false, Caught(env.patterns, Other(reason))))]);
    OneStepRun(env, s, ReceiveHook(0, tx, false, reason));
    OneStepRun(env, mid, SaveHook(0));
    assert DoSaveHook(mid, 0) == s';
    RunConcat(env, s, [ReceiveHook(0, tx, false, reason)], mid, [SaveHook(0)], s');
    steps := [ReceiveHook(0, tx, false, reason)] + [SaveHook(0)];
  }

  /** Paid, then reported failed by a webhook: the row is FAILED although the transfer went out. */
  lemma PaidThenReportedFailed(env: Env, s: State) returns (s': State, steps: seq<Step>)
    requires env.webhooks && Payable(s, 0) && s.jobs == map[0 := Job(0, "u", 0)] && s.hooks == map[] && s.ledger == []
    ensures IsRun(env, s, steps, s')
    ensures s'.ledger == [Payment(0, "u", s.rows[0].badge, s.rows[0].amount)]
    ensures 0 in s'.rows && s'.rows[0].status == Failed && s'.rows[0].user == s.rows[0].user &&
            s'.rows[0].badge == s.rows[0].badge
    ensures s'.workers == map[] && s'.retriers == s.retriers
  {
    var f := Caught(env.patterns, Other("reversed"));
    var s1 := AfterAccept(s, 0, false);
    var a := CallRun(env, s, 0, Accepts(false), 0);
    var b := FailureWebhookUndoesSuccess(env, s1, 0, "reversed");
    s' := s1.(rows := s1.rows[0 := HookRow(Hook(0, s1.rows[0], false, f))]);
    RunConcat(env, s, a, s1, b, s');
    steps := a + b;
  }

  /** A retry of a FAILED row whose transfer went out pays again. */
  lemma RetriedAndPaidAgain(env: Env, s: State) returns (s': State, steps: seq<Step>)
    requires Retryable(s, 0) && s.workers == map[] && |s.ledger| == 1
    requires s.ledger[0].payee == s.rows[0].user && s.ledger[0].badge == s.rows[0].badge
    ensures IsRun(env, s, steps, s') && !AtMostOnce(s'.ledger)
  {
    var s1 := AfterRetry(s, 0);
    var a := RetryRun(env, s, 0, true, 0);
    var b := CallRun(env, s1, s.nextJob, Accepts(false), 0);
    s' := AfterAccept(s1, s.nextJob, false);
    RunConcat(env, s, a, s1, b, s');
    steps := a + b;
    PaidTwice(s'.ledger);
  }

  lemma PaysTwiceByWebhook(env: Env) returns (s: State, steps: seq<Step>)
    requires env.webhooks
    ensures IsRun(env, Init, steps, s) && !AtMostOnce(s.ledger)
  {
    var s0, a := FirstBadge(env);
    var s1, b := PaidThenReportedFailed(env, s0);
    var c;
    s, c := RetriedAndPaidAgain(env, s1);
    RunConcat(env, Init, a, s0, b, s1);
    RunConcat(env, Init, a + b, s1, c, s);
    steps := a + b + c;
  }

  // ---------------------------------------------------------------- the condition

  ghost predicate NeverPaysTwice(env: Env) {
    forall steps, s | IsRun(env, Init, steps, s) :: AtMostOnce(s.ledger)
  }

  /**
   * No run pays a user twice for a badge if and only if the provider never answers PENDING, nothing fails
   * in processPayment once the transfer is out, and no webhook arrives.
   */
  lemma {:induction false} AtMostOnceIff(env: Env)
    ensures NeverPaysTwice(env) <==> Synchronous(env)
  {
    if env.webhooks {
      var s, steps := PaysTwiceByWebhook(env);
    } else if env.async || env.faults {
      var s, steps := PaysTwice(env);
    } else {
      forall steps, s | IsRun(env, Init, steps, s) ensures AtMostOnce(s.ledger) {
        PaymentSafety(env, steps, s);
      }
    }
  }
}
