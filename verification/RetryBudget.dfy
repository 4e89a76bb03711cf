/** How many provider calls one badge event can cause on one instance, rollbacks and crashes included. */
module RetryBudget {
  import opened Json
  import opened Failures
  import opened Cashback
  import opened RetryTokens

  /**
   * A single instance with a synchronous provider: one badge event per user and badge, whose handler may roll
   * back and be redelivered; a job runs on one live worker at a time; the scanner is the only source of retries
   * and handles a row once per scan. tailCrashes: the process may die between the catch block of an attempt
   * and the queue's bookkeeping for it; it may die anywhere else in any case.
   */
  ghost predicate Disciplined(tailCrashes: bool, s: State, step: Step) {
    match step
    case HandleBadgeRollsBack(e) => !HasRow(s.rows, e.user, e.badge)
    case StartJob(w, j) => forall v | v in s.workers && s.workers[v].alive :: s.workers[v].job != j
    case Crash(w) => tailCrashes || (w in s.workers && !s.workers[w].phase.Tail?)
    case _ => Orderly(s, step)
  }

  ghost predicate IsDisciplinedRun(tailCrashes: bool, env: Env, s: State, steps: seq<Step>, s': State)
    decreases steps
  {
    if steps == [] then s' == s
    else
      && Enabled(env, s, steps[0]) && Disciplined(tailCrashes, s, steps[0])
      && IsDisciplinedRun(tailCrashes, env, Apply(env, s, steps[0]), steps[1..], s')
  }

  // ---------------------------------------------------------------- the live part of a state

  /** The bookkeeping: tokens, workers that died, and jobs that can no longer lead to a call. */
  datatype Books = Books(tok: map<nat, Token>, gone: set<nat>, spent: set<nat>)

  /** The state without its dead workers and spent jobs. */
  function Live(s: State, b: Books): (r: State) {
    s.(workers := s.workers - b.gone, jobs := s.jobs - b.spent)
  }

  /** Such a job names a transaction that never became a row, or a row that nobody moves any more. */
  predicate SpentJob(s: State, b: Books, j: nat) {
    && j < s.nextJob
    && (j in s.jobs ==> s.jobs[j].tx < s.nextTx && (s.jobs[j].tx in s.rows ==> Idle(s, b.tok, s.jobs[j].tx)))
  }

  predicate BooksOk(s: State, b: Books) {
    && (forall w | w in s.workers :: s.workers[w].alive <==> w !in b.gone)
    && (forall w | w in b.gone :: w in s.workers)
    && (forall w | w in s.workers && s.workers[w].alive :: s.workers[w].job !in b.spent)
    && (forall j | j in b.spent :: SpentJob(s, b, j))
  }

  /** A worker that has saved a success has nothing left to move. */
  predicate SavedOk(s: State, b: Books) {
    forall w | w in s.workers && s.workers[w].alive && s.workers[w].phase == Saved :: Idle(s, b.tok, s.workers[w].tx)
  }

  predicate Inv(env: Env, s: State, b: Books) {
    RetryTokens.Inv(env, Live(s, b), b.tok) && BooksOk(s, b) && SavedOk(s, b)
  }

  /** Later states keep spent jobs spent. */
  lemma SpentStays(s: State, s': State, b: Books, tok': map<nat, Token>)
    requires forall j | j in b.spent :: SpentJob(s, b, j)
    requires Progress(s, s', b.tok, tok') && s.nextJob <= s'.nextJob && s.nextTx <= s'.nextTx
    requires forall tx | tx in s'.rows && tx !in s.rows :: tx >= s.nextTx
    requires forall j | j in b.spent && j in s'.jobs :: j in s.jobs && s'.jobs[j].tx == s.jobs[j].tx
    ensures forall j | j in b.spent :: SpentJob(s', b.(tok := tok'), j)
  {
    forall j | j in b.spent ensures SpentJob(s', b.(tok := tok'), j) {
      assert SpentJob(s, b, j);
    }
  }

  // ---------------------------------------------------------------- steps of the live part

  lemma PutMinus<V>(m: map<nat, V>, k: nat, v: V, away: set<nat>)
    requires k !in away
    ensures m[k := v] - away == (m - away)[k := v]
  {
  }

  lemma TakeMinus<V>(m: map<nat, V>, k: nat, away: set<nat>)
    ensures (m - {k}) - away == (m - away) - {k}
  {
  }

  lemma LiveQueue(s: State, b: Books, tx: nat, payee: string)
    requires s.nextJob !in b.spent
    ensures Live(QueueJob(s, tx, payee), b) == QueueJob(Live(s, b), tx, payee)
  {
    PutMinus(s.jobs, s.nextJob, Job(tx, payee, 0), b.spent);
  }

  lemma LiveKnownBadge(env: Env, s: State, b: Books, e: BadgeEvent)
    requires e.id in s.processed
    ensures DoHandleBadge(env, s, e) == s && DoHandleBadge(env, Live(s, b), e) == Live(s, b)
  {
  }

  lemma LiveNewBadge(env: Env, s: State, b: Books, e: BadgeEvent)
    requires e.id !in s.processed && !HasRow(s.rows, e.user, e.badge) && s.nextJob !in b.spent
    ensures Live(DoHandleBadge(env, s, e), b) == DoHandleBadge(env, Live(s, b), e)
  {
    var mid := s.(processed := s.processed[e.id := e], rows := s.rows[s.nextTx := NewTx(e, env)],
      nextTx := s.nextTx + 1);
    LiveQueue(mid, b, s.nextTx, e.user);
  }

  lemma LiveAttemptFailed(jobs: map<nat, Job>, j: nat, away: set<nat>)
    requires j !in away
    ensures JobAttemptFailed(jobs, j) - away == JobAttemptFailed(jobs - away, j)
  {
    TakeMinus(jobs, j, away);
    if j in jobs {
      PutMinus(jobs, j, jobs[j].(made := jobs[j].made + 1), away);
    }
  }

  lemma LiveStart(s: State, b: Books, w: nat, j: nat)
    requires j in s.jobs && j !in b.spent && w !in b.gone
    ensures j in Live(s, b).jobs && Live(DoStartJob(s, w, j), b) == DoStartJob(Live(s, b), w, j)
  {
    var job := s.jobs[j];
    LiveAttemptFailed(s.jobs, j, b.spent);
    TakeMinus(s.jobs, j, b.spent);
    if job.tx in s.rows {
      PutMinus(s.workers, w, Worker(j, job.tx, job.made + 1 >= ATTEMPTS, job.payee, s.rows[job.tx], Loaded, true),
        b.gone);
    }
  }

  lemma LiveClaim(s: State, b: Books, w: nat)
    requires w in s.workers && w !in b.gone && s.workers[w].tx in s.rows
    ensures Live(DoClaim(s, w), b) == DoClaim(Live(s, b), w)
  {
    var wk := s.workers[w];
    TakeMinus(s.workers, w, b.gone);
    TakeMinus(s.jobs, wk.job, b.spent);
    PutMinus(s.workers, w, wk.(phase := Claimed,
      snap := wk.snap.(status := Processing, reference := Some(s.nextRef))), b.gone);
  }

  lemma LiveCall(s: State, b: Books, w: nat, f: Failure)
    requires w in s.workers && w !in b.gone
    ensures Live(DoAccept(s, w, false), b) == DoAccept(Live(s, b), w, false)
    ensures Live(DoThrow(s, w, f), b) == DoThrow(Live(s, b), w, f)
  {
    PutMinus(s.workers, w, s.workers[w].(phase := Accepted(false)), b.gone);
    PutMinus(s.workers, w, s.workers[w].(phase := Threw(f)), b.gone);
  }

  lemma LiveSave(s: State, b: Books, w: nat)
    requires w in s.workers && w !in b.gone && s.workers[w].phase.Accepted?
    ensures Live(DoSaveResult(s, w), b) == DoSaveResult(Live(s, b), w)
  {
    PutMinus(s.workers, w, s.workers[w].(phase := Saved), b.gone);
  }

  lemma LiveCatch(env: Env, s: State, b: Books, w: nat, now: int)
    requires w in s.workers && w !in b.gone && s.workers[w].phase.Threw? && s.workers[w].tx in s.rows
    ensures Live(DoCatch(env, s, w, now), b) == DoCatch(env, Live(s, b), w, now)
  {
    PutMinus(s.workers, w, s.workers[w].(phase := Tail(Soft(s.workers[w].phase.failure) && !s.workers[w].final)),
      b.gone);
  }

  lemma LiveFinish(s: State, b: Books, w: nat)
    requires w in s.workers && w !in b.gone && s.workers[w].job !in b.spent
    ensures Live(DoFinishJob(s, w), b) == DoFinishJob(Live(s, b), w)
  {
    TakeMinus(s.workers, w, b.gone);
    TakeMinus(s.jobs, s.workers[w].job, b.spent);
    LiveAttemptFailed(s.jobs, s.workers[w].job, b.spent);
  }

  lemma LiveRecheck(s: State, b: Books, r: nat)
    requires r in s.retriers && s.retriers[r].tx in s.rows
    ensures Live(DoRecheck(s, r), b) == DoRecheck(Live(s, b), r)
  {
    if s.rows[s.retriers[r].tx].status == Failed {
      assert DoRecheck(s, r) == s.(retriers := s.retriers[r := Rechecked(s.retriers[r].tx, s.retriers[r].payee)]);
    } else {
      assert DoRecheck(s, r) == s.(retriers := s.retriers - {r});
    }
  }

  lemma LiveRequeue(s: State, b: Books, r: nat)
    requires r in s.retriers && s.retriers[r].tx in s.rows
    ensures Live(DoRequeue(s, r), b) == DoRequeue(Live(s, b), r)
  {
  }

  lemma LiveEnqueue(s: State, b: Books, r: nat)
    requires r in s.retriers && s.nextJob !in b.spent
    ensures Live(DoEnqueue(s, r), b) == DoEnqueue(Live(s, b), r)
  {
    LiveQueue(s.(retriers := s.retriers - {r}), b, s.retriers[r].tx, s.retriers[r].payee);
  }

  /** Steps the live part takes itself: no crash, no rollback, no start of a spent job. */
  ghost predicate Ordinary(s: State, b: Books, step: Step) {
    !step.Crash? && !step.HandleBadgeRollsBack? && (step.StartJob? ==> step.j !in b.spent)
  }

  lemma LiveWorkerStep(env: Env, s: State, b: Books, step: Step)
    requires BooksOk(s, b) && Enabled(env, s, step) && Disciplined(false, s, step)
    requires step.Claim? || step.ProviderAccepts? || step.ProviderThrows? || step.SaveResult? || step.Catch? ||
             step.FinishJob?
    ensures Enabled(env, Live(s, b), step) && Live(Apply(env, s, step), b) == Apply(env, Live(s, b), step)
  {
    match step
    case Claim(w) => LiveClaim(s, b, w);
    case ProviderAccepts(w, later) => LiveCall(s, b, w, Caught(env.patterns, Other("")));
    case ProviderThrows(w, cause) => LiveCall(s, b, w, Caught(env.patterns, cause));
    case SaveResult(w) => LiveSave(s, b, w);
    case Catch(w, now) => LiveCatch(env, s, b, w, now);
    case FinishJob(w) => LiveFinish(s, b, w);
  }

  lemma LiveStep(env: Env, s: State, b: Books, step: Step)
    requires BooksOk(s, b) && Enabled(env, s, step) && Disciplined(false, s, step) && Ordinary(s, b, step) &&
             s.hooks == map[]
    ensures Enabled(env, Live(s, b), step) && Orderly(Live(s, b), step)
    ensures Live(Apply(env, s, step), b) == Apply(env, Live(s, b), step)
  {
    assert forall j | j in b.spent :: SpentJob(s, b, j);
    match step
    case HandleBadge(e) =>
      if e.id in s.processed {
        LiveKnownBadge(env, s, b, e);
      } else {
        LiveNewBadge(env, s, b, e);
      }
    case StartJob(w, j) => LiveStart(s, b, w, j);
    case SelectFailed(r, tx, manual, now) =>
    case Recheck(r) => LiveRecheck(s, b, r);
    case Requeue(r) => LiveRequeue(s, b, r);
    case Enqueue(r) => LiveEnqueue(s, b, r);
    case _ => LiveWorkerStep(env, s, b, step);
  }

  /** A worker is in its last phase because it was, or because it has just saved a success. */
  predicate SavedFrom(s: State, s': State, v: nat)
    requires v in s'.workers
  {
    s'.workers[v].phase == Saved ==>
      || (v in s.workers && s.workers[v].phase == Saved && s.workers[v].tx == s'.workers[v].tx &&
         s.workers[v].alive == s'.workers[v].alive)
      || (s'.workers[v].tx in s'.rows && s'.rows[s'.workers[v].tx].status == Successful)
  }

  /** What a step does to dead workers and spent jobs: nothing. */
  predicate Tidy(s: State, s': State, b: Books) {
    && (forall w | w in s'.workers :: s'.workers[w].alive <==> w !in b.gone)
    && (forall w | w in b.gone :: w in s'.workers)
    && (forall w | w in s'.workers && s'.workers[w].alive :: s'.workers[w].job !in b.spent)
    && (forall w | w in s'.workers :: SavedFrom(s, s', w))
    && s.nextJob <= s'.nextJob && s.nextTx <= s'.nextTx
    && (forall tx | tx in s'.rows && tx !in s.rows :: tx >= s.nextTx)
    && (forall j | j in b.spent && j in s'.jobs :: j in s.jobs && s'.jobs[j].tx == s.jobs[j].tx)
  }

  lemma TidyBadge(env: Env, s: State, b: Books, e: BadgeEvent)
    requires BooksOk(s, b) && (e.id in s.processed || !HasRow(s.rows, e.user, e.badge))
    ensures Tidy(s, DoHandleBadge(env, s, e), b)
  {
    assert forall j | j in b.spent :: SpentJob(s, b, j);
    if e.id in s.processed {
      assert DoHandleBadge(env, s, e) == s;
    } else {
      NewBadgeState(env, s, e);
    }
  }

  lemma TidyPut(s: State, s': State, b: Books, w: nat, wk: Worker)
    requires BooksOk(s, b) && w !in b.gone && wk.alive && wk.job !in b.spent
    requires s'.workers == s.workers[w := wk] && s'.jobs == s.jobs && s'.rows.Keys == s.rows.Keys
    requires s'.nextJob == s.nextJob && s'.nextTx == s.nextTx && SavedFrom(s, s', w)
    ensures Tidy(s, s', b)
  {
  }

  lemma TidyTake(s: State, s': State, b: Books, w: nat)
    requires BooksOk(s, b) && w !in b.gone && s'.workers == s.workers - {w} && s'.rows.Keys == s.rows.Keys
    requires forall j | j in s'.jobs :: j in s.jobs && s'.jobs[j].tx == s.jobs[j].tx
    requires s'.nextJob == s.nextJob && s'.nextTx == s.nextTx
    ensures Tidy(s, s', b)
  {
  }

  lemma AttemptFailedKeepsTx(jobs: map<nat, Job>, j: nat)
    ensures forall i | i in JobAttemptFailed(jobs, j) :: i in jobs && JobAttemptFailed(jobs, j)[i].tx == jobs[i].tx
  {
  }

  lemma TidyStart(s: State, b: Books, w: nat, j: nat)
    requires BooksOk(s, b) && w !in s.workers && j in s.jobs && j !in b.spent
    ensures Tidy(s, DoStartJob(s, w, j), b)
  {
    var job := s.jobs[j];
    if job.tx in s.rows && s.rows[job.tx].status == Pending {
      TidyPut(s, DoStartJob(s, w, j), b, w, DoStartJob(s, w, j).workers[w]);
    } else {
      assert s.workers - {w} == s.workers;
      AttemptFailedKeepsTx(s.jobs, j);
      TidyTake(s, DoStartJob(s, w, j), b, w);
    }
  }

  lemma TidyClaim(s: State, b: Books, w: nat)
    requires BooksOk(s, b) && w in s.workers && s.workers[w].alive && s.workers[w].tx in s.rows
    ensures Tidy(s, DoClaim(s, w), b)
  {
    if s.rows[s.workers[w].tx].status == Pending {
      TidyPut(s, DoClaim(s, w), b, w, DoClaim(s, w).workers[w]);
    } else {
      TidyTake(s, DoClaim(s, w), b, w);
    }
  }

  lemma TidyFinish(s: State, b: Books, w: nat)
    requires BooksOk(s, b) && w in s.workers && s.workers[w].alive
    ensures Tidy(s, DoFinishJob(s, w), b)
  {
    AttemptFailedKeepsTx(s.jobs, s.workers[w].job);
    TidyTake(s, DoFinishJob(s, w), b, w);
  }

  lemma TidyCall(env: Env, s: State, b: Books, step: Step)
    requires BooksOk(s, b) && Enabled(env, s, step)
    requires step.ProviderAccepts? || step.ProviderThrows? || step.SaveResult? || step.Catch?
    requires step.SaveResult? ==> s.workers[step.w].phase == Accepted(false)
    ensures Tidy(s, Apply(env, s, step), b)
  {
    TidyPut(s, Apply(env, s, step), b, step.w, Apply(env, s, step).workers[step.w]);
  }

  lemma TidyRetrier(env: Env, s: State, b: Books, step: Step)
    requires BooksOk(s, b) && Enabled(env, s, step) && (step.SelectFailed? || step.Recheck? || step.Requeue?)
    ensures Tidy(s, Apply(env, s, step), b)
  {
    assert Apply(env, s, step).workers == s.workers && Apply(env, s, step).jobs == s.jobs;
  }

  lemma TidyEnqueue(s: State, b: Books, r: nat)
    requires BooksOk(s, b) && r in s.retriers
    ensures Tidy(s, DoEnqueue(s, r), b)
  {
    assert forall j | j in b.spent :: SpentJob(s, b, j);
  }

  lemma TidyStep(env: Env, s: State, b: Books, step: Step)
    requires BooksOk(s, b) && Enabled(env, s, step) && Disciplined(false, s, step) && Ordinary(s, b, step) &&
             s.hooks == map[]
    requires step.SaveResult? ==> s.workers[step.w].phase == Accepted(false)
    ensures Tidy(s, Apply(env, s, step), b)
  {
    match step
    case HandleBadge(e) => TidyBadge(env, s, b, e);
    case StartJob(w, j) => TidyStart(s, b, w, j);
    case Claim(w) => TidyClaim(s, b, w);
    case FinishJob(w) => TidyFinish(s, b, w);
    case SelectFailed(r, tx, manual, now) => TidyRetrier(env, s, b, step);
    case Recheck(r) => TidyRetrier(env, s, b, step);
    case Requeue(r) => TidyRetrier(env, s, b, step);
    case Enqueue(r) => TidyEnqueue(s, b, r);
    case _ => TidyCall(env, s, b, step);
  }

  lemma SuccessfulIsIdle(env: Env, s: State, b: Books, tx: nat)
    requires RetryTokens.Inv(env, Live(s, b), b.tok) && tx in s.rows && s.rows[tx].status == Successful
    ensures Idle(s, b.tok, tx)
  {
    assert TokenOk(env, Live(s, b), tx, b.tok[tx]);
  }

  lemma SavedStays(env: Env, s: State, b: Books, s': State, b': Books)
    requires SavedOk(s, b) && Tidy(s, s', b) && Progress(s, s', b.tok, b'.tok) &&
             RetryTokens.Inv(env, Live(s', b'), b'.tok)
    ensures SavedOk(s', b')
  {
    forall w | w in s'.workers && s'.workers[w].alive && s'.workers[w].phase == Saved
      ensures Idle(s', b'.tok, s'.workers[w].tx)
    {
      assert SavedFrom(s, s', w);
      var tx := s'.workers[w].tx;
      if tx in s'.rows && s'.rows[tx].status == Successful {
        SuccessfulIsIdle(env, s', b', tx);
      } else {
        assert Idle(s, b.tok, tx);
      }
    }
  }

  lemma AnswersAreFinal(env: Env, s: State, b: Books, w: nat)
    requires Inv(env, s, b) && w in s.workers && s.workers[w].alive && s.workers[w].phase.Accepted?
    ensures s.workers[w].phase == Accepted(false)
  {
    HeldToken(env, Live(s, b), b.tok, w);
  }

  /** Progress is about rows and tokens only. */
  lemma ProgressOfRows(s: State, s': State, r: State, r': State, tok: map<nat, Token>, tok': map<nat, Token>)
    requires Progress(s, s', tok, tok') && r.rows == s.rows && r'.rows == s'.rows
    ensures Progress(r, r', tok, tok')
  {
  }

  lemma BooksStay(env: Env, s: State, b: Books, s': State, tok': map<nat, Token>)
    requires BooksOk(s, b) && SavedOk(s, b) && Tidy(s, s', b) && Progress(Live(s, b), Live(s', b), b.tok, tok')
    requires RetryTokens.Inv(env, Live(s', b), tok')
    ensures BooksOk(s', b.(tok := tok')) && SavedOk(s', b.(tok := tok')) && Progress(s, s', b.tok, tok')
  {
    assert Live(s', b.(tok := tok')) == Live(s', b);
    ProgressOfRows(Live(s, b), Live(s', b), s, s', b.tok, tok');
    SpentStays(s, s', b, tok');
    SavedStays(env, s, b, s', b.(tok := tok'));
  }

  lemma OrdinaryStep(env: Env, s: State, b: Books, step: Step) returns (b': Books)
    requires Inv(env, s, b) && Enabled(env, s, step) && Disciplined(false, s, step) && Ordinary(s, b, step)
    ensures Inv(env, Apply(env, s, step), b') && Progress(s, Apply(env, s, step), b.tok, b'.tok)
  {
    var s' := Apply(env, s, step);
    if step.SaveResult? {
      AnswersAreFinal(env, s, b, step.w);
    }
    LiveStep(env, s, b, step);
    TidyStep(env, s, b, step);
    var tok' := OrderlyStep(env, Live(s, b), b.tok, step);
    b' := b.(tok := tok');
    BooksStay(env, s, b, s', tok');
  }

  // ---------------------------------------------------------------- rollbacks, spent jobs and crashes

  /** The live part is unaffected by numbers drawn and not used. */
  lemma NumbersDrawn(env: Env, s: State, tok: map<nat, Token>, nextTx: nat, nextJob: nat)
    requires RetryTokens.Inv(env, s, tok) && s.nextTx <= nextTx && s.nextJob <= nextJob
    ensures RetryTokens.Inv(env, s.(nextTx := nextTx, nextJob := nextJob), tok)
  {
    var s' := s.(nextTx := nextTx, nextJob := nextJob);
    forall k | k in s.rows ensures TokenOk(env, s', k, tok[k]) {
      TokenFrame(env, s, s', k, tok[k]);
    }
  }

  lemma RollbackState(s: State, e: BadgeEvent)
    requires !HasRow(s.rows, e.user, e.badge)
    ensures DoRollback(s, e) ==
            s.(jobs := s.jobs[s.nextJob := Job(s.nextTx, e.user, 0)], nextTx := s.nextTx + 1, nextJob := s.nextJob + 1)
  {
  }

  lemma JobsAreNumbered(env: Env, s: State, b: Books)
    requires Inv(env, s, b)
    ensures forall w | w in s.workers && s.workers[w].alive :: s.workers[w].job < s.nextJob
    ensures forall j | j in s.jobs :: j < s.nextJob
    ensures s.nextTx !in s.rows
  {
    var r := Live(s, b);
    assert forall w | w in s.workers && s.workers[w].alive :: w in r.workers && r.workers[w].job < s.nextJob;
    forall j | j in s.jobs ensures j < s.nextJob {
      if j in b.spent {
        assert SpentJob(s, b, j);
      } else {
        assert j in r.jobs;
      }
    }
  }

  lemma RollbackBooks(s: State, b: Books, job: Job)
    requires BooksOk(s, b) && job.tx == s.nextTx && s.nextTx !in s.rows
    requires forall w | w in s.workers && s.workers[w].alive :: s.workers[w].job < s.nextJob
    ensures BooksOk(s.(jobs := s.jobs[s.nextJob := job], nextTx := s.nextTx + 1, nextJob := s.nextJob + 1),
            b.(spent := b.spent + {s.nextJob}))
  {
    var s' := s.(jobs := s.jobs[s.nextJob := job], nextTx := s.nextTx + 1, nextJob := s.nextJob + 1);
    var b' := b.(spent := b.spent + {s.nextJob});
    forall j | j in b'.spent ensures SpentJob(s', b', j) {
      if j != s.nextJob {
        assert SpentJob(s, b, j);
      }
    }
  }

  /** A handler that rolls back leaves a job for a transaction that never becomes a row. */
  lemma RollbackStep(env: Env, s: State, b: Books, e: BadgeEvent) returns (b': Books)
    requires Inv(env, s, b) && !HasRow(s.rows, e.user, e.badge)
    ensures Inv(env, DoRollback(s, e), b') && Progress(s, DoRollback(s, e), b.tok, b'.tok)
  {
    var s' := DoRollback(s, e);
    b' := b.(spent := b.spent + {s.nextJob});
    RollbackState(s, e);
    JobsAreNumbered(env, s, b);
    assert s'.jobs - b'.spent == s.jobs - b.spent;
    NumbersDrawn(env, Live(s, b), b.tok, s'.nextTx, s'.nextJob);
    assert Live(s', b') == Live(s, b).(nextTx := s'.nextTx, nextJob := s'.nextJob);
    RollbackBooks(s, b, Job(s.nextTx, e.user, 0));
  }

  lemma SpentStartState(s: State, b: Books, w: nat, j: nat) returns (jobs': map<nat, Job>)
    requires j in s.jobs && j in b.spent && SpentJob(s, b, j)
    ensures DoStartJob(s, w, j) == s.(jobs := jobs') && jobs' - b.spent == s.jobs - b.spent
    ensures forall i | i in jobs' :: i in s.jobs && jobs'[i].tx == s.jobs[i].tx
  {
    AttemptFailedKeepsTx(s.jobs, j);
    jobs' := if s.jobs[j].tx in s.rows then s.jobs - {j} else JobAttemptFailed(s.jobs, j);
  }

  /** Starting a spent job makes no call: its row is missing or not PENDING. */
  lemma SpentStart(env: Env, s: State, b: Books, w: nat, j: nat)
    requires Inv(env, s, b) && j in s.jobs && j in b.spent
    ensures Inv(env, DoStartJob(s, w, j), b) && Progress(s, DoStartJob(s, w, j), b.tok, b.tok)
  {
    assert forall i | i in b.spent :: SpentJob(s, b, i);
    var jobs' := SpentStartState(s, b, w, j);
    var s' := s.(jobs := jobs');
    assert Live(s', b) == Live(s, b);
    forall i | i in b.spent ensures SpentJob(s', b, i) {
      assert SpentJob(s, b, i);
    }
  }

  // A crash takes a live worker away; what else depends on how far it got.

  lemma CrashState(s: State, w: nat, b: Books)
    requires w in s.workers && w !in b.gone
    ensures DoCrash(s, w).workers - (b.gone + {w}) == (s.workers - b.gone) - {w}
  {
  }

  lemma CrashBooks(s: State, b: Books, w: nat, b': Books)
    requires BooksOk(s, b) && w in s.workers && s.workers[w].alive && b'.gone == b.gone + {w}
    requires b'.spent == b.spent || b'.spent == b.spent + {s.workers[w].job}
    requires forall v | v in s.workers && v != w && s.workers[v].alive :: s.workers[v].job != s.workers[w].job
    requires forall j | j in b'.spent :: SpentJob(s, b', j)
    ensures BooksOk(DoCrash(s, w), b')
  {
    var s' := DoCrash(s, w);
    forall j | j in b'.spent ensures SpentJob(s', b', j) {
      assert SpentJob(s, b', j);
    }
  }

  lemma CrashSaved(s: State, b: Books, w: nat, b': Books)
    requires SavedOk(s, b) && w in s.workers && Progress(s, DoCrash(s, w), b.tok, b'.tok)
    ensures SavedOk(DoCrash(s, w), b')
  {
  }

  lemma AloneOnItsJob(env: Env, s: State, b: Books, w: nat)
    requires Inv(env, s, b) && w in s.workers && s.workers[w].alive
    ensures forall v | v in s.workers && v != w && s.workers[v].alive :: s.workers[v].job != s.workers[w].job
    ensures s.workers[w].job < s.nextJob && w in Live(s, b).workers && Live(s, b).workers[w] == s.workers[w]
    ensures s.workers[w].job in s.jobs ==> s.jobs[s.workers[w].job].tx == s.workers[w].tx
    ensures s.workers[w].tx in s.rows && s.workers[w].tx < s.nextTx
  {
    var r := Live(s, b);
    assert forall v | v in s.workers && s.workers[v].alive :: v in r.workers && r.workers[v] == s.workers[v];
    assert s.workers[w].job in s.jobs ==> s.workers[w].job in r.jobs;
  }

  lemma LoadedCrash(env: Env, s: State, b: Books, w: nat) returns (b': Books)
    requires Inv(env, s, b) && w in s.workers && s.workers[w].alive && s.workers[w].phase.Loaded?
    ensures Inv(env, DoCrash(s, w), b') && Progress(s, DoCrash(s, w), b.tok, b'.tok)
  {
    AloneOnItsJob(env, s, b, w);
    LoadedDies(env, Live(s, b), b.tok, w);
    b' := Books(b.tok[s.workers[w].tx := Waiting(s.workers[w].job)], b.gone + {w}, b.spent);
    CrashState(s, w, b);
    assert Live(DoCrash(s, w), b') == Live(s, b).(workers := Live(s, b).workers - {w});
    var r := Live(s, b);
    ProgressOfRows(r, r.(workers := r.workers - {w}), s, DoCrash(s, w), b.tok, b'.tok);
    ProgressOfRows(s, DoCrash(s, w), s, s, b.tok, b'.tok);
    SpentStays(s, s, b, b'.tok);
    CrashBooks(s, b, w, b');
    CrashSaved(s, b, w, b');
  }

  /** The job of a worker that dies over a row nobody will move is spent. */
  lemma JobSpent(s: State, b: Books, tok': map<nat, Token>, w: nat)
    requires w in s.workers && s.workers[w].job < s.nextJob && s.workers[w].tx < s.nextTx &&
             Idle(s, tok', s.workers[w].tx)
    requires s.workers[w].job in s.jobs ==> s.jobs[s.workers[w].job].tx == s.workers[w].tx
    requires forall j | j in b.spent :: SpentJob(s, b, j)
    requires Progress(s, s, b.tok, tok')
    ensures forall j | j in b.spent + {s.workers[w].job} ::
            SpentJob(s, Books(tok', b.gone + {w}, b.spent + {s.workers[w].job}), j)
  {
    forall j | j in b.spent + {s.workers[w].job}
      ensures SpentJob(s, Books(tok', b.gone + {w}, b.spent + {s.workers[w].job}), j)
    {
      assert j in b.spent ==> SpentJob(s, b, j);
    }
  }

  lemma CrashTakesJob(s: State, b: Books, w: nat, tok': map<nat, Token>)
    requires w in s.workers && w !in b.gone && w in Live(s, b).workers
    ensures Live(DoCrash(s, w), Books(tok', b.gone + {w}, b.spent + {s.workers[w].job})) == Without(Live(s, b), w)
  {
    CrashState(s, w, b);
    assert s.jobs - (b.spent + {s.workers[w].job}) == (s.jobs - b.spent) - {s.workers[w].job};
  }

  lemma OwnerCrash(env: Env, s: State, b: Books, w: nat) returns (b': Books)
    requires Inv(env, s, b) && w in s.workers && s.workers[w].alive && OwnsRow(s.workers[w])
    ensures Inv(env, DoCrash(s, w), b') && Progress(s, DoCrash(s, w), b.tok, b'.tok)
  {
    AloneOnItsJob(env, s, b, w);
    OwnerDies(env, Live(s, b), b.tok, w);
    var tok' := b.tok[s.workers[w].tx := Nobody];
    b' := Books(tok', b.gone + {w}, b.spent + {s.workers[w].job});
    CrashTakesJob(s, b, w, tok');
    ProgressOfRows(Live(s, b), Without(Live(s, b), w), s, s, b.tok, tok');
    ProgressOfRows(s, s, s, DoCrash(s, w), b.tok, tok');
    JobSpent(s, b, tok', w);
    CrashBooks(s, b, w, b');
    CrashSaved(s, b, w, b');
  }

  lemma SavedCrash(env: Env, s: State, b: Books, w: nat) returns (b': Books)
    requires Inv(env, s, b) && w in s.workers && s.workers[w].alive && s.workers[w].phase == Saved
    ensures Inv(env, DoCrash(s, w), b') && Progress(s, DoCrash(s, w), b.tok, b'.tok)
  {
    AloneOnItsJob(env, s, b, w);
    LeaveStep(env, Live(s, b), b.tok, w);
    assert DoFinishJob(Live(s, b), w) == Without(Live(s, b), w);
    b' := Books(b.tok, b.gone + {w}, b.spent + {s.workers[w].job});
    CrashTakesJob(s, b, w, b.tok);
    ProgressOfRows(Live(s, b), Without(Live(s, b), w), s, s, b.tok, b.tok);
    ProgressOfRows(s, s, s, DoCrash(s, w), b.tok, b.tok);
    JobSpent(s, b, b.tok, w);
    CrashBooks(s, b, w, b');
    CrashSaved(s, b, w, b');
  }

  // ---------------------------------------------------------------- runs

  /** Every disciplined step keeps the books, lets no retry count fall and moves no row that is done. */
  lemma DisciplinedStep(env: Env, s: State, b: Books, step: Step) returns (b': Books)
    requires Inv(env, s, b) && Enabled(env, s, step) && Disciplined(false, s, step)
    ensures Inv(env, Apply(env, s, step), b') && Progress(s, Apply(env, s, step), b.tok, b'.tok)
  {
    if Ordinary(s, b, step) {
      b' := OrdinaryStep(env, s, b, step);
    } else {
      match step
      case HandleBadgeRollsBack(e) => b' := RollbackStep(env, s, b, e);
      case StartJob(w, j) =>
        SpentStart(env, s, b, w, j);
        b' := b;
      case Crash(w) =>
        if s.workers[w].phase.Loaded? {
          b' := LoadedCrash(env, s, b, w);
        } else if OwnsRow(s.workers[w]) {
          b' := OwnerCrash(env, s, b, w);
        } else {
          b' := SavedCrash(env, s, b, w);
        }
    }
  }

  lemma {:induction false} DisciplinedRun(env: Env, s: State, b: Books, steps: seq<Step>, s': State) returns (b': Books)
    requires Inv(env, s, b) && IsDisciplinedRun(false, env, s, steps, s')
    ensures Inv(env, s', b')
    ensures forall k | k in s.rows :: k in s'.rows && s.rows[k].retryCount <= s'.rows[k].retryCount
    decreases steps
  {
    if steps == [] {
      b' := b;
    } else {
      var mid := DisciplinedStep(env, s, b, steps[0]);
      b' := DisciplinedRun(env, Apply(env, s, steps[0]), mid, steps[1..], s');
    }
  }

  /** Three calls per round, and as many rounds as automatic retries allow, but at least one. */
  lemma CallBudget(env: Env, steps: seq<Step>, s: State, tx: nat)
    requires IsDisciplinedRun(false, env, Init, steps, s)
    ensures CallsFor(s, tx) <= 3 * Rounds(env)
  {
    var b0 := Books(map[], {}, {});
    assert Live(Init, b0) == Init;
    var b := DisciplinedRun(env, Init, b0, steps, s);
    if tx in s.rows {
      TokenBounds(env, Live(s, b), tx, b.tok[tx]);
    }
  }
}
