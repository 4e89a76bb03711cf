/** Who may move a cashback row: one token per row, and the provider calls each token accounts for. */
module RetryTokens {
  import opened Json
  import opened Failures
  import opened Cashback

  /**
   * One badge event per user and badge, a job runs on one worker at a time, the scanner is the only source of
   * retries and handles a row once per scan, the provider is synchronous; no crashes and no rollbacks here.
   */
  ghost predicate Orderly(s: State, step: Step) {
    match step
    case HandleBadge(e) => e.id in s.processed || !HasRow(s.rows, e.user, e.badge)
    case StartJob(w, j) => forall v | v in s.workers :: s.workers[v].job != j
    case SelectFailed(r, tx, manual, now) => !manual && forall q | q in s.retriers :: s.retriers[q].tx != tx
    case ProviderAccepts(w, later) => !later
    case HandleBadgeRollsBack(_) => false
    case FaultAfterTransfer(_, _) => false
    case Crash(_) => false
    case ResetRetryCount(_) => false
    case ReceiveHook(_, _, _, _) => false
    case _ => true
  }

  function Rounds(env: Env): (m: nat)
    ensures m >= 1
  {
    if env.maxAutoRetries >= 1 then env.maxAutoRetries else 1
  }

  function CallsFor(s: State, tx: nat): (n: nat) {
    if tx in s.calls then s.calls[tx] else 0
  }

  /** Who holds the right to move a row forward. */
  datatype Token = Waiting(j: nat) | Running(w: nat) | Retrying(r: nat) | Nobody

  predicate WaitingOk(env: Env, s: State, tx: nat, j: nat)
    requires tx in s.rows
  {
    && j in s.jobs && s.jobs[j].tx == tx && s.jobs[j].made < ATTEMPTS
    && s.rows[tx].status == Pending && s.rows[tx].retryCount < Rounds(env)
    && CallsFor(s, tx) <= ATTEMPTS * s.rows[tx].retryCount + s.jobs[j].made
  }

  predicate RunningOk(env: Env, s: State, tx: nat, w: nat)
    requires tx in s.rows
  {
    && w in s.workers && s.workers[w].tx == tx && s.workers[w].job in s.jobs
    && var wk, job := s.workers[w], s.jobs[s.workers[w].job];
    && job.tx == tx && job.made < ATTEMPTS && wk.final == (job.made + 1 >= ATTEMPTS)
    && s.rows[tx].retryCount < Rounds(env) && wk.snap.retryCount == s.rows[tx].retryCount
    && s.rows[tx].status == (if wk.phase.Loaded? || wk.phase == Tail(true) then Pending else Processing)
    && wk.phase != Saved && wk.phase != Tail(false)
    && (wk.phase == Tail(true) ==> !wk.final) && (wk.phase.Accepted? ==> !wk.phase.later)
    && CallsFor(s, tx) <= ATTEMPTS * s.rows[tx].retryCount + job.made +
       (if wk.phase.Loaded? || wk.phase.Claimed? then 0 else 1)
  }

  predicate RetryingOk(env: Env, s: State, tx: nat, r: nat)
    requires tx in s.rows
  {
    && r in s.retriers && s.retriers[r].tx == tx
    && s.rows[tx].status == (if s.retriers[r].Requeued? then Pending else Failed)
    && s.rows[tx].retryCount < Rounds(env)
    && CallsFor(s, tx) <= ATTEMPTS * s.rows[tx].retryCount
  }

  predicate NobodyOk(env: Env, s: State, tx: nat)
    requires tx in s.rows
  {
    match s.rows[tx].status
    case Failed => CallsFor(s, tx) <= ATTEMPTS * s.rows[tx].retryCount && s.rows[tx].retryCount <= Rounds(env)
    case Pending => false
    case _ => CallsFor(s, tx) <= ATTEMPTS * Rounds(env)
  }

  predicate TokenOk(env: Env, s: State, tx: nat, token: Token)
    requires tx in s.rows
  {
    match token
    case Waiting(j) => WaitingOk(env, s, tx, j)
    case Running(w) => RunningOk(env, s, tx, w)
    case Retrying(r) => RetryingOk(env, s, tx, r)
    case Nobody => NobodyOk(env, s, tx)
  }

  /** A worker whose job can make no further call. */
  predicate Spent(wk: Worker) {
    wk.phase == Saved || wk.phase == Tail(false)
  }

  predicate WorkersHeld(workers: map<nat, Worker>, tok: map<nat, Token>, nextJob: nat) {
    forall w | w in workers ::
      && workers[w].job < nextJob && workers[w].tx in tok
      && (tok[workers[w].tx] == Running(w) || (Spent(workers[w]) && tok[workers[w].tx] != Waiting(workers[w].job)))
  }

  predicate WorkersMatch(workers: map<nat, Worker>, jobs: map<nat, Job>) {
    forall w | w in workers && workers[w].job in jobs :: jobs[workers[w].job].tx == workers[w].tx
  }

  predicate HasWorker(workers: map<nat, Worker>, j: nat) {
    exists w :: w in workers && workers[w].job == j
  }

  predicate JobsHeld(jobs: map<nat, Job>, workers: map<nat, Worker>, tok: map<nat, Token>, nextJob: nat) {
    forall j | j in jobs :: j < nextJob && jobs[j].tx in tok && (tok[jobs[j].tx] == Waiting(j) || HasWorker(workers, j))
  }

  predicate RetriersHeld(retriers: map<nat, Retrier>, tok: map<nat, Token>) {
    forall r | r in retriers :: retriers[r].tx in tok && tok[retriers[r].tx] == Retrying(r)
  }

  predicate OneWorkerPerJob(workers: map<nat, Worker>) {
    forall v, w | v in workers && w in workers && workers[v].job == workers[w].job :: v == w
  }

  predicate TokensOk(env: Env, s: State, tok: map<nat, Token>) {
    tok.Keys == s.rows.Keys && forall tx | tx in s.rows :: TokenOk(env, s, tx, tok[tx])
  }

  predicate KeysOk(s: State) {
    (forall tx | tx in s.rows :: tx < s.nextTx) && (forall tx | tx in s.calls :: tx in s.rows) && s.hooks == map[]
  }

  predicate Held(s: State, tok: map<nat, Token>) {
    && WorkersHeld(s.workers, tok, s.nextJob) && JobsHeld(s.jobs, s.workers, tok, s.nextJob)
    && RetriersHeld(s.retriers, tok) && OneWorkerPerJob(s.workers) && WorkersMatch(s.workers, s.jobs)
  }

  predicate Inv(env: Env, s: State, tok: map<nat, Token>) {
    TokensOk(env, s, tok) && Held(s, tok) && KeysOk(s)
  }

  /** Every token bounds the calls by three per round. */
  lemma {:induction false} TokenBounds(env: Env, s: State, tx: nat, token: Token)
    requires tx in s.rows && TokenOk(env, s, tx, token)
    ensures CallsFor(s, tx) <= ATTEMPTS * Rounds(env)
  {
  }

  /** Nobody will ever move this row again: it is paid, or its owner died. */
  predicate Idle(s: State, tok: map<nat, Token>, k: nat) {
    k in s.rows && k in tok && tok[k] == Nobody && (s.rows[k].status == Processing || s.rows[k].status == Successful)
  }

  /** Retry counts never fall, rows nobody holds stay as they are, and rows nobody will move stay that way. */
  predicate Progress(s: State, s': State, tok: map<nat, Token>, tok': map<nat, Token>) {
    forall k | k in s.rows ::
      && k in s'.rows && s.rows[k].retryCount <= s'.rows[k].retryCount
      && (k in tok && tok[k] == Nobody ==> s'.rows[k] == s.rows[k])
      && (Idle(s, tok, k) ==> Idle(s', tok', k))
  }

  lemma {:induction false} TokenMovesOn(s: State, s': State, tok: map<nat, Token>, tx: nat, token: Token)
    requires s'.rows == s.rows && tx in tok && tok[tx] != Nobody
    ensures Progress(s, s', tok, tok[tx := token])
  {
  }

  // ---------------------------------------------------------------- steps

  /** Nothing that belongs to row k changed. */
  predicate SameFor(s: State, s': State, k: nat) {
    && k in s.rows && k in s'.rows && s'.rows[k] == s.rows[k] && CallsFor(s', k) == CallsFor(s, k)
    && (forall j | j in s.jobs && s.jobs[j].tx == k :: j in s'.jobs && s'.jobs[j] == s.jobs[j])
    && (forall w | w in s.workers && s.workers[w].tx == k :: w in s'.workers && s'.workers[w] == s.workers[w])
    && (forall r | r in s.retriers && s.retriers[r].tx == k :: r in s'.retriers && s'.retriers[r] == s.retriers[r])
  }

  lemma {:induction false} TokenFrame(env: Env, s: State, s': State, k: nat, token: Token)
    requires SameFor(s, s', k) && TokenOk(env, s, k, token)
    ensures TokenOk(env, s', k, token)
  {
  }

  /** One row and its token change; everything that belongs to the other rows stays. */
  lemma {:induction false} TokensLocal(env: Env, s: State, s': State, tok: map<nat, Token>, tx: nat, token: Token)
    requires TokensOk(env, s, tok) && s'.rows.Keys == s.rows.Keys + {tx}
    requires forall k | k in s.rows && k != tx :: SameFor(s, s', k)
    requires TokenOk(env, s', tx, token)
    ensures TokensOk(env, s', tok[tx := token])
  {
    var tok' := tok[tx := token];
    forall k | k in s'.rows ensures TokenOk(env, s', k, tok'[k]) {
      if k != tx {
        TokenFrame(env, s, s', k, tok[k]);
      }
    }
  }

  lemma {:induction false} JobsKept(jobs: map<nat, Job>, jobs': map<nat, Job>, workers: map<nat, Worker>,
      workers': map<nat, Worker>,
                 tok: map<nat, Token>, tok': map<nat, Token>, nextJob: nat)
    requires JobsHeld(jobs, workers, tok, nextJob) && tok.Keys <= tok'.Keys
    requires forall j | j in jobs' :: j in jobs && jobs'[j].tx == jobs[j].tx
    requires forall j | j in jobs' && tok[jobs[j].tx] == Waiting(j) ::
              tok'[jobs[j].tx] == Waiting(j) || HasWorker(workers', j)
    requires forall j | j in jobs' && HasWorker(workers, j) :: HasWorker(workers', j) || tok'[jobs[j].tx] == Waiting(j)
    ensures JobsHeld(jobs', workers', tok', nextJob)
  {
  }

  lemma {:induction false} HasWorkerUpdate(workers: map<nat, Worker>, w: nat, wk: Worker, j: nat)
    requires HasWorker(workers, j) && (w in workers ==> wk.job == workers[w].job)
    ensures HasWorker(workers[w := wk], j)
  {
    var v :| v in workers && workers[v].job == j;
    assert v in workers[w := wk] && workers[w := wk][v].job == j;
  }

  /** The state after a new badge event, field by field. */
  lemma {:induction false} NewBadgeState(env: Env, s: State, e: BadgeEvent)
    requires e.id !in s.processed && !HasRow(s.rows, e.user, e.badge)
    ensures var s' := DoHandleBadge(env, s, e);
      && s'.rows == s.rows[s.nextTx := NewTx(e, env)] && s'.jobs == s.jobs[s.nextJob := Job(s.nextTx, e.user, 0)]
      && s'.workers == s.workers && s'.retriers == s.retriers && s'.calls == s.calls && s'.hooks == s.hooks
      && s'.nextTx == s.nextTx + 1 && s'.nextJob == s.nextJob + 1
  {
  }

  lemma {:induction false} NewBadgeFrame(s: State, s': State, row: Tx, job: Job)
    requires KeysOk(s) && s.nextTx !in s.rows && job.tx == s.nextTx && forall j | j in s.jobs :: j < s.nextJob
    requires s'.rows == s.rows[s.nextTx := row] && s'.jobs == s.jobs[s.nextJob := job]
    requires s'.workers == s.workers && s'.retriers == s.retriers && s'.calls == s.calls
    ensures SameForAllBut(s, s', s.nextTx)
  {
  }

  lemma {:induction false} NewBadgeHeld(s: State, tok: map<nat, Token>, job: Job)
    requires Held(s, tok) && s.nextTx !in tok && job.tx == s.nextTx
    ensures var tok' := tok[s.nextTx := Waiting(s.nextJob)];
      && WorkersHeld(s.workers, tok', s.nextJob + 1) &&
         JobsHeld(s.jobs[s.nextJob := job], s.workers, tok', s.nextJob + 1)
      && RetriersHeld(s.retriers, tok') && WorkersMatch(s.workers, s.jobs[s.nextJob := job])
  {
  }

  lemma {:induction false} NewBadge(env: Env, s: State, tok: map<nat, Token>, e: BadgeEvent)
    requires Inv(env, s, tok) && e.id !in s.processed && !HasRow(s.rows, e.user, e.badge)
    ensures Inv(env, DoHandleBadge(env, s, e), tok[s.nextTx := Waiting(s.nextJob)])
    ensures Progress(s, DoHandleBadge(env, s, e), tok, tok[s.nextTx := Waiting(s.nextJob)])
  {
    var s' := DoHandleBadge(env, s, e);
    NewBadgeState(env, s, e);
    NewBadgeFrame(s, s', NewTx(e, env), Job(s.nextTx, e.user, 0));
    NewBadgeHeld(s, tok, Job(s.nextTx, e.user, 0));
    TokensLocal(env, s, s', tok, s.nextTx, Waiting(s.nextJob));
  }

  lemma {:induction false} StartToken(env: Env, s: State, w: nat, j: nat)
    requires j in s.jobs && s.jobs[j].tx in s.rows && w !in s.workers && WaitingOk(env, s, s.jobs[j].tx, j)
    ensures var s' := DoStartJob(s, w, j);
      && w in s'.workers && s'.workers == s.workers[w := s'.workers[w]] && s'.workers[w].job == j &&
         s'.workers[w].tx == s.jobs[j].tx
      && s'.jobs == s.jobs && s'.rows == s.rows && s'.retriers == s.retriers && s'.calls == s.calls &&
         s'.hooks == s.hooks
      && s'.nextTx == s.nextTx && s'.nextJob == s.nextJob
      && RunningOk(env, s', s.jobs[j].tx, w)
  {
  }

  lemma {:induction false} StartStep(env: Env, s: State, tok: map<nat, Token>, w: nat, j: nat)
    returns (tok': map<nat, Token>)
    requires Inv(env, s, tok) && w !in s.workers && j in s.jobs && !HasWorker(s.workers, j)
    ensures Inv(env, DoStartJob(s, w, j), tok') && Progress(s, DoStartJob(s, w, j), tok, tok')
  {
    var s' := DoStartJob(s, w, j);
    var tx := s.jobs[j].tx;
    assert tok[tx] == Waiting(j) && TokenOk(env, s, tx, tok[tx]);
    tok' := tok[tx := Running(w)];
    StartToken(env, s, w, j);
    AddedWorkerFrame(s, s', w);
    TokensLocal(env, s, s', tok, tx, Running(w));
    StartHeld(s, tok, w, s'.workers[w]);
  }

  lemma {:induction false} AddedWorkerFrame(s: State, s': State, w: nat)
    requires w !in s.workers && w in s'.workers && s'.workers == s.workers[w := s'.workers[w]]
    requires s'.jobs == s.jobs && s'.rows == s.rows && s'.retriers == s.retriers && s'.calls == s.calls
    ensures SameForAllBut(s, s', s'.workers[w].tx)
  {
  }

  lemma {:induction false} StartHeld(s: State, tok: map<nat, Token>, w: nat, wk: Worker)
    requires Held(s, tok) && w !in s.workers && wk.job in s.jobs && !HasWorker(s.workers, wk.job)
    requires wk.tx in tok && tok[wk.tx] == Waiting(wk.job) && s.jobs[wk.job].tx == wk.tx
    ensures Held(s.(workers := s.workers[w := wk]), tok[wk.tx := Running(w)])
  {
    var workers', tok' := s.workers[w := wk], tok[wk.tx := Running(w)];
    assert workers'[w].job == wk.job;
    assert HasWorker(workers', wk.job);
    forall i | i in s.jobs && HasWorker(s.workers, i) ensures HasWorker(workers', i) {
      HasWorkerUpdate(s.workers, w, wk, i);
    }
    JobsKept(s.jobs, s.jobs, s.workers, workers', tok, tok', s.nextJob);
    StartWorkers(s.workers, w, wk, tok, wk.tx, wk.job, s.nextJob);
  }

  predicate SameForAllBut(s: State, s': State, tx: nat) {
    forall k | k in s.rows && k != tx :: SameFor(s, s', k)
  }

  lemma {:induction false} StartWorkers(workers: map<nat, Worker>, w: nat, wk: Worker, tok: map<nat, Token>, tx: nat,
      j: nat, nextJob: nat)
    requires WorkersHeld(workers, tok, nextJob) && OneWorkerPerJob(workers) && w !in workers
    requires tx in tok && tok[tx] == Waiting(j) && wk.tx == tx && wk.job == j && j < nextJob && !HasWorker(workers, j)
    ensures WorkersHeld(workers[w := wk], tok[tx := Running(w)], nextJob) && OneWorkerPerJob(workers[w := wk])
  {
    assert forall v | v in workers :: workers[v].job != j;
  }

  /** The worker, its row and the call counter of that row are all that changed. */
  predicate Moved(s: State, s': State, w: nat) {
    && w in s.workers && w in s'.workers && s'.workers == s.workers[w := s'.workers[w]]
    && s'.workers[w].tx == s.workers[w].tx && s'.workers[w].job == s.workers[w].job
    && s.workers[w].tx in s.rows && s.workers[w].tx in s'.rows
    && s'.rows == s.rows[s.workers[w].tx := s'.rows[s.workers[w].tx]]
    && (s'.calls == s.calls || s'.calls == CallMade(s.calls, s.workers[w].tx))
    && s'.jobs == s.jobs && s'.retriers == s.retriers && s'.hooks == s.hooks && s'.nextTx == s.nextTx &&
       s'.nextJob == s.nextJob
  }

  lemma {:induction false} MovedFrame(s: State, s': State, w: nat)
    requires Moved(s, s', w) && KeysOk(s)
    ensures SameForAllBut(s, s', s.workers[w].tx) && KeysOk(s')
  {
  }

  lemma {:induction false} MovedHeld(s: State, s': State, tok: map<nat, Token>, w: nat, token: Token)
    requires Moved(s, s', w) && Held(s, tok) && s.workers[w].tx in tok && tok[s.workers[w].tx] == Running(w)
    requires token == Running(w) || (token == Nobody && Spent(s'.workers[w]))
    ensures Held(s', tok[s.workers[w].tx := token])
  {
    forall i | i in s.jobs && HasWorker(s.workers, i) ensures HasWorker(s'.workers, i) {
      HasWorkerUpdate(s.workers, w, s'.workers[w], i);
    }
    JobsKept(s.jobs, s.jobs, s.workers, s'.workers, tok, tok[s.workers[w].tx := token], s.nextJob);
    RunningWorkers(s.workers, w, s'.workers[w], tok, token, s.nextJob);
  }

  /** A worker that holds the token changes phase, and with it the row. */
  lemma {:induction false} RunningStep(env: Env, s: State, tok: map<nat, Token>, w: nat, s': State, token: Token)
    requires Inv(env, s, tok) && Moved(s, s', w) && tok[s.workers[w].tx] == Running(w)
    requires TokenOk(env, s', s.workers[w].tx, token)
    requires token == Running(w) || (token == Nobody && Spent(s'.workers[w]))
    requires s.rows[s.workers[w].tx].retryCount <= s'.rows[s.workers[w].tx].retryCount
    ensures Inv(env, s', tok[s.workers[w].tx := token]) && Progress(s, s', tok, tok[s.workers[w].tx := token])
  {
    MovedFrame(s, s', w);
    TokensLocal(env, s, s', tok, s.workers[w].tx, token);
    MovedHeld(s, s', tok, w, token);
  }

  lemma {:induction false} RunningWorkers(workers: map<nat, Worker>, w: nat, wk: Worker, tok: map<nat, Token>,
      token: Token, nextJob: nat)
    requires WorkersHeld(workers, tok, nextJob) && OneWorkerPerJob(workers) && w in workers
    requires wk.tx == workers[w].tx && wk.job == workers[w].job && tok[wk.tx] == Running(w)
    requires token == Running(w) || (token == Nobody && Spent(wk))
    ensures WorkersHeld(workers[w := wk], tok[wk.tx := token], nextJob) && OneWorkerPerJob(workers[w := wk])
  {
  }

  lemma {:induction false} HeldToken(env: Env, s: State, tok: map<nat, Token>, w: nat)
    requires Inv(env, s, tok) && w in s.workers && !Spent(s.workers[w])
    ensures s.workers[w].tx in s.rows && tok[s.workers[w].tx] == Running(w) && RunningOk(env, s, s.workers[w].tx, w)
  {
    assert TokenOk(env, s, s.workers[w].tx, tok[s.workers[w].tx]);
  }

  lemma {:induction false} ClaimToken(env: Env, s: State, w: nat)
    requires w in s.workers && s.workers[w].tx in s.rows && RunningOk(env, s, s.workers[w].tx, w) &&
             s.workers[w].phase.Loaded?
    ensures Moved(s, DoClaim(s, w), w) && TokenOk(env, DoClaim(s, w), s.workers[w].tx, Running(w))
    ensures s.rows[s.workers[w].tx].retryCount <= DoClaim(s, w).rows[s.workers[w].tx].retryCount
  {
  }

  lemma {:induction false} AcceptToken(env: Env, s: State, w: nat)
    requires w in s.workers && s.workers[w].tx in s.rows && RunningOk(env, s, s.workers[w].tx, w) &&
             s.workers[w].phase.Claimed?
    ensures Moved(s, DoAccept(s, w, false), w) && TokenOk(env, DoAccept(s, w, false), s.workers[w].tx, Running(w))
    ensures s.rows[s.workers[w].tx].retryCount <= DoAccept(s, w, false).rows[s.workers[w].tx].retryCount
  {
  }

  lemma {:induction false} ThrowToken(env: Env, s: State, w: nat, f: Failure)
    requires w in s.workers && s.workers[w].tx in s.rows && RunningOk(env, s, s.workers[w].tx, w) &&
             s.workers[w].phase.Claimed?
    ensures Moved(s, DoThrow(s, w, f), w) && TokenOk(env, DoThrow(s, w, f), s.workers[w].tx, Running(w))
    ensures s.rows[s.workers[w].tx].retryCount <= DoThrow(s, w, f).rows[s.workers[w].tx].retryCount
  {
  }

  lemma {:induction false} SaveToken(env: Env, s: State, w: nat)
    requires w in s.workers && s.workers[w].tx in s.rows && RunningOk(env, s, s.workers[w].tx, w) &&
             s.workers[w].phase == Accepted(false)
    ensures Moved(s, DoSaveResult(s, w), w) && TokenOk(env, DoSaveResult(s, w), s.workers[w].tx, Nobody)
    ensures s.rows[s.workers[w].tx].retryCount <= DoSaveResult(s, w).rows[s.workers[w].tx].retryCount
  {
  }

  lemma {:induction false} RetryableToken(env: Env, s: State, w: nat, now: int)
    requires w in s.workers && s.workers[w].tx in s.rows && RunningOk(env, s, s.workers[w].tx, w) &&
             s.workers[w].phase.Threw? && Soft(s.workers[w].phase.failure) && !s.workers[w].final
    ensures Moved(s, DoCatch(env, s, w, now), w) && TokenOk(env, DoCatch(env, s, w, now), s.workers[w].tx, Running(w))
    ensures s.rows[s.workers[w].tx].retryCount <= DoCatch(env, s, w, now).rows[s.workers[w].tx].retryCount
  {
  }

  lemma {:induction false} FinalToken(env: Env, s: State, w: nat, now: int)
    requires w in s.workers && s.workers[w].tx in s.rows && RunningOk(env, s, s.workers[w].tx, w) &&
             s.workers[w].phase.Threw? && !(Soft(s.workers[w].phase.failure) && !s.workers[w].final)
    ensures Moved(s, DoCatch(env, s, w, now), w) && TokenOk(env, DoCatch(env, s, w, now), s.workers[w].tx, Nobody)
    ensures s.rows[s.workers[w].tx].retryCount <= DoCatch(env, s, w, now).rows[s.workers[w].tx].retryCount
  {
  }

  predicate IsWork(step: Step, w: nat) {
    step == Claim(w) || step == ProviderAccepts(w, false) || (step.ProviderThrows? && step.w == w) ||
    step == SaveResult(w) || (step.Catch? && step.w == w)
  }

  lemma {:induction false} WorkToken(env: Env, s: State, w: nat, step: Step) returns (token: Token)
    requires IsWork(step, w) && Enabled(env, s, step) && s.workers[w].tx in s.rows &&
             RunningOk(env, s, s.workers[w].tx, w)
    ensures Moved(s, Apply(env, s, step), w) && TokenOk(env, Apply(env, s, step), s.workers[w].tx, token)
    ensures token == Running(w) || (token == Nobody && Spent(Apply(env, s, step).workers[w]))
    ensures s.rows[s.workers[w].tx].retryCount <= Apply(env, s, step).rows[s.workers[w].tx].retryCount
  {
    token := Running(w);
    match step {
      case Claim(_) => ClaimToken(env, s, w);
      case ProviderAccepts(_, later) => AcceptToken(env, s, w);
      case ProviderThrows(_, cause) => ThrowToken(env, s, w, Caught(env.patterns, cause));
      case SaveResult(_) =>
        SaveToken(env, s, w);
        token := Nobody;
      case Catch(_, now) =>
        if Soft(s.workers[w].phase.failure) && !s.workers[w].final {
          RetryableToken(env, s, w, now);
        } else {
          FinalToken(env, s, w, now);
          token := Nobody;
        }
    }
  }

  /** Any move of a worker that is still at work. */
  lemma {:induction false} WorkStep(env: Env, s: State, tok: map<nat, Token>, w: nat,
      step: Step) returns (tok': map<nat, Token>)
    requires Inv(env, s, tok) && Enabled(env, s, step) && IsWork(step, w)
    ensures Inv(env, Apply(env, s, step), tok') && Progress(s, Apply(env, s, step), tok, tok')
  {
    HeldToken(env, s, tok, w);
    var token := WorkToken(env, s, w, step);
    RunningStep(env, s, tok, w, Apply(env, s, step), token);
    tok' := tok[s.workers[w].tx := token];
  }

  // ---------------------------------------------------------------- a worker leaves

  lemma {:induction false} HasWorkerRemove(workers: map<nat, Worker>, w: nat, i: nat)
    requires w in workers && HasWorker(workers, i) && workers[w].job != i
    ensures HasWorker(workers - {w}, i)
  {
    var v :| v in workers && workers[v].job == i;
    assert v in workers - {w} && (workers - {w})[v].job == i;
  }

  /** A spent worker goes and takes its job with it; the token is elsewhere and stays there. */
  lemma {:induction false} LeaveHeld(s: State, tok: map<nat, Token>, w: nat)
    requires Held(s, tok) && w in s.workers && Spent(s.workers[w]) && s.workers[w].tx in tok &&
             tok[s.workers[w].tx] != Running(w)
    ensures Held(s.(workers := s.workers - {w}, jobs := s.jobs - {s.workers[w].job}), tok)
  {
    var workers' := s.workers - {w};
    forall i | i in s.jobs && i != s.workers[w].job && HasWorker(s.workers, i) ensures HasWorker(workers', i) {
      HasWorkerRemove(s.workers, w, i);
    }
    JobsKept(s.jobs, s.jobs - {s.workers[w].job}, s.workers, workers', tok, tok, s.nextJob);
  }

  /** Every live token names something other than a spent worker and its job. */
  predicate TokenAvoids(s: State, token: Token, w: nat)
    requires w in s.workers
  {
    match token
    case Waiting(j) => j != s.workers[w].job
    case Running(v) => v != w && v in s.workers && s.workers[v].job != s.workers[w].job
    case _ => true
  }

  lemma {:induction false} LeaveToken(env: Env, s: State, k: nat, token: Token, w: nat)
    requires w in s.workers && k in s.rows && TokenOk(env, s, k, token) && TokenAvoids(s, token, w)
    ensures TokenOk(env, s.(workers := s.workers - {w}, jobs := s.jobs - {s.workers[w].job}), k, token)
  {
  }

  lemma {:induction false} TokensAvoidSpent(env: Env, s: State, tok: map<nat, Token>, w: nat, k: nat)
    requires Inv(env, s, tok) && w in s.workers && Spent(s.workers[w]) && k in s.rows
    ensures TokenAvoids(s, tok[k], w)
  {
    assert TokenOk(env, s, k, tok[k]);
    if tok[k].Waiting? && tok[k].j == s.workers[w].job {
      WaitingHasNoWorker(env, s, tok, k, w);
    }
  }

  lemma {:induction false} WaitingHasNoWorker(env: Env, s: State, tok: map<nat, Token>, k: nat, w: nat)
    requires Inv(env, s, tok) && k in s.rows && tok[k].Waiting? && w in s.workers
    ensures s.workers[w].job != tok[k].j
  {
    assert TokenOk(env, s, k, tok[k]);
  }

  lemma {:induction false} LeaveStep(env: Env, s: State, tok: map<nat, Token>, w: nat)
    requires Inv(env, s, tok) && w in s.workers && Spent(s.workers[w])
    ensures Inv(env, DoFinishJob(s, w), tok) && Progress(s, DoFinishJob(s, w), tok, tok)
  {
    assert TokenOk(env, s, s.workers[w].tx, tok[s.workers[w].tx]);
    var s' := DoFinishJob(s, w);
    assert s' == s.(workers := s.workers - {w}, jobs := s.jobs - {s.workers[w].job});
    forall k | k in s.rows ensures TokenOk(env, s', k, tok[k]) {
      assert TokenOk(env, s, k, tok[k]);
      TokensAvoidSpent(env, s, tok, w, k);
      LeaveToken(env, s, k, tok[k], w);
    }
    LeaveHeld(s, tok, w);
  }

  // ---------------------------------------------------------------- a job attempt failed

  lemma {:induction false} AgainState(env: Env, s: State, tx: nat, w: nat)
    requires w in s.workers && s.workers[w].phase == Tail(true) && tx == s.workers[w].tx && tx in s.rows &&
             RunningOk(env, s, tx, w)
    ensures var s', j := DoFinishJob(s, w), s.workers[w].job;
      && s'.workers == s.workers - {w} && s'.jobs == s.jobs[j := s.jobs[j].(made := s.jobs[j].made + 1)]
      && s'.rows == s.rows && s'.retriers == s.retriers && s'.calls == s.calls && s'.hooks == s.hooks
      && s'.nextTx == s.nextTx && s'.nextJob == s.nextJob
      && WaitingOk(env, s', tx, j)
  {
  }

  lemma {:induction false} AgainFrame(s: State, s': State, w: nat, job: Job)
    requires w in s.workers && s.workers[w].job in s.jobs && s.jobs[s.workers[w].job].tx == s.workers[w].tx &&
             job.tx == s.workers[w].tx
    requires s'.workers == s.workers - {w} && s'.jobs == s.jobs[s.workers[w].job := job]
    requires s'.rows == s.rows && s'.retriers == s.retriers && s'.calls == s.calls
    ensures SameForAllBut(s, s', s.workers[w].tx)
  {
  }

  lemma {:induction false} AgainHeld(s: State, tok: map<nat, Token>, w: nat, job: Job)
    requires Held(s, tok) && w in s.workers && s.workers[w].tx in tok && tok[s.workers[w].tx] == Running(w)
    requires s.workers[w].job in s.jobs && job.tx == s.workers[w].tx
    ensures Held(s.(workers := s.workers - {w}, jobs := s.jobs[s.workers[w].job := job]),
                 tok[s.workers[w].tx := Waiting(s.workers[w].job)])
  {
    var j := s.workers[w].job;
    var workers', tok' := s.workers - {w}, tok[s.workers[w].tx := Waiting(j)];
    assert s.jobs[j].tx == s.workers[w].tx;
    forall i | i in s.jobs && i != j && HasWorker(s.workers, i) ensures HasWorker(workers', i) {
      HasWorkerRemove(s.workers, w, i);
    }
    JobsKept(s.jobs, s.jobs[j := job], s.workers, workers', tok, tok', s.nextJob);
  }

  lemma {:induction false} AgainStep(env: Env, s: State, tok: map<nat, Token>, w: nat) returns (tok': map<nat, Token>)
    requires Inv(env, s, tok) && w in s.workers && s.workers[w].phase == Tail(true)
    ensures Inv(env, DoFinishJob(s, w), tok') && Progress(s, DoFinishJob(s, w), tok, tok')
  {
    HeldToken(env, s, tok, w);
    var tx, j, s' := s.workers[w].tx, s.workers[w].job, DoFinishJob(s, w);
    AgainState(env, s, tx, w);
    AgainFrame(s, s', w, s'.jobs[j]);
    TokensLocal(env, s, s', tok, tx, Waiting(j));
    AgainHeld(s, tok, w, s'.jobs[j]);
    TokenMovesOn(s, s', tok, tx, Waiting(j));
    tok' := tok[tx := Waiting(j)];
  }

  // ---------------------------------------------------------------- a worker dies

  /** Before its claim: the job waits again, none the wiser. */
  lemma {:induction false} LoadedDies(env: Env, s: State, tok: map<nat, Token>, w: nat)
    requires Inv(env, s, tok) && w in s.workers && s.workers[w].phase.Loaded?
    ensures var tok' := tok[s.workers[w].tx := Waiting(s.workers[w].job)];
      Inv(env, s.(workers := s.workers - {w}), tok') && Progress(s, s.(workers := s.workers - {w}), tok, tok')
  {
    HeldToken(env, s, tok, w);
    var tx, j, s' := s.workers[w].tx, s.workers[w].job, s.(workers := s.workers - {w});
    assert s.jobs[j := s.jobs[j]] == s.jobs;
    AgainFrame(s, s', w, s.jobs[j]);
    TokensLocal(env, s, s', tok, tx, Waiting(j));
    AgainHeld(s, tok, w, s.jobs[j]);
    TokenMovesOn(s, s', tok, tx, Waiting(j));
  }

  predicate OwnsRow(wk: Worker) {
    wk.phase.Claimed? || wk.phase.Accepted? || wk.phase.Threw?
  }

  /** The worker and its job are gone, the token with them. */
  function Without(s: State, w: nat): (s': State)
    requires w in s.workers
  {
    s.(workers := s.workers - {w}, jobs := s.jobs - {s.workers[w].job})
  }

  lemma {:induction false} OwnerDiesHeld(s: State, tok: map<nat, Token>, w: nat)
    requires Held(s, tok) && w in s.workers && s.workers[w].tx in tok && tok[s.workers[w].tx] == Running(w)
    ensures Held(Without(s, w), tok[s.workers[w].tx := Nobody])
  {
    var j, workers', tok' := s.workers[w].job, s.workers - {w}, tok[s.workers[w].tx := Nobody];
    forall i | i in s.jobs && i != j && HasWorker(s.workers, i) ensures HasWorker(workers', i) {
      HasWorkerRemove(s.workers, w, i);
    }
    JobsKept(s.jobs, s.jobs - {j}, s.workers, workers', tok, tok', s.nextJob);
  }

  lemma {:induction false} WithoutFrame(s: State, w: nat)
    requires w in s.workers && s.workers[w].job in s.jobs && s.jobs[s.workers[w].job].tx == s.workers[w].tx
    ensures SameForAllBut(s, Without(s, w), s.workers[w].tx)
  {
  }

  /** While it owned the row: the row stays PROCESSING and nobody moves it again. */
  lemma {:induction false} OwnerDies(env: Env, s: State, tok: map<nat, Token>, w: nat)
    requires Inv(env, s, tok) && w in s.workers && OwnsRow(s.workers[w])
    ensures var tok' := tok[s.workers[w].tx := Nobody];
      && Inv(env, Without(s, w), tok') && Progress(s, Without(s, w), tok, tok') && Idle(s, tok', s.workers[w].tx)
  {
    HeldToken(env, s, tok, w);
    WithoutFrame(s, w);
    TokensLocal(env, s, Without(s, w), tok, s.workers[w].tx, Nobody);
    OwnerDiesHeld(s, tok, w);
    TokenMovesOn(s, Without(s, w), tok, s.workers[w].tx, Nobody);
  }

  // ---------------------------------------------------------------- the scanner

  lemma {:induction false} RetrierFrame(s: State, s': State, r: nat, tx: nat)
    requires (r in s.retriers ==> s.retriers[r].tx == tx) && tx in s.rows && tx in s'.rows
    requires s'.rows == s.rows[tx := s'.rows[tx]] && s'.workers == s.workers && s'.calls == s.calls
    requires forall j | j in s.jobs :: j in s'.jobs && s'.jobs[j] == s.jobs[j]
    requires forall q | q in s.retriers && q != r :: q in s'.retriers && s'.retriers[q] == s.retriers[q]
    ensures SameForAllBut(s, s', tx)
  {
  }

  lemma {:induction false} SelectHeld(s: State, tok: map<nat, Token>, r: nat, retrier: Retrier)
    requires Held(s, tok) && retrier.tx in tok && tok[retrier.tx] == Nobody && r !in s.retriers
    ensures Held(s.(retriers := s.retriers[r := retrier]), tok[retrier.tx := Retrying(r)])
  {
    var tok' := tok[retrier.tx := Retrying(r)];
    assert forall w | w in s.workers :: Spent(s.workers[w]) || s.workers[w].tx != retrier.tx;
    JobsKept(s.jobs, s.jobs, s.workers, s.workers, tok, tok', s.nextJob);
  }

  lemma {:induction false} SelectToken(env: Env, s: State, r: nat, tx: nat, now: int)
    requires tx in s.rows && NobodyOk(env, s, tx) && Eligible(s.rows[tx], now, env)
    ensures RetryingOk(env, DoSelect(s, r, tx, false), tx, r)
  {
  }

  lemma {:induction false} NobodyHolds(env: Env, s: State, tok: map<nat, Token>, tx: nat)
    requires Inv(env, s, tok) && tx in s.rows && s.rows[tx].status == Failed
    requires forall q | q in s.retriers :: s.retriers[q].tx != tx
    ensures tok[tx] == Nobody && NobodyOk(env, s, tx)
  {
    assert TokenOk(env, s, tx, tok[tx]);
  }

  /** A FAILED row is not idle, so the token may leave Nobody. */
  lemma {:induction false} SelectProgress(s: State, tok: map<nat, Token>, r: nat, tx: nat)
    requires tx in s.rows && s.rows[tx].status == Failed
    ensures Progress(s, DoSelect(s, r, tx, false), tok, tok[tx := Retrying(r)])
  {
  }

  lemma {:induction false} SelectTokens(env: Env, s: State, tok: map<nat, Token>, r: nat, tx: nat, now: int)
    requires TokensOk(env, s, tok) && r !in s.retriers && tx in s.rows && Eligible(s.rows[tx], now, env)
    requires NobodyOk(env, s, tx)
    ensures TokensOk(env, DoSelect(s, r, tx, false), tok[tx := Retrying(r)])
  {
    var s' := DoSelect(s, r, tx, false);
    SelectToken(env, s, r, tx, now);
    assert s.rows == s.rows[tx := s.rows[tx]];
    RetrierFrame(s, s', r, tx);
    TokensLocal(env, s, s', tok, tx, Retrying(r));
  }

  lemma {:induction false} SelectStep(env: Env, s: State, tok: map<nat, Token>, r: nat, tx: nat, now: int)
    requires Inv(env, s, tok) && r !in s.retriers && tx in s.rows && Eligible(s.rows[tx], now, env)
    requires forall q | q in s.retriers :: s.retriers[q].tx != tx
    ensures Inv(env, DoSelect(s, r, tx, false), tok[tx := Retrying(r)])
    ensures Progress(s, DoSelect(s, r, tx, false), tok, tok[tx := Retrying(r)])
  {
    NobodyHolds(env, s, tok, tx);
    SelectTokens(env, s, tok, r, tx, now);
    SelectHeld(s, tok, r, Selected(tx, s.rows[tx].user, false));
    SelectProgress(s, tok, r, tx);
  }

  lemma {:induction false} RetryToken(env: Env, s: State, tok: map<nat, Token>, r: nat)
    requires Inv(env, s, tok) && r in s.retriers
    ensures s.retriers[r].tx in s.rows && tok[s.retriers[r].tx] == Retrying(r) &&
            RetryingOk(env, s, s.retriers[r].tx, r)
  {
    assert TokenOk(env, s, s.retriers[r].tx, tok[s.retriers[r].tx]);
  }

  /** A retrier moves on, and with it possibly the row; the token stays with the retrier. */
  lemma {:induction false} RetryMove(env: Env, s: State, s': State, tok: map<nat, Token>, r: nat)
    requires Inv(env, s, tok) && r in s.retriers && r in s'.retriers && s'.retriers[r].tx == s.retriers[r].tx
    requires s.retriers[r].tx in s.rows && s.retriers[r].tx in s'.rows && tok[s.retriers[r].tx] == Retrying(r)
    requires s'.rows == s.rows[s.retriers[r].tx := s'.rows[s.retriers[r].tx]] &&
             s'.retriers == s.retriers[r := s'.retriers[r]]
    requires s'.workers == s.workers && s'.jobs == s.jobs && s'.calls == s.calls && s'.hooks == s.hooks
    requires s'.nextTx == s.nextTx && s'.nextJob == s.nextJob
    requires RetryingOk(env, s', s.retriers[r].tx, r)
    ensures Inv(env, s', tok) && (s.rows[s.retriers[r].tx].retryCount <= s'.rows[s.retriers[r].tx].retryCount ==>
            Progress(s, s', tok, tok))
  {
    var tx := s.retriers[r].tx;
    RetrierFrame(s, s', r, tx);
    TokensLocal(env, s, s', tok, tx, Retrying(r));
    assert tok[tx := Retrying(r)] == tok;
  }

  lemma {:induction false} RecheckToken(env: Env, s: State, tx: nat, r: nat)
    requires tx in s.rows && RetryingOk(env, s, tx, r) && s.retriers[r].Selected?
    ensures DoRecheck(s, r) == s.(retriers := s.retriers[r := Rechecked(tx, s.retriers[r].payee)])
    ensures RetryingOk(env, DoRecheck(s, r), tx, r)
  {
  }

  lemma {:induction false} RecheckStep(env: Env, s: State, tok: map<nat, Token>, r: nat)
    requires Inv(env, s, tok) && r in s.retriers && s.retriers[r].Selected?
    ensures Inv(env, DoRecheck(s, r), tok) && Progress(s, DoRecheck(s, r), tok, tok)
  {
    RetryToken(env, s, tok, r);
    var tx := s.retriers[r].tx;
    RecheckToken(env, s, tx, r);
    assert s.rows[tx := s.rows[tx]] == s.rows;
    RetryMove(env, s, DoRecheck(s, r), tok, r);
  }

  lemma {:induction false} RequeueToken(env: Env, s: State, tx: nat, r: nat)
    requires tx in s.rows && RetryingOk(env, s, tx, r) && s.retriers[r].Rechecked?
    ensures RetryingOk(env, DoRequeue(s, r), tx, r)
  {
  }

  lemma {:induction false} RequeueStep(env: Env, s: State, tok: map<nat, Token>, r: nat)
    requires Inv(env, s, tok) && r in s.retriers && s.retriers[r].Rechecked?
    ensures Inv(env, DoRequeue(s, r), tok) && Progress(s, DoRequeue(s, r), tok, tok)
  {
    RetryToken(env, s, tok, r);
    RequeueToken(env, s, s.retriers[r].tx, r);
    RetryMove(env, s, DoRequeue(s, r), tok, r);
  }

  lemma {:induction false} EnqueueHeld(s: State, tok: map<nat, Token>, r: nat, job: Job)
    requires Held(s, tok) && r in s.retriers && s.retriers[r].tx in tok && job.tx == s.retriers[r].tx
    ensures var tok' := tok[job.tx := Waiting(s.nextJob)];
      && WorkersHeld(s.workers, tok', s.nextJob + 1) &&
         JobsHeld(s.jobs[s.nextJob := job], s.workers, tok', s.nextJob + 1)
      && RetriersHeld(s.retriers - {r}, tok') && WorkersMatch(s.workers, s.jobs[s.nextJob := job])
  {
  }

  lemma {:induction false} EnqueueStep(env: Env, s: State, tok: map<nat, Token>, r: nat) returns (tok': map<nat, Token>)
    requires Inv(env, s, tok) && r in s.retriers && s.retriers[r].Requeued?
    ensures Inv(env, DoEnqueue(s, r), tok') && Progress(s, DoEnqueue(s, r), tok, tok')
  {
    RetryToken(env, s, tok, r);
    var tx, s' := s.retriers[r].tx, DoEnqueue(s, r);
    assert forall j | j in s.jobs :: j < s.nextJob;
    RetrierFrame(s, s', r, tx);
    TokensLocal(env, s, s', tok, tx, Waiting(s.nextJob));
    EnqueueHeld(s, tok, r, s'.jobs[s.nextJob]);
    TokenMovesOn(s, s', tok, tx, Waiting(s.nextJob));
    tok' := tok[tx := Waiting(s.nextJob)];
  }

  // ---------------------------------------------------------------- runs

  lemma {:induction false} WorkerRun(env: Env, s: State, tok: map<nat, Token>, step: Step)
    returns (tok': map<nat, Token>)
    requires Inv(env, s, tok) && Enabled(env, s, step) && Orderly(s, step)
    requires step.Claim? || step.ProviderAccepts? || step.ProviderThrows? || step.SaveResult? || step.Catch? ||
             step.FinishJob?
    ensures Inv(env, Apply(env, s, step), tok') && Progress(s, Apply(env, s, step), tok, tok')
  {
    if step.FinishJob? {
      if s.workers[step.w].phase == Tail(true) {
        tok' := AgainStep(env, s, tok, step.w);
      } else {
        LeaveStep(env, s, tok, step.w);
        tok' := tok;
      }
    } else {
      tok' := WorkStep(env, s, tok, step.w, step);
    }
  }

  lemma {:induction false} OrderlyStep(env: Env, s: State, tok: map<nat, Token>, step: Step)
    returns (tok': map<nat, Token>)
    requires Inv(env, s, tok) && Enabled(env, s, step) && Orderly(s, step)
    ensures Inv(env, Apply(env, s, step), tok') && Progress(s, Apply(env, s, step), tok, tok')
  {
    tok' := tok;
    match step {
      case HandleBadge(e) =>
        if e.id !in s.processed {
          NewBadge(env, s, tok, e);
          tok' := tok[s.nextTx := Waiting(s.nextJob)];
        }
      case StartJob(w, j) => tok' := StartStep(env, s, tok, w, j);
      case SelectFailed(r, tx, manual, now) =>
        SelectStep(env, s, tok, r, tx, now);
        tok' := tok[tx := Retrying(r)];
      case Recheck(r) => RecheckStep(env, s, tok, r);
      case Requeue(r) => RequeueStep(env, s, tok, r);
      case Enqueue(r) => tok' := EnqueueStep(env, s, tok, r);
      case SaveHook(h) =>
      case _ => tok' := WorkerRun(env, s, tok, step);
    }
  }
}
