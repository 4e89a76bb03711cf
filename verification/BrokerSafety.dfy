/** No message is lost, and how often one is handled: with and without connection loss. */
module BrokerSafety {
  import opened Broker

  // ---------------------------------------------------------------- deliveries and their tags

  predicate IsSettle(step: Step) {
    step.Succeed? || step.Fail? || step.Malformed?
  }

  /** The settle happens on the channel the delivery came from, or cannot be sent at all. */
  predicate Fresh(own: bool, s: State, step: Step) {
    IsSettle(step) ==> step.h in s.handlers && (own || !s.connected || s.handlers[step.h].epoch == s.epoch)
  }

  predicate TagsOk(s: State) {
    && (forall t | t in s.unacked ::
          t < s.nextTag && s.unacked[t] in s.copies && s.copies[s.unacked[t]].place == Unacked)
    && (forall t, u | t in s.unacked && u in s.unacked && s.unacked[t] == s.unacked[u] :: t == u)
    && (forall c | c in s.copies :: c < s.nextCopy)
    && (!s.connected ==> s.unacked == map[])
  }

  predicate HandlerOk(s: State, hd: Handler) {
    && hd.epoch <= s.epoch
    && (s.connected && hd.epoch == s.epoch ==>
          hd.tag in s.unacked && s.unacked[hd.tag] in s.copies &&
            s.copies[s.unacked[hd.tag]] == Copy(hd.msg, hd.header, Unacked))
  }

  predicate HandlersOk(s: State)
    requires TagsOk(s)
  {
    && (forall h | h in s.handlers :: HandlerOk(s, s.handlers[h]))
    && (forall g, h | g in s.handlers && h in s.handlers && s.handlers[g].epoch == s.handlers[h].epoch == s.epoch &&
                      s.handlers[g].tag == s.handlers[h].tag :: g == h)
  }

  predicate HasCopy(s: State, m: nat) {
    exists c :: c in s.copies && s.copies[c].msg == m
  }

  /** Copies and handlers only concern published messages. */
  predicate KnownOnly(s: State) {
    && (forall c | c in s.copies :: s.copies[c].msg in s.published)
    && (forall h | h in s.handlers :: s.handlers[h].msg in s.published)
  }

  /** A published message that no handler has finished is still stored somewhere. */
  predicate NeverLost(s: State) {
    forall m | m in s.published && m !in s.done :: HasCopy(s, m)
  }

  predicate Inv(s: State) {
    TagsOk(s) && HandlersOk(s) && KnownOnly(s) && NeverLost(s)
  }

  lemma {:induction false} KeepsCopy(s: State, s': State, m: nat)
    requires HasCopy(s, m) && forall c | c in s.copies && s.copies[c].msg == m ::
              c in s'.copies && s'.copies[c].msg == m
    ensures HasCopy(s', m)
  {
    var c :| c in s.copies && s.copies[c].msg == m;
    assert c in s'.copies;
  }

  lemma {:induction false} LosePreserves(s: State)
    requires Inv(s)
    ensures Inv(Lose(s))
  {
    forall m | m in s.published && m !in s.done ensures HasCopy(Lose(s), m) {
      KeepsCopy(s, Lose(s), m);
    }
  }

  /** No other handler of the current channel holds the tag. */
  predicate OthersTag(s: State, hd: Handler) {
    forall g | g in s.handlers && s.handlers[g].epoch == hd.epoch == s.epoch :: s.handlers[g].tag != hd.tag
  }

  /** A fresh settle removes, or buries, exactly the copy the handler was given. */
  lemma {:induction false} SettlePreserves(own: bool, s: State, hd: Handler, nack: bool)
    requires TagsOk(s) && KnownOnly(s) && HandlersOk(s) && HandlerOk(s, hd)
    requires own || !s.connected || hd.epoch == s.epoch
    requires OthersTag(s, hd)
    requires forall m | m in s.published && m !in s.done && (m != hd.msg || nack) :: HasCopy(s, m)
    requires !nack && hd.msg !in s.done ==>
             exists c :: c in s.copies && s.copies[c].msg == hd.msg && s.copies[c].place != Unacked
    ensures Inv(Settle(own, s, hd, nack))
  {
    var s' := Settle(own, s, hd, nack);
    if s.connected && hd.epoch == s.epoch {
      forall g | g in s'.handlers ensures HandlerOk(s', s'.handlers[g]) {
        assert HandlerOk(s, s.handlers[g]);
      }
    }
    forall m | m in s'.published && m !in s'.done ensures HasCopy(s', m) {
      if m != hd.msg || nack {
        KeepsCopy(s, s', m);
      } else {
        var d :| d in s.copies && s.copies[d].msg == m && s.copies[d].place != Unacked;
        assert d in s'.copies && s'.copies[d].msg == m;
      }
    }
  }

  lemma {:induction false} SucceedPreserves(own: bool, s: State, h: nat)
    requires Inv(s) && Enabled(s, Succeed(h)) && Fresh(own, s, Succeed(h))
    ensures Inv(DoSucceed(own, s, h))
  {
    var hd := s.handlers[h];
    var t := TallyOf(s, hd.msg);
    SettlePreserves(own, Returned(s, h, t.(runs := t.runs + 1)).(done := s.done + {hd.msg}), hd, false);
  }

  /** The retry copy added before the settle disturbs nothing. */
  lemma {:induction false} RequeueKeeps(s: State, hd: Handler)
    requires Inv(s) && hd.msg in s.published
    ensures Inv(Requeued(s, hd)) && Requeued(s, hd).copies[s.nextCopy] == Copy(hd.msg, hd.header + 1, Retry)
    ensures HandlerOk(s, hd) ==> HandlerOk(Requeued(s, hd), hd)
  {
    var s' := Requeued(s, hd);
    forall m | m in s.published && m !in s.done ensures HasCopy(s', m) {
      KeepsCopy(s, s', m);
    }
    forall g | g in s'.handlers ensures HandlerOk(s', s'.handlers[g]) {
      assert HandlerOk(s, s.handlers[g]);
    }
  }

  lemma {:induction false} ReturnKeeps(s: State, h: nat, t: Tally)
    requires Inv(s) && h in s.handlers
    ensures Inv(Returned(s, h, t)) && HandlerOk(Returned(s, h, t), s.handlers[h]) && s.handlers[h].msg in s.published
    ensures OthersTag(Returned(s, h, t), s.handlers[h])
  {
    assert forall m | HasCopy(s, m) :: HasCopy(Returned(s, h, t), m);
    assert HandlerOk(s, s.handlers[h]);
  }

  lemma {:induction false} BuryPreserves(own: bool, s: State, h: nat, t: Tally)
    requires Inv(s) && h in s.handlers && Fresh(own, s, Fail(h))
    ensures Inv(Buried(own, s, h, t))
  {
    ReturnKeeps(s, h, t);
    SettlePreserves(own, Returned(s, h, t), s.handlers[h], true);
  }

  lemma {:induction false} RetryPreserves(own: bool, s: State, h: nat, t: Tally)
    requires Inv(s) && h in s.handlers && Fresh(own, s, Fail(h))
    ensures Inv(Retried(own, s, h, t))
  {
    ReturnKeeps(s, h, t);
    RequeueKeeps(Returned(s, h, t), s.handlers[h]);
    SettlePreserves(own, Requeued(Returned(s, h, t), s.handlers[h]), s.handlers[h], false);
  }

  lemma {:induction false} FailPreserves(own: bool, s: State, h: nat)
    requires Inv(s) && h in s.handlers && Fresh(own, s, Fail(h))
    ensures Inv(DoFail(own, s, h))
  {
    var hd := s.handlers[h];
    var t := TallyOf(s, hd.msg);
    if hd.header >= MAX_RETRIES || !s.connected {
      BuryPreserves(own, s, h, Failed(t, 0));
    } else {
      RetryPreserves(own, s, h, Failed(t, Delay(hd.header)));
    }
  }

  lemma {:induction false} MalformedPreserves(own: bool, s: State, h: nat)
    requires Inv(s) && h in s.handlers && Fresh(own, s, Malformed(h))
    ensures Inv(DoMalformed(own, s, h))
  {
    BuryPreserves(own, s, h, TallyOf(s, s.handlers[h].msg));
  }

  lemma {:induction false} DeliverPreserves(s: State, h: nat, c: nat)
    requires Inv(s) && Enabled(s, Deliver(h, c))
    ensures Inv(DoDeliver(s, h, c))
  {
    var s' := DoDeliver(s, h, c);
    forall g | g in s'.handlers ensures HandlerOk(s', s'.handlers[g]) {
      if g != h {
        assert HandlerOk(s, s.handlers[g]);
      }
    }
    forall m | m in s'.published && m !in s'.done ensures HasCopy(s', m) {
      KeepsCopy(s, s', m);
    }
  }

  lemma {:induction false} QuietPreserves(own: bool, s: State, step: Step)
    requires Inv(s) && Enabled(s, step) && (step.Publish? || step.Expire? || step.Reconnect?)
    ensures Inv(Apply(own, s, step))
  {
    var s' := Apply(own, s, step);
    if step.Publish? {
      assert s'.copies[s.nextCopy].msg == step.m;
    }
    forall k | k in s.published && k !in s.done ensures HasCopy(s', k) {
      KeepsCopy(s, s', k);
    }
    forall g | g in s'.handlers ensures HandlerOk(s', s'.handlers[g]) {
      assert HandlerOk(s, s.handlers[g]);
    }
  }

  lemma {:induction false} DiePreserves(s: State)
    requires Inv(s)
    ensures Inv(Lose(s).(handlers := map[]))
  {
    LosePreserves(s);
    assert forall m | HasCopy(Lose(s), m) :: HasCopy(Lose(s).(handlers := map[]), m);
  }

  lemma {:induction false} StepPreservesInv(own: bool, s: State, step: Step)
    requires Inv(s) && Enabled(s, step) && Fresh(own, s, step)
    ensures Inv(Apply(own, s, step))
  {
    match step
    case Succeed(h) => SucceedPreserves(own, s, h);
    case Fail(h) => FailPreserves(own, s, h);
    case Malformed(h) => MalformedPreserves(own, s, h);
    case Deliver(h, c) => DeliverPreserves(s, h, c);
    case LoseConnection => LosePreserves(s);
    case Die => DiePreserves(s);
    case _ => QuietPreserves(own, s, step);
  }

  lemma {:induction false} SettleKnown(own: bool, s: State, hd: Handler, nack: bool)
    requires KnownOnly(s)
    ensures KnownOnly(Settle(own, s, hd, nack)) && Settle(own, s, hd, nack).published == s.published
  {
  }

  lemma {:induction false} EndKnown(own: bool, s: State, h: nat, t: Tally)
    requires KnownOnly(s) && h in s.handlers
    ensures KnownOnly(Buried(own, s, h, t)) && Buried(own, s, h, t).published == s.published
    ensures KnownOnly(Retried(own, s, h, t)) && Retried(own, s, h, t).published == s.published
  {
    SettleKnown(own, Returned(s, h, t), s.handlers[h], true);
    SettleKnown(own, Requeued(Returned(s, h, t), s.handlers[h]), s.handlers[h], false);
  }

  /** Whatever happens, stale settles included, only published messages are stored or handled. */
  lemma {:induction false} KnownOnlyKept(own: bool, s: State, step: Step)
    requires KnownOnly(s) && Enabled(s, step)
    ensures KnownOnly(Apply(own, s, step))
    ensures Apply(own, s, step).published == s.published + (if step.Publish? then {step.m} else {})
  {
    match step
    case Succeed(h) =>
      var t := TallyOf(s, s.handlers[h].msg);
      SettleKnown(own, Returned(s, h, t.(runs := t.runs + 1)).(done := s.done + {s.handlers[h].msg}), s.handlers[h],
        false);
    case Fail(h) =>
      var t := TallyOf(s, s.handlers[h].msg);
      EndKnown(own, s, h, Failed(t, 0));
      EndKnown(own, s, h, Failed(t, Delay(s.handlers[h].header)));
    case Malformed(h) => EndKnown(own, s, h, TallyOf(s, s.handlers[h].msg));
    case _ =>
  }

  /** Every settle of the run is sent on the channel of its delivery. */
  ghost predicate FreshRun(own: bool, s: State, steps: seq<Step>)
    decreases steps
  {
    steps == [] || (Enabled(s, steps[0]) && Fresh(own, s, steps[0]) &&
      FreshRun(own, Apply(own, s, steps[0]), steps[1..]))
  }

  lemma {:induction false} RunPreservesInv(own: bool, s: State, steps: seq<Step>, s': State)
    requires Inv(s) && IsRun(own, s, steps, s') && FreshRun(own, s, steps)
    ensures Inv(s')
    decreases steps
  {
    if steps != [] {
      StepPreservesInv(own, s, steps[0]);
      RunPreservesInv(own, Apply(own, s, steps[0]), steps[1..], s');
    }
  }

  lemma {:induction false} OwnRunsAreFresh(s: State, steps: seq<Step>, s': State)
    requires IsRun(true, s, steps, s')
    ensures FreshRun(true, s, steps)
    decreases steps
  {
    if steps != [] {
      OwnRunsAreFresh(Apply(true, s, steps[0]), steps[1..], s');
    }
  }

  lemma {:induction false} RunConcat(own: bool, s: State, a: seq<Step>, mid: State, b: seq<Step>, s': State)
    requires IsRun(own, s, a, mid) && IsRun(own, mid, b, s')
    ensures IsRun(own, s, a + b, s')
    decreases a
  {
    if a == [] {
      assert a + b == b;
    } else {
      assert (a + b)[1..] == a[1..] + b;
      RunConcat(own, Apply(own, s, a[0]), a[1..], mid, b, s');
    }
  }

  lemma {:induction false} OneStepRun(own: bool, s: State, step: Step)
    requires Enabled(s, step)
    ensures IsRun(own, s, [step], Apply(own, s, step))
  {
    assert IsRun(own, Apply(own, s, step), [step][1..], Apply(own, s, step));
  }

  /** A handler outlives its channel while the next channel hands out the same tag again. */
  lemma {:induction false} SameTagTwice() returns (steps: seq<Step>, s: State)
    ensures IsRun(false, Init, steps, s)
    ensures s.connected && s.epoch == 1 && s.unacked == map[1 := 1]
    ensures s.copies == map[0 := Copy(0, 0, Main), 1 := Copy(1, 0, Unacked)]
    ensures s.handlers == map[0 := Handler(0, 1, 0, 0), 1 := Handler(1, 1, 1, 0)]
    ensures s.published == {0, 1} && s.done == {}
  {
    var p, d, l, r, q, e := Publish(0), Deliver(0, 0), LoseConnection, Reconnect, Publish(1), Deliver(1, 1);
    var s1 := Apply(false, Init, p);
    var s2 := Apply(false, s1, d);
    var s3 := Apply(false, s2, l);
    var s4 := Apply(false, s3, r);
    var s5 := Apply(false, s4, q);
    s := Apply(false, s5, e);
    OneStepRun(false, Init, p); OneStepRun(false, s1, d); OneStepRun(false, s2, l);
    OneStepRun(false, s3, r); OneStepRun(false, s4, q); OneStepRun(false, s5, e);
    RunConcat(false, Init, [p], s1, [d], s2);
    RunConcat(false, Init, [p] + [d], s2, [l], s3);
    RunConcat(false, Init, [p] + [d] + [l], s3, [r], s4);
    RunConcat(false, Init, [p] + [d] + [l] + [r], s4, [q], s5);
    RunConcat(false, Init, [p] + [d] + [l] + [r] + [q], s5, [e], s);
    steps := [p] + [d] + [l] + [r] + [q] + [e];
  }

  /** The late acknowledgement of message 0 removes the only copy of message 1, unfinished. */
  lemma {:induction false} LateAckLosesAMessage() returns (steps: seq<Step>, s: State)
    ensures IsRun(false, Init, steps, s) && !NeverLost(s)
  {
    var before, mid := SameTagTwice();
    OneStepRun(false, mid, Succeed(0));
    s := Apply(false, mid, Succeed(0));
    steps := before + [Succeed(0)];
    RunConcat(false, Init, before, mid, [Succeed(0)], s);
    assert 1 in s.published && 1 !in s.done && !HasCopy(s, 1);
  }

  ghost predicate LosesNothing(own: bool) {
    forall steps, s | IsRun(own, Init, steps, s) :: NeverLost(s)
  }

  /**
   * With connection loss copies may multiply, and an unfinished message keeps a copy in every run, exactly
   * when a settle is confined to the channel of its delivery.
   */
  lemma {:induction false} NeverLostIffOwnChannel(own: bool)
    ensures LosesNothing(own) <==> own
  {
    if own {
      forall steps, s | IsRun(own, Init, steps, s) ensures NeverLost(s) {
        OwnRunsAreFresh(Init, steps, s);
        RunPreservesInv(own, Init, steps, s);
      }
    } else {
      var steps, s := LateAckLosesAMessage();
    }
  }

  // ---------------------------------------------------------------- runs without connection loss

  /** No connection is lost and no message is published twice. */
  predicate Calm(s: State, step: Step) {
    && !step.LoseConnection? && !step.Die? && !step.Reconnect?
    && (step.Publish? ==> step.m !in s.published)
  }

  ghost predicate CalmRun(own: bool, s: State, steps: seq<Step>)
    decreases steps
  {
    steps == [] || (Enabled(s, steps[0]) && Calm(s, steps[0]) && CalmRun(own, Apply(own, s, steps[0]), steps[1..]))
  }

  predicate OneCopy(s: State, m: nat) {
    exists c :: c in s.copies && s.copies[c].msg == m && forall d :: d in s.copies && s.copies[d].msg == m ==> d == c
  }

  function Waited(k: nat): (w: int) {
    BASE_DELAY * (Pow2(k) - 1)
  }

  lemma {:induction false} WaitedGrows(k: nat)
    requires k < MAX_RETRIES
    ensures Waited(k) + Delay(k) == Waited(k + 1) && Waited(0) == 0 <= Waited(k) <= 31000 &&
            Waited(MAX_RETRIES) == 31000
  {
    assert Pow2(1) == 2 && Pow2(2) == 4 && Pow2(3) == 8 && Pow2(4) == 16 && Pow2(5) == 32;
  }

  /** What a waiting or running copy, and a buried one, say about the failures so far. */
  predicate CopyAccount(c: Copy, t: Tally) {
    if c.place == Dead && t.fails == MAX_RETRIES + 1 then
      c.header == MAX_RETRIES && t.runs == t.fails && t.waited == Waited(MAX_RETRIES)
    else
      c.header == t.fails == t.runs <= MAX_RETRIES && t.waited == Waited(t.fails)
  }

  predicate DoneAccount(t: Tally) {
    t.fails <= MAX_RETRIES && t.runs == t.fails + 1 && t.waited == Waited(t.fails)
  }

  /** At most one copy of a message, none once it is finished, and matching counts. */
  predicate Ledger(copies: map<nat, Copy>, published: set<nat>, done: set<nat>, tally: map<nat, Tally>) {
    && (forall c, d | c in copies && d in copies && copies[c].msg == copies[d].msg :: c == d)
    && (forall c | c in copies ::
          copies[c].msg in published && copies[c].msg !in done && CopyAccount(copies[c], TallyIn(tally, copies[c].msg)))
    && (forall m | m in done :: m in published && DoneAccount(TallyIn(tally, m)))
    && (forall m | m in tally :: m in published)
  }

  predicate CalmInv(s: State) {
    && Inv(s) && s.connected
    && (forall h | h in s.handlers :: s.handlers[h].epoch == s.epoch)
    && Ledger(s.copies, s.published, s.done, s.tally)
  }

  lemma {:induction false} LedgerFinish(copies: map<nat, Copy>, published: set<nat>, done: set<nat>, tally: map<nat,
      Tally>, c: nat, t: Tally)
    requires Ledger(copies, published, done, tally) && c in copies && DoneAccount(t)
    ensures Ledger(copies - {c}, published, done + {copies[c].msg}, tally[copies[c].msg := t])
  {
  }

  lemma {:induction false} LedgerMove(copies: map<nat, Copy>, published: set<nat>, done: set<nat>, tally: map<nat,
      Tally>, c: nat, x: Copy, t: Tally)
    requires Ledger(copies, published, done, tally) && c in copies && x.msg == copies[c].msg && CopyAccount(x, t)
    ensures Ledger(copies[c := x], published, done, tally[x.msg := t])
    ensures t == TallyIn(tally, x.msg) ==> Ledger(copies[c := x], published, done, tally)
  {
  }

  lemma {:induction false} LedgerReplace(copies: map<nat, Copy>, published: set<nat>, done: set<nat>, tally: map<nat,
      Tally>, c: nat, n: nat, x: Copy, t: Tally)
    requires Ledger(copies, published, done, tally) && c in copies && n !in copies && x.msg == copies[c].msg &&
             CopyAccount(x, t)
    ensures Ledger(copies[n := x] - {c}, published, done, tally[x.msg := t])
  {
  }

  /** In a calm state the copy behind a handler is the one it was given. */
  lemma {:induction false} CalmHandler(s: State, h: nat) returns (c: nat)
    requires CalmInv(s) && h in s.handlers
    ensures s.handlers[h].epoch == s.epoch && s.handlers[h].tag in s.unacked && s.unacked[s.handlers[h].tag] == c
    ensures c in s.copies && s.copies[c] == Copy(s.handlers[h].msg, s.handlers[h].header, Unacked) &&
            s.nextCopy !in s.copies
    ensures CopyAccount(s.copies[c], TallyOf(s, s.handlers[h].msg))
  {
    assert HandlerOk(s, s.handlers[h]);
    c := s.unacked[s.handlers[h].tag];
  }

  lemma {:induction false} SucceedParts(own: bool, s: State, h: nat, c: nat)
    requires s.connected && h in s.handlers && s.handlers[h].epoch == s.epoch && s.handlers[h].tag in s.unacked &&
             s.unacked[s.handlers[h].tag] == c
    ensures var hd := s.handlers[h]; var t := TallyOf(s, hd.msg); var s' := DoSucceed(own, s, h);
            && s'.copies == s.copies - {c} && s'.tally == s.tally[hd.msg := t.(runs := t.runs + 1)]
            && s'.published == s.published && s'.done == s.done + {hd.msg} && s'.connected && s'.epoch == s.epoch &&
               s'.handlers == s.handlers - {h}
  {
  }

  lemma {:induction false} CalmSucceed(own: bool, s: State, h: nat)
    requires CalmInv(s) && h in s.handlers
    ensures CalmInv(DoSucceed(own, s, h))
  {
    var c := CalmHandler(s, h);
    var t := TallyOf(s, s.handlers[h].msg);
    SucceedParts(own, s, h, c);
    LedgerFinish(s.copies, s.published, s.done, s.tally, c, t.(runs := t.runs + 1));
    SucceedPreserves(own, s, h);
  }

  lemma {:induction false} CalmBury(own: bool, s: State, h: nat, t: Tally)
    requires CalmInv(s) && h in s.handlers && CopyAccount(Copy(s.handlers[h].msg, s.handlers[h].header, Dead), t)
    ensures CalmInv(Buried(own, s, h, t))
  {
    var c := CalmHandler(s, h);
    LedgerMove(s.copies, s.published, s.done, s.tally, c, s.copies[c].(place := Dead), t);
    BuryPreserves(own, s, h, t);
  }

  lemma {:induction false} RetryParts(own: bool, s: State, h: nat, t: Tally, c: nat)
    requires s.connected && h in s.handlers && s.handlers[h].epoch == s.epoch && s.handlers[h].tag in s.unacked
    requires s.unacked[s.handlers[h].tag] == c && c != s.nextCopy
    ensures var hd := s.handlers[h]; var s' := Retried(own, s, h, t);
            && s'.copies == s.copies[s.nextCopy := Copy(hd.msg, hd.header + 1, Retry)] - {c} &&
               s'.tally == s.tally[hd.msg := t]
            && s'.published == s.published && s'.done == s.done && s'.connected && s'.epoch == s.epoch &&
               s'.handlers == s.handlers - {h}
  {
  }

  lemma {:induction false} CalmRetry(own: bool, s: State, h: nat, t: Tally)
    requires CalmInv(s) && h in s.handlers && CopyAccount(Copy(s.handlers[h].msg, s.handlers[h].header + 1, Retry), t)
    ensures CalmInv(Retried(own, s, h, t))
  {
    var c := CalmHandler(s, h);
    RetryParts(own, s, h, t, c);
    LedgerReplace(s.copies, s.published, s.done, s.tally, c, s.nextCopy,
      Copy(s.handlers[h].msg, s.handlers[h].header + 1, Retry), t);
    RetryPreserves(own, s, h, t);
  }

  /** The next failed run adds its delay, or buries the message. */
  lemma {:induction false} FailedAccount(m: nat, header: nat, t: Tally)
    requires CopyAccount(Copy(m, header, Unacked), t)
    ensures header >= MAX_RETRIES ==> CopyAccount(Copy(m, header, Dead), Failed(t, 0))
    ensures header < MAX_RETRIES ==> CopyAccount(Copy(m, header + 1, Retry), Failed(t, Delay(header)))
  {
    if header < MAX_RETRIES {
      WaitedGrows(header);
    }
  }

  lemma {:induction false} CalmFail(own: bool, s: State, h: nat)
    requires CalmInv(s) && h in s.handlers
    ensures CalmInv(DoFail(own, s, h))
  {
    var c := CalmHandler(s, h);
    var hd := s.handlers[h];
    FailedAccount(hd.msg, hd.header, TallyOf(s, hd.msg));
    if hd.header >= MAX_RETRIES {
      CalmBury(own, s, h, Failed(TallyOf(s, hd.msg), 0));
    } else {
      CalmRetry(own, s, h, Failed(TallyOf(s, hd.msg), Delay(hd.header)));
    }
  }

  lemma {:induction false} CalmMalformed(own: bool, s: State, h: nat)
    requires CalmInv(s) && h in s.handlers
    ensures CalmInv(DoMalformed(own, s, h))
  {
    var c := CalmHandler(s, h);
    CalmBury(own, s, h, TallyOf(s, s.handlers[h].msg));
  }

  lemma {:induction false} CalmMove(own: bool, s: State, step: Step)
    requires CalmInv(s) && Enabled(s, step) && (step.Deliver? || step.Expire?)
    ensures CalmInv(Apply(own, s, step))
  {
    LedgerMove(s.copies, s.published, s.done, s.tally, step.c,
      s.copies[step.c].(place := if step.Deliver? then Unacked else Main),
      TallyOf(s, s.copies[step.c].msg));
    StepPreservesInv(own, s, step);
  }

  lemma {:induction false} CalmPublish(own: bool, s: State, m: nat)
    requires CalmInv(s) && m !in s.published
    ensures CalmInv(Apply(own, s, Publish(m)))
  {
    StepPreservesInv(own, s, Publish(m));
    assert Waited(0) == 0;
  }

  lemma {:induction false} CalmStep(own: bool, s: State, step: Step)
    requires CalmInv(s) && Enabled(s, step) && Calm(s, step)
    ensures CalmInv(Apply(own, s, step))
  {
    match step
    case Succeed(h) => CalmSucceed(own, s, h);
    case Fail(h) => CalmFail(own, s, h);
    case Malformed(h) => CalmMalformed(own, s, h);
    case Deliver(h, c) => CalmMove(own, s, step);
    case Expire(c) => CalmMove(own, s, step);
    case Publish(m) => CalmPublish(own, s, m);
  }

  lemma {:induction false} CalmRunPreserves(own: bool, s: State, steps: seq<Step>, s': State)
    requires CalmInv(s) && IsRun(own, s, steps, s') && CalmRun(own, s, steps)
    ensures CalmInv(s')
    decreases steps
  {
    if steps != [] {
      CalmStep(own, s, steps[0]);
      CalmRunPreserves(own, Apply(own, s, steps[0]), steps[1..], s');
    }
  }

  /** A bounded number of runs, and a delay that is a sum of doubling steps. */
  ghost predicate Bounded(t: Tally) {
    && t.fails <= t.runs <= MAX_RETRIES + 1
    && exists k: nat | k <= MAX_RETRIES :: t.waited == Waited(k) <= 31000
  }

  lemma {:induction false} AccountsAreBounded(c: Copy, t: Tally)
    ensures DoneAccount(t) || CopyAccount(c, t) ==> Bounded(t)
  {
    forall k: nat | k < MAX_RETRIES ensures Waited(k) <= 31000 == Waited(MAX_RETRIES) {
      WaitedGrows(k);
    }
    WaitedGrows(0);
  }

  /**
   * Without connection loss every published message is finished or stored in exactly one place, never
   * both; its handler runs at most six times, a stored header counts the failed runs, and the delay after
   * k retries is 1000 * (2^k - 1), at most 31000.
   */
  lemma {:induction false} CalmConservation(own: bool, steps: seq<Step>, s: State, m: nat)
    requires IsRun(own, Init, steps, s) && CalmRun(own, Init, steps) && m in s.published
    ensures (m in s.done) != HasCopy(s, m) && (HasCopy(s, m) ==> OneCopy(s, m))
    ensures Bounded(TallyOf(s, m))
    ensures forall c | c in s.copies && s.copies[c].msg == m && s.copies[c].place != Dead ::
              s.copies[c].header == TallyOf(s, m).fails <= MAX_RETRIES &&
                TallyOf(s, m).waited == Waited(TallyOf(s, m).fails)
  {
    CalmRunPreserves(own, Init, steps, s);
    if m in s.done {
      AccountsAreBounded(Copy(m, 0, Main), TallyOf(s, m));
    } else {
      assert HasCopy(s, m);
      var c :| c in s.copies && s.copies[c].msg == m;
      AccountsAreBounded(s.copies[c], TallyOf(s, m));
      assert forall d | d in s.copies && s.copies[d].msg == m :: d == c;
    }
  }

  // ---------------------------------------------------------------- how a delivery ends

  /** A parsed delivery whose handler rejects: dead-lettered after five retries, otherwise one later retry copy. */
  lemma FailMeans(s: State, h: nat, c: nat)
    requires h in s.handlers && s.connected && c in s.copies && s.nextCopy !in s.copies
    requires s.handlers[h].tag in s.unacked && s.unacked[s.handlers[h].tag] == c
    ensures var hd, s' := s.handlers[h], Apply(false, s, Fail(h));
      && s'.handlers == s.handlers - {h} && s'.unacked == s.unacked - {hd.tag} && s'.connected && s'.done == s.done
      && s'.copies == if hd.header >= 5 then s.copies[c := s.copies[c].(place := Dead)]
                      else (s.copies - {c})[s.nextCopy := Copy(hd.msg, hd.header + 1, Retry)]
  {
  }

  /** With no channel set neither the retry copy nor the settle goes out: the broker keeps what it has. */
  lemma FailWithoutChannel(own: bool, s: State, h: nat)
    requires h in s.handlers && !s.connected
    ensures var s' := Apply(own, s, Fail(h));
            s'.copies == s.copies && s'.unacked == s.unacked && s'.done == s.done && s'.handlers == s.handlers - {h}
  {
  }

  /** Everything that was unacknowledged is ready again, the rest as it was. */
  predicate TakenBack(copies: map<nat, Copy>, copies': map<nat, Copy>) {
    && copies'.Keys == copies.Keys
    && forall c | c in copies ::
         && copies'[c].msg == copies[c].msg && copies'[c].header == copies[c].header
         && copies'[c].place == if copies[c].place == Unacked then Main else copies[c].place
  }

  /** An unknown tag closes the channel; the death of the consumer does too, and ends its handlers. */
  lemma ChannelCloses(own: bool, s: State, h: nat)
    ensures h in s.handlers && s.connected && s.handlers[h].tag !in s.unacked &&
            (own ==> s.handlers[h].epoch == s.epoch) ==>
              var s' := Apply(own, s, Malformed(h));
              !s'.connected && s'.unacked == map[] && TakenBack(s.copies, s'.copies)
    ensures var s' := Apply(own, s, Die);
            !s'.connected && s'.unacked == map[] && s'.handlers == map[] && TakenBack(s.copies, s'.copies)
  {
  }
}
