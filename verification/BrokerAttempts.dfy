/** How often a handler runs: the documented five attempts, the sixth run, and the delays before it. */
module BrokerAttempts {
  import opened Broker
  import opened BrokerSafety

  /** Every retry waits exactly twice as long as the one before, at most 16 seconds: the cap is never in play. */
  lemma CapNeverReached(k: nat)
    requires k < MAX_RETRIES
    ensures Delay(k) == BASE_DELAY * Pow2(k) <= 16000 < MAX_DELAY
  {
    assert Pow2(1) == 2 && Pow2(2) == 4 && Pow2(3) == 8 && Pow2(4) == 16;
  }

  lemma SettleKeepsTally(own: bool, s: State, hd: Handler, nack: bool)
    ensures Settle(own, s, hd, nack).tally == s.tally
  {
  }

  lemma EndOfRunCounts(own: bool, s: State, h: nat)
    requires h in s.handlers
    ensures var m := s.handlers[h].msg;
            && TallyOf(DoSucceed(own, s, h), m).runs == TallyOf(s, m).runs + 1
            && TallyOf(DoFail(own, s, h), m).runs == TallyOf(s, m).runs + 1
  {
    var hd := s.handlers[h];
    var t := TallyOf(s, hd.msg);
    SettleKeepsTally(own, Returned(s, h, t.(runs := t.runs + 1)).(done := s.done + {hd.msg}), hd, false);
    SettleKeepsTally(own, Returned(s, h, Failed(t, 0)), hd, true);
    SettleKeepsTally(own, Requeued(Returned(s, h, Failed(t, Delay(hd.header))), hd), hd, false);
  }

  /** The header a handler was given is the number of earlier runs, so ending it makes the next. */
  lemma RunIsHeaderPlusOne(own: bool, steps: seq<Step>, s: State, h: nat)
    requires IsRun(own, Init, steps, s) && CalmRun(own, Init, steps) && h in s.handlers
    ensures var hd := s.handlers[h];
            && hd.header <= MAX_RETRIES
            && TallyOf(DoSucceed(own, s, h), hd.msg).runs == hd.header + 1
            && TallyOf(DoFail(own, s, h), hd.msg).runs == hd.header + 1
  {
    CalmRunPreserves(own, Init, steps, s);
    var c := CalmHandler(s, h);
    EndOfRunCounts(own, s, h);
  }

  /**
   * When the sixth run happens: without connection loss, the handler run that ends now is its message's
   * sixth if and only if the message was delivered with header 5, and none is ever later than that.
   */
  lemma SixthRunIffFiveRetries(own: bool, steps: seq<Step>, s: State, h: nat)
    requires IsRun(own, Init, steps, s) && CalmRun(own, Init, steps) && h in s.handlers
    ensures var hd := s.handlers[h];
            && (TallyOf(DoSucceed(own, s, h), hd.msg).runs == MAX_RETRIES + 1 <==> hd.header == MAX_RETRIES)
            && (TallyOf(DoFail(own, s, h), hd.msg).runs == MAX_RETRIES + 1 <==> hd.header == MAX_RETRIES)
            && TallyOf(DoFail(own, s, h), hd.msg).runs <= MAX_RETRIES + 1
  {
    RunIsHeaderPlusOne(own, steps, s, h);
  }

  // ---------------------------------------------------------------- it does happen

  lemma {:induction false} CalmConcat(own: bool, s: State, a: seq<Step>, mid: State, b: seq<Step>, s': State)
    requires IsRun(own, s, a, mid) && CalmRun(own, s, a) && IsRun(own, mid, b, s') && CalmRun(own, mid, b)
    ensures IsRun(own, s, a + b, s') && CalmRun(own, s, a + b)
    decreases a
  {
    if a == [] {
      assert a + b == b;
    } else {
      assert (a + b)[1..] == a[1..] + b;
      CalmConcat(own, Apply(own, s, a[0]), a[1..], mid, b, s');
    }
  }

  lemma CalmOne(own: bool, s: State, step: Step)
    requires Enabled(s, step) && Calm(s, step)
    ensures IsRun(own, s, [step], Apply(own, s, step)) && CalmRun(own, s, [step])
  {
    assert [step][1..] == [];
  }

  /** Message 0 after k failed runs, back in the main queue. */
  function AfterRetries(k: nat): (s: State)
    requires k <= MAX_RETRIES
  {
    State(map[k := Copy(0, k, Main)], k + 1, true, 0, map[], k + 1, map[], {0}, {},
          if k == 0 then map[] else map[0 := Tally(k, k, BASE_DELAY * (Pow2(k) - 1))])
  }

  lemma FailOnce(own: bool, k: nat)
    requires k < MAX_RETRIES
    ensures var d := DoDeliver(AfterRetries(k), 0, k);
            && Enabled(AfterRetries(k), Deliver(0, k)) && Enabled(d, Fail(0))
            && Enabled(DoFail(own, d, 0), Expire(k + 1))
            && Apply(own, DoFail(own, d, 0), Expire(k + 1)) == AfterRetries(k + 1)
  {
    CapNeverReached(k);
    var s := AfterRetries(k);
    var d := DoDeliver(s, 0, k);
    var f := DoFail(own, d, 0);
    assert f.copies == map[k + 1 := Copy(0, k + 1, Retry)];
    assert f.unacked == map[] && f.handlers == map[];
    assert f.tally == map[0 := Tally(k + 1, k + 1, BASE_DELAY * (Pow2(k + 1) - 1))];
  }

  lemma FailRun(own: bool, k: nat) returns (steps: seq<Step>)
    requires k < MAX_RETRIES
    ensures IsRun(own, AfterRetries(k), steps, AfterRetries(k + 1)) && CalmRun(own, AfterRetries(k), steps)
  {
    var s := AfterRetries(k);
    var d := DoDeliver(s, 0, k);
    FailOnce(own, k);
    CalmOne(own, s, Deliver(0, k));
    CalmOne(own, d, Fail(0));
    CalmOne(own, DoFail(own, d, 0), Expire(k + 1));
    CalmConcat(own, s, [Deliver(0, k)], d, [Fail(0)], DoFail(own, d, 0));
    CalmConcat(own, s, [Deliver(0, k)] + [Fail(0)], DoFail(own, d, 0), [Expire(k + 1)], AfterRetries(k + 1));
    steps := [Deliver(0, k)] + [Fail(0)] + [Expire(k + 1)];
  }

  lemma {:induction false} RetriesRun(own: bool, k: nat) returns (steps: seq<Step>)
    requires k <= MAX_RETRIES
    ensures IsRun(own, Init, steps, AfterRetries(k)) && CalmRun(own, Init, steps)
  {
    if k == 0 {
      CalmOne(own, Init, Publish(0));
      assert Apply(own, Init, Publish(0)) == AfterRetries(0);
      steps := [Publish(0)];
    } else {
      var a := RetriesRun(own, k - 1);
      var b := FailRun(own, k - 1);
      CalmConcat(own, Init, a, AfterRetries(k - 1), b, AfterRetries(k));
      steps := a + b;
    }
  }

  /** A message whose handler always fails is run six times, one more than documented, before it is buried. */
  lemma RunsSixTimes(own: bool) returns (steps: seq<Step>, s: State)
    ensures IsRun(own, Init, steps, s) && CalmRun(own, Init, steps)
    ensures TallyOf(s, 0) == Tally(6, 6, 31000) && s.copies == map[5 := Copy(0, 5, Dead)]
  {
    var a := RetriesRun(own, MAX_RETRIES);
    var s5 := AfterRetries(MAX_RETRIES);
    var d := DoDeliver(s5, 0, 5);
    CalmOne(own, s5, Deliver(0, 5));
    CalmOne(own, d, Fail(0));
    s := DoFail(own, d, 0);
    CalmConcat(own, s5, [Deliver(0, 5)], d, [Fail(0)], s);
    CalmConcat(own, Init, a, s5, [Deliver(0, 5)] + [Fail(0)], s);
    steps := a + ([Deliver(0, 5)] + [Fail(0)]);
    assert Pow2(5) == 32 by {
      assert Pow2(1) == 2 && Pow2(2) == 4 && Pow2(3) == 8 && Pow2(4) == 16;
    }
  }
}
