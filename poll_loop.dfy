/**
 * One iteration of the `while True` loop in `main`: fetch the passes,
 * classify the time to the next rise, apply the overhead rules, emit the
 * state when it changed and choose how long to sleep.
 *
 * The clock, the HTTP fetch and the serial write outcome are inputs; the
 * sleep is returned instead of performed.
 */
module PollLoop {
  import opened Wrappers
  import opened IssStates
  import opened Leds

  /** One predicted pass: rise time (epoch seconds) and duration (seconds). */
  datatype Pass = Pass(riseTime: int, duration: int)

  /** What getPassData returned: `{}` for a non-success answer, else the `response` list. */
  datatype Fetch = Failed | Passes(passes: seq<Pass>)

  /** The loop does not sleep before the next fetch, or sleeps the given seconds. */
  datatype Delay = Immediate | Sleep(seconds: int)

  /** The four variables the loop carries between iterations. */
  datatype LoopState = LoopState(lastState: State, currState: State, updateFreq: int, lastPass: Option<Pass>)

  /** The effect of one iteration: the new variables, the state emitted (if any) and the delay. */
  datatype Outcome = Outcome(next: LoopState, emitted: Option<State>, delay: Delay)

  /** Poll interval when the first pass seen is already under way and its duration is unknown. */
  const FirstOverheadInterval := 600
  /** Sleep after a response with the wrong number of passes. */
  const RetryInterval := 10

  /** The variables before the first iteration. */
  function Init(): (s: LoopState)
    ensures s == LoopState(TEST, RECEDING, 120, None)
    ensures s.updateFreq == IssStateTable(RECEDING).value.interval
  {
    LoopState(TEST, RECEDING, IssStateTable(RECEDING).value.interval, None)
  }

  /** What the loop keeps true of its variables from one iteration to the next. */
  ghost predicate Inv(s: LoopState)
  {
    s.currState != TEST &&
    (s.lastState == s.currState || (s.lastState == TEST && s.currState == RECEDING))
  }

  /**
   * The new current state, update frequency and last pass for a fetch with the
   * requested count, whose first pass rises `d` seconds from now.
   */
  function Observe(s: LoopState, next: Pass, d: int): (State, int, Option<Pass>)
  {
    if d < 0 then
      if s.lastPass.None? then (s.currState, FirstOverheadInterval, s.lastPass)
      else (OVERHEAD, s.lastPass.value.duration, s.lastPass)
    else
      match Classify(d)
      case Some(band) => (band.state, band.interval, Some(next))
      case None => (s.currState, s.updateFreq, Some(next))
  }

  /** One iteration of the loop for `n` requested passes, at time `now`. */
  function Next(s: LoopState, fetch: Fetch, now: int, n: int): (o: Outcome)
    requires n >= 1
    ensures o.next.lastState == if o.emitted.Some? then o.emitted.value else s.lastState
    ensures o.emitted.Some? ==> o.next.currState == o.emitted.value
  {
    match fetch
    case Failed => Outcome(s, None, Immediate)
    case Passes(passes) =>
      if |passes| == n then
        var next := passes[0];
        var d := next.riseTime - now;
        var (curr, freq, lastPass) := Observe(s, next, d);
        if s.lastState != curr then
          Outcome(LoopState(curr, curr, freq, lastPass), Some(curr), Sleep(freq))
        else
          Outcome(LoopState(s.lastState, curr, freq, lastPass), None, Sleep(freq))
      else if s.currState == OVERHEAD then
        Outcome(LoopState(RECEDING, RECEDING, s.updateFreq, s.lastPass), Some(RECEDING), Sleep(RetryInterval))
      else
        Outcome(s, None, Sleep(RetryInterval))
  }

  /** Every iteration keeps Inv, never emits TEST, and emits only a state other than the last one emitted. */
  lemma NextKeepsInv(s: LoopState, fetch: Fetch, now: int, n: int)
    requires n >= 1 && Inv(s)
    ensures Inv(Next(s, fetch, now, n).next)
    ensures Next(s, fetch, now, n).emitted != Some(TEST)
    ensures Next(s, fetch, now, n).emitted != Some(s.lastState)
  {
  }

  /** A response that is not "success": nothing changes and the next fetch follows at once. */
  lemma FailedFetchChangesNothing(s: LoopState, now: int, n: int)
    requires n >= 1
    ensures Next(s, Failed, now, n) == Outcome(s, None, Immediate)
  {
  }

  /** A pass that rises in `d >= 0` seconds is remembered; for d > 0 its band decides state and interval. */
  lemma AheadOfPass(s: LoopState, passes: seq<Pass>, now: int, n: int)
    requires n >= 1 && |passes| == n && passes[0].riseTime - now >= 0
    ensures var o := Next(s, Passes(passes), now, n);
            var d := passes[0].riseTime - now;
            o.next.lastPass == Some(passes[0]) &&
            (d > 0 ==> (o.next.currState == Classify(d).value.state &&
                        o.delay == Sleep(Classify(d).value.interval) &&
                        o.next.updateFreq == Classify(d).value.interval)) &&
            (d == 0 ==> (o.next.currState == s.currState && o.next.updateFreq == s.updateFreq &&
                         o.delay == Sleep(s.updateFreq)))
  {
  }

  /**
   * A pass that has already risen: with no pass on record the interval is 600 and the
   * state is kept; otherwise the state is OVERHEAD for the recorded pass's duration.
   * The recorded pass is not replaced either way.
   */
  lemma PassUnderWay(s: LoopState, passes: seq<Pass>, now: int, n: int)
    requires n >= 1 && |passes| == n && passes[0].riseTime - now < 0
    ensures var o := Next(s, Passes(passes), now, n);
            o.next.lastPass == s.lastPass &&
            (s.lastPass.None? ==> (o.next.currState == s.currState && o.delay == Sleep(600) &&
                                   o.next.updateFreq == 600)) &&
            (s.lastPass.Some? ==> (o.next.currState == OVERHEAD &&
                                   o.delay == Sleep(s.lastPass.value.duration) &&
                                   o.next.updateFreq == s.lastPass.value.duration))
  {
  }

  /**
   * Wrong number of passes: an OVERHEAD pass ends (RECEDING is emitted once), any
   * other state is left alone; the loop then sleeps 10 seconds.
   */
  lemma WrongPassCount(s: LoopState, passes: seq<Pass>, now: int, n: int)
    requires n >= 1 && |passes| != n
    ensures var o := Next(s, Passes(passes), now, n);
            o.delay == Sleep(10) &&
            (s.currState == OVERHEAD ==> (o.next == s.(lastState := RECEDING, currState := RECEDING) &&
                                          o.emitted == Some(RECEDING))) &&
            (s.currState != OVERHEAD ==> o == Outcome(s, None, Sleep(10)))
  {
  }

  /**
   * Change-only emission: a response with the requested count emits exactly when the
   * new current state differs from the last state emitted.
   */
  lemma EmitsOnChange(s: LoopState, passes: seq<Pass>, now: int, n: int)
    requires n >= 1 && |passes| == n
    ensures var o := Next(s, Passes(passes), now, n);
            o.emitted.Some? <==> o.next.currState != s.lastState
  {
  }

  /** The first response with the requested count always emits, as the state starts at TEST. */
  lemma FirstMatchEmits(passes: seq<Pass>, now: int, n: int)
    requires n >= 1 && |passes| == n
    ensures Next(Init(), Passes(passes), now, n).emitted.Some?
  {
  }

  /**
   * One poll of the environment: the fetch result, the clock at that moment, and whether
   * a serial write in that iteration would succeed.
   */
  datatype Observation = Observation(fetch: Fetch, now: int, writeOk: bool)

  /**
   * What a run of several iterations produces: the final variables, the states emitted,
   * the states whose serial write succeeded (what reaches the line when serial is on),
   * and the delays.
   */
  datatype Trace = Trace(final: LoopState, emitted: seq<State>, written: seq<State>, delays: seq<Delay>)

  /** The states one iteration emits: none, or the one it emitted. */
  function Emission(o: Outcome): seq<State>
  {
    if o.emitted.Some? then [o.emitted.value] else []
  }

  /** The loop run over a finite prefix of observations, the last observation handled last. */
  function Run(s: LoopState, obs: seq<Observation>, n: int): (t: Trace)
    requires n >= 1
    ensures |t.delays| == |obs|
    decreases |obs|
  {
    if obs == [] then Trace(s, [], [], [])
    else Extend(Run(s, obs[..|obs| - 1], n), obs[|obs| - 1], n)
  }

  /** A trace extended by one more iteration of the loop. */
  function Extend(t: Trace, ob: Observation, n: int): Trace
    requires n >= 1
  {
    var o := Next(t.final, ob.fetch, ob.now, n);
    Trace(o.next, t.emitted + Emission(o), t.written + (if ob.writeOk then Emission(o) else []), t.delays + [o.delay])
  }

  lemma RunPrefix(s: LoopState, obs: seq<Observation>, i: int, n: int)
    requires n >= 1 && 0 <= i < |obs|
    ensures Run(s, obs[..i + 1], n) == Extend(Run(s, obs[..i], n), obs[i], n)
  {
    assert obs[..i + 1][..i] == obs[..i];
  }

  /** When every write succeeds, the line receives exactly the states the loop emitted. */
  lemma {:induction false} WrittenAllWritesOk(s: LoopState, obs: seq<Observation>, n: int)
    requires n >= 1
    requires forall i :: 0 <= i < |obs| ==> obs[i].writeOk
    ensures Run(s, obs, n).written == Run(s, obs, n).emitted
    decreases |obs|
  {
    if obs != [] {
      var k := |obs| - 1;
      assert obs[k].writeOk;
      WrittenAllWritesOk(s, obs[..k], n);
    }
  }

  /** No two consecutive entries of `e` are equal, and none is TEST. */
  predicate Alternating(e: seq<State>)
  {
    (forall i :: 0 <= i < |e| ==> e[i] != TEST) &&
    (forall i :: 0 < i < |e| ==> e[i - 1] != e[i])
  }

  /**
   * Change-only emission over any run: the first state emitted differs from the last one
   * emitted before, no state is emitted twice in a row, and the final `lastState` is the
   * last state emitted.
   */
  lemma {:induction false} RunEmitsChangesOnly(s: LoopState, obs: seq<Observation>, n: int)
    requires n >= 1 && Inv(s)
    ensures var t := Run(s, obs, n);
            Inv(t.final) && Alternating(t.emitted) &&
            (t.emitted != [] ==> t.emitted[0] != s.lastState && t.final.lastState == t.emitted[|t.emitted| - 1]) &&
            (t.emitted == [] ==> t.final.lastState == s.lastState)
    decreases |obs|
  {
    if obs != [] {
      var k := |obs| - 1;
      RunEmitsChangesOnly(s, obs[..k], n);
      var t := Run(s, obs[..k], n);
      NextKeepsInv(t.final, obs[k].fetch, obs[k].now, n);
      var o := Next(t.final, obs[k].fetch, obs[k].now, n);
      assert Run(s, obs, n).final == o.next && Run(s, obs, n).emitted == t.emitted + Emission(o);
      if o.emitted.Some? {
        AlternatingSnoc(t.emitted, o.emitted.value);
        assert t.emitted != [] ==> (t.emitted + [o.emitted.value])[0] == t.emitted[0];
      } else {
        assert t.emitted + Emission(o) == t.emitted;
      }
    }
  }

  lemma AlternatingSnoc(e: seq<State>, x: State)
    requires Alternating(e) && x != TEST && (e != [] ==> e[|e| - 1] != x)
    ensures Alternating(e + [x])
  {
    var e' := e + [x];
    assert forall i :: 0 <= i < |e| ==> e'[i] == e[i];
  }

  /** The loop variables together with the log of states emitted so far. */
  ghost predicate LogInv(v: LoopState, emitted: seq<State>)
  {
    Inv(v) && Alternating(emitted) &&
    v.lastState == (if emitted == [] then TEST else emitted[|emitted| - 1])
  }

  /** An iteration keeps the variables consistent with the emission log extended by its emission. */
  lemma LogInvNext(v: LoopState, emitted: seq<State>, fetch: Fetch, now: int, n: int)
    requires n >= 1 && LogInv(v, emitted)
    ensures var o := Next(v, fetch, now, n);
            LogInv(o.next, emitted + Emission(o))
  {
    NextKeepsInv(v, fetch, now, n);
    var o := Next(v, fetch, now, n);
    if o.emitted.Some? {
      AlternatingSnoc(emitted, o.emitted.value);
    } else {
      assert emitted + Emission(o) == emitted;
    }
  }

  /**
   * The loop itself, as a class holding its variables. `serial` is the result of
   * Leds.setup; `leds` is only written to when it is true.
   */
  class PollLoop {
    const n: int
    const serial: bool
    const leds: Leds
    var lastState: State
    var currState: State
    var updateFreq: int
    var lastPass: Option<Pass>
    /** Every state the loop emitted (whether or not it reached the wire), oldest first. */
    ghost var emitted: seq<State>

    function Vars(): LoopState
      reads this
    {
      LoopState(lastState, currState, updateFreq, lastPass)
    }

    ghost predicate Valid()
      reads this, leds
    {
      1 <= n && serial == leds.configured && LogInv(Vars(), emitted)
    }

    /**
     * The set-up before the loop: the variables take their initial values and, when serial
     * output is on and the program is not quiet, TEST is sent for the operator to check.
     */
    constructor (n: int, leds: Leds, quiet: bool, writeOk: bool)
      requires 1 <= n
      modifies leds
      ensures Valid() && this.n == n && this.leds == leds && serial == old(leds.configured)
      ensures Vars() == Init() && emitted == []
      ensures leds.sent == if serial && !quiet && writeOk then old(leds.sent) + [TEST] else old(leds.sent)
    {
      this.n := n;
      this.serial := leds.configured;
      this.leds := leds;
      lastState := TEST;
      currState := RECEDING;
      updateFreq := IssStateTable(RECEDING).value.interval;
      lastPass := None;
      emitted := [];
      new;
      if !quiet && serial {
        var _ := leds.SendState(TEST, writeOk);
      }
    }

    method Emit(s: State, writeOk: bool)
      requires serial == leds.configured
      modifies this, leds
      ensures lastState == s && emitted == old(emitted) + [s]
      ensures currState == old(currState) && updateFreq == old(updateFreq) && lastPass == old(lastPass)
      ensures leds.configured == old(leds.configured)
      ensures leds.sent == if serial && writeOk then old(leds.sent) + [s] else old(leds.sent)
    {
      lastState := s;
      emitted := emitted + [s];
      if serial {
        var _ := leds.SendState(s, writeOk);
      }
    }

    /** One pass of `while True`; `writeOk` is the outcome of the serial write, if one happens. */
    method Step(fetch: Fetch, now: int, writeOk: bool) returns (delay: Delay)
      requires Valid()
      modifies this, leds
      ensures Valid()
      ensures var o := Next(old(Vars()), fetch, now, n);
              Vars() == o.next && delay == o.delay &&
              emitted == old(emitted) + Emission(o) &&
              leds.sent == old(leds.sent) + (if o.emitted.Some? && serial && writeOk then [o.emitted.value] else [])
    {
      LogInvNext(Vars(), emitted, fetch, now, n);
      match fetch {
        case Failed =>
          delay := Immediate;
        case Passes(passes) =>
          if |passes| == n {
            var next := passes[0];
            var d := next.riseTime - now;
            if d < 0 {
              if lastPass.None? {
                updateFreq := FirstOverheadInterval;
              } else {
                updateFreq := lastPass.value.duration;
                currState := OVERHEAD;
              }
            } else {
              var band := Classify(d);
              if band.Some? {
                updateFreq := band.value.interval;
                currState := band.value.state;
              }
              lastPass := Some(next);
            }
            if lastState != currState {
              Emit(currState, writeOk);
            }
            delay := Sleep(updateFreq);
          } else {
            if currState == OVERHEAD {
              currState := RECEDING;
              Emit(currState, writeOk);
            }
            delay := Sleep(RetryInterval);
          }
      }
    }

    /** Several passes of the loop, one per observation. */
    method Poll(obs: seq<Observation>) returns (delays: seq<Delay>)
      requires Valid()
      modifies this, leds
      ensures Valid()
      ensures var t := Run(old(Vars()), obs, n);
              Vars() == t.final && delays == t.delays && emitted == old(emitted) + t.emitted &&
              leds.sent == old(leds.sent) + (if serial then t.written else [])
    {
      ghost var emitted0, sent0 := emitted, leds.sent;
      ghost var t := Run(Vars(), [], n);
      delays := [];
      for i := 0 to |obs|
        invariant Valid()
        invariant t == Run(old(Vars()), obs[..i], n)
        invariant Vars() == t.final && delays == t.delays && emitted == emitted0 + t.emitted
        invariant leds.sent == sent0 + (if serial then t.written else [])
      {
        RunPrefix(old(Vars()), obs, i, n);
        var delay := Step(obs[i].fetch, obs[i].now, obs[i].writeOk);
        delays := delays + [delay];
        t := Extend(t, obs[i], n);
      }
      assert obs[..|obs|] == obs;
    }
  }
}
