/** The estimator of the time since boot at which a position was taken. It is meant to follow the time of
    the data and to be blind to jumps of the real-time clock. */
module Estimator {
  const STABILIZATION := 5

  /** What the estimator keeps between calls. */
  datatype State = State(clockDiff: int, prevUtc: int, prevBoot: int, prevData: int, threshold: int)

  /** The two clocks as read by a call, if they could be read. */
  datatype Clocks = Unreadable | Clocks(utc: int, boot: int)

  datatype Event =
    | Estimate(clocks: Clocks, data: int, trusted: bool, tbf: int)
    | Reset

  datatype Fix = Fix(boot: int, data: int)

  const START := State(0, 0, 0, 0, STABILIZATION)

  /** A call that changes what is kept. */
  predicate Counts(e: Event) {
    e.Estimate? && e.clocks.Clocks? && e.trusted
  }

  /** The data time is not where the time between fixes says it should be. */
  predicate Jumps(prevData: int, e: Event)
    requires Counts(e)
  {
    e.tbf > 0 && e.tbf != e.data - prevData
  }

  function Step(init: int, s: State, e: Event): State {
    match e
    case Reset => START
    case Estimate(clocks, data, trusted, tbf) =>
      if !Counts(e) then s
      else
        var t := if Jumps(s.prevData, e) then STABILIZATION else s.threshold;
        var diff := if t == 0 then clocks.utc - data - init
                    else if t < 0 then s.clockDiff + (clocks.utc - clocks.boot) - (s.prevUtc - s.prevBoot)
                    else s.clockDiff;
        State(diff, clocks.utc, clocks.boot, data, t - 1)
  }

  function Run(init: int, h: seq<Event>): State {
    if h == [] then START else Step(init, Run(init, h[..|h| - 1]), h[|h| - 1])
  }

  /** The trusted fixes since the last reset or jump, the jumping fix included; the real-time clock is
      not looked at. */
  function Fixes(h: seq<Event>): seq<Fix> {
    if h == [] then [] else FixesAfter(Fixes(h[..|h| - 1]), h[|h| - 1])
  }

  function LastData(fixes: seq<Fix>): int {
    if fixes == [] then 0 else fixes[|fixes| - 1].data
  }

  function FixesAfter(fixes: seq<Fix>, e: Event): seq<Fix> {
    if e.Reset? then []
    else if !Counts(e) then fixes
    else (if Jumps(LastData(fixes), e) then [] else fixes) + [Fix(e.clocks.boot, e.data)]
  }

  /** What the estimate should be. Up to the sixth fix in a row it is the time of the call less the usual
      travel time; from then on it moves with the time of the data only. */
  function Ideal(init: int, h: seq<Event>, e: Event): int
    requires e.Estimate?
  {
    if e.clocks.Unreadable? then -1
    else if !e.trusted then e.clocks.boot - init
    else
      var fixes := FixesAfter(Fixes(h), e);
      if |fixes| <= STABILIZATION + 1 then e.clocks.boot - init
      else fixes[STABILIZATION].boot - init + (e.data - fixes[STABILIZATION].data)
  }

  /** The fixes in a row give the threshold and the last times, and from the sixth on the kept difference,
      less that of the two clocks at the last fix, is fixed by that sixth fix. */
  ghost predicate Telescopes(init: int, s: State, fixes: seq<Fix>) {
    && s.threshold == STABILIZATION - |fixes|
    && s.prevData == LastData(fixes)
    && (fixes != [] ==> s.prevBoot == fixes[|fixes| - 1].boot)
    && (|fixes| > STABILIZATION ==>
          s.clockDiff - (s.prevUtc - s.prevBoot) == fixes[STABILIZATION].boot - fixes[STABILIZATION].data - init)
  }

  lemma StepTelescopes(init: int, s: State, fixes: seq<Fix>, e: Event)
    requires Telescopes(init, s, fixes)
    ensures Telescopes(init, Step(init, s, e), FixesAfter(fixes, e))
  {
  }

  lemma {:induction false} AlwaysTelescopes(init: int, h: seq<Event>)
    ensures Telescopes(init, Run(init, h), Fixes(h))
  {
    if h != [] {
      AlwaysTelescopes(init, h[..|h| - 1]);
      StepTelescopes(init, Run(init, h[..|h| - 1]), Fixes(h[..|h| - 1]), h[|h| - 1]);
    }
  }

  /** The same event with another real-time clock. */
  function OtherClock(e: Event, utc: int): Event {
    if e.Estimate? && e.clocks.Clocks? then e.(clocks := e.clocks.(utc := utc)) else e
  }

  function OtherClocks(h: seq<Event>, utc: seq<int>): seq<Event>
    requires |utc| == |h|
  {
    seq(|h|, i requires 0 <= i < |h| => OtherClock(h[i], utc[i]))
  }

  /** Whatever the real-time clock showed at every call, the estimates would have been the same. */
  lemma {:induction false} IdealIgnoresUtc(init: int, h: seq<Event>, utc: seq<int>, e: Event, now: int)
    requires |utc| == |h| && e.Estimate?
    ensures Fixes(OtherClocks(h, utc)) == Fixes(h)
    ensures Ideal(init, OtherClocks(h, utc), OtherClock(e, now)) == Ideal(init, h, e)
  {
    if h != [] {
      var n := |h| - 1;
      IdealIgnoresUtc(init, h[..n], utc[..n], e, now);
      assert OtherClocks(h, utc)[..n] == OtherClocks(h[..n], utc[..n]);
    }
  }

  /** Between two trusted fixes after the sixth in a row, the estimates differ as the data times do. */
  lemma EstimatesFollowTheData(init: int, h: seq<Event>, e: Event, e': Event)
    requires Counts(e) && Counts(e')
    requires |FixesAfter(Fixes(h), e)| > STABILIZATION && !Jumps(e.data, e')
    ensures Ideal(init, h + [e], e') - Ideal(init, h, e) == e'.data - e.data
  {
    assert (h + [e])[..|h|] == h;
  }

  /** The fixes and resets of a history, without the calls that failed or were not to be trusted. */
  function Heeded(h: seq<Event>): seq<Event> {
    if h == [] then []
    else if h[|h| - 1].Reset? || Counts(h[|h| - 1]) then Heeded(h[..|h| - 1]) + [h[|h| - 1]]
    else Heeded(h[..|h| - 1])
  }

  /** The others leave no trace in any estimate. */
  lemma {:induction false} OthersLeaveNoTrace(init: int, h: seq<Event>, e: Event)
    requires e.Estimate?
    ensures Fixes(Heeded(h)) == Fixes(h)
    ensures Ideal(init, Heeded(h), e) == Ideal(init, h, e)
    ensures e.clocks.Unreadable? ==> Ideal(init, h, e) == -1
    ensures e.clocks.Clocks? && !e.trusted ==> Ideal(init, h, e) == e.clocks.boot - init
  {
    if h != [] {
      var n := |h| - 1;
      OthersLeaveNoTrace(init, h[..n], e);
      assert (Heeded(h[..n]) + [h[n]])[..|Heeded(h[..n])|] == Heeded(h[..n]);
    }
  }

  /** A fix starts a row after a reset, at the very start, or when its data time is not the last one's plus the
      time between fixes. */
  predicate StartsRow(h: seq<Event>, e: Event)
    requires Counts(e)
  {
    h == [] || h[|h| - 1].Reset?
    || (Counts(h[|h| - 1]) && e.tbf > 0 && e.tbf != e.data - h[|h| - 1].data)
  }

  /** Fixes of which each continues the one before. */
  ghost predicate Row(es: seq<Event>) {
    && (forall i :: 0 <= i < |es| ==> Counts(es[i]))
    && (forall i :: 0 < i < |es| ==> es[i].tbf <= 0 || es[i].tbf == es[i].data - es[i - 1].data)
  }

  lemma RowStarts(h: seq<Event>, e: Event)
    requires Counts(e) && StartsRow(h, e)
    ensures FixesAfter(Fixes(h), e) == [Fix(e.clocks.boot, e.data)]
  {
  }

  lemma {:induction false} FixesOfRow(h: seq<Event>, es: seq<Event>)
    requires es != [] && Row(es) && StartsRow(h, es[0])
    ensures var fixes := Fixes(h + es);
            && |fixes| == |es|
            && forall i :: 0 <= i < |es| ==> fixes[i] == Fix(es[i].clocks.boot, es[i].data)
  {
    var n := |es| - 1;
    assert (h + es)[..|h + es| - 1] == h + es[..n];
    if n == 0 {
      assert h + es[..0] == h;
      RowStarts(h, es[0]);
    } else {
      FixesOfRow(h, es[..n]);
      hide Fixes;
    }
  }

  /** The estimates along a row, in any history: for the first six the time of the call less the usual travel
      time, and after that the sixth estimate moved by the data times alone. */
  lemma EstimatesInARow(init: int, h: seq<Event>, es: seq<Event>)
    requires es != [] && Row(es) && StartsRow(h, es[0])
    ensures var n := |es| - 1;
            Ideal(init, h + es[..n], es[n]) == if n <= 5 then es[n].clocks.boot - init
                                               else es[5].clocks.boot - init + es[n].data - es[5].data
  {
    var n := |es| - 1;
    FixesOfRow(h, es);
    assert (h + es)[..|h + es| - 1] == h + es[..n];
    hide FixesAfter;
  }

  class ElapsedRealtimeEstimator {
    var currentClockDiff: int
    var prevUtcTimeNanos: int
    var prevBootTimeNanos: int
    var prevDataTimeNanos: int
    var fixTimeStablizationThreshold: int
    const initialTravelTime: int
    ghost var history: seq<Event>

    ghost predicate Valid()
      reads this
    {
      State(currentClockDiff, prevUtcTimeNanos, prevBootTimeNanos, prevDataTimeNanos, fixTimeStablizationThreshold)
      == Run(initialTravelTime, history)
    }

    constructor (travelTimeNanosEstimate: int)
      ensures Valid() && history == [] && initialTravelTime == travelTimeNanosEstimate
    {
      initialTravelTime := travelTimeNanosEstimate;
      currentClockDiff, prevDataTimeNanos, prevUtcTimeNanos, prevBootTimeNanos := 0, 0, 0, 0;
      fixTimeStablizationThreshold := STABILIZATION;
      history := [];
    }

    method Reset()
      requires Valid()
      modifies this
      ensures Valid() && history == old(history) + [Event.Reset]
    {
      history := history + [Event.Reset];
      currentClockDiff := 0;
      prevDataTimeNanos := 0;
      prevUtcTimeNanos := 0;
      prevBootTimeNanos := 0;
      fixTimeStablizationThreshold := STABILIZATION;
    }

    /** The estimate is the ideal one, after any run of calls and resets. */
    method GetElapsedRealtimeEstimateNanos(clocks: Clocks, curDataTimeNanos: int, isCurDataTimeTrustable: bool,
                                           tbfNanos: int) returns (estimate: int)
      requires Valid()
      modifies this
      ensures Valid()
      ensures history == old(history) + [Estimate(clocks, curDataTimeNanos, isCurDataTimeTrustable, tbfNanos)]
      ensures estimate == Ideal(initialTravelTime, old(history),
                                Estimate(clocks, curDataTimeNanos, isCurDataTimeTrustable, tbfNanos))
    {
      ghost var e := Estimate(clocks, curDataTimeNanos, isCurDataTimeTrustable, tbfNanos);
      AlwaysTelescopes(initialTravelTime, history);
      history := history + [e];
      assert history[..|history| - 1] == old(history);
      var currentTravelTimeNanos := initialTravelTime;
      if clocks.Unreadable? {
        return -1;
      }
      if isCurDataTimeTrustable {
        if tbfNanos > 0 && tbfNanos != curDataTimeNanos - prevDataTimeNanos {
          fixTimeStablizationThreshold := STABILIZATION;
        }
        if fixTimeStablizationThreshold == 0 {
          currentTravelTimeNanos := initialTravelTime;
          currentClockDiff := clocks.utc - curDataTimeNanos - currentTravelTimeNanos;
        } else if fixTimeStablizationThreshold < 0 {
          currentClockDiff := currentClockDiff + (clocks.utc - clocks.boot) - (prevUtcTimeNanos - prevBootTimeNanos);
          currentTravelTimeNanos := clocks.utc - curDataTimeNanos - currentClockDiff;
        }
        prevUtcTimeNanos := clocks.utc;
        prevBootTimeNanos := clocks.boot;
        prevDataTimeNanos := curDataTimeNanos;
        fixTimeStablizationThreshold := fixTimeStablizationThreshold - 1;
      }
      estimate := clocks.boot - currentTravelTimeNanos;
    }
  }
}
