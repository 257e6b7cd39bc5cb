/**
 The rolling restart budget and the exponential backoff with bounded jitter.
 Times are unsigned 64-bit milliseconds; a backward observation is clamped.
 */
module RestartPolicy {

  const U64_MAX := 0xffff_ffff_ffff_ffff

  function Max(a: nat, b: nat): nat { if a > b then a else b }

  function Min(a: nat, b: nat): nat { if a < b then a else b }

  function SaturatingSub(a: nat, b: nat): nat { if a > b then a - b else 0 }

  // ----- restart budget -----

  /** The events at or after a cutoff, in order. */
  function Window(events: seq<nat>, cutoff: nat): seq<nat> {
    if events == [] then []
    else Window(events[..|events| - 1], cutoff) + if events[|events| - 1] >= cutoff then [events[|events| - 1]] else []
  }

  datatype Call = Observe(elapsed: nat) | Record(elapsed: nat)

  /** The budget's fields, and every restart it ever admitted. */
  datatype Budget = Budget(last: nat, events: seq<nat>, admitted: seq<nat>)

  function Observed(b: Budget, window: nat, elapsed: nat): Budget {
    var last := Max(b.last, elapsed);
    b.(last := last, events := Window(b.events, SaturatingSub(last, window)))
  }

  function Step(b: Budget, maxEvents: nat, window: nat, call: Call): Budget {
    var seen := Observed(b, window, call.elapsed);
    if call.Record? && |seen.events| < maxEvents
    then seen.(events := seen.events + [seen.last], admitted := seen.admitted + [seen.last])
    else seen
  }

  function Run(maxEvents: nat, window: nat, calls: seq<Call>): Budget {
    if calls == [] then Budget(0, [], [])
    else Step(Run(maxEvents, window, calls[..|calls| - 1]), maxEvents, window, calls[|calls| - 1])
  }

  ghost predicate Sorted(s: seq<nat>) { forall i, j :: 0 <= i < j < |s| ==> s[i] <= s[j] }

  ghost predicate Spaced(s: seq<nat>, maxEvents: nat, window: nat) {
    forall i, j | 0 <= i < |s| && 0 <= j < |s| && j - i >= maxEvents :: i != j ==> s[j] - s[i] > window
  }

  lemma {:induction false} WindowTwice(events: seq<nat>, early: nat, late: nat)
    requires early <= late
    ensures Window(Window(events, early), late) == Window(events, late)
    decreases |events|
  {
    if events != [] {
      var init, last := events[..|events| - 1], events[|events| - 1];
      WindowTwice(init, early, late);
      if last >= early {
        var kept := Window(init, early);
        assert (kept + [last])[..|kept|] == kept;
      } else {
        assert Window(events, early) == Window(init, early);
      }
    }
  }

  lemma WindowAppend(events: seq<nat>, last: nat, cutoff: nat)
    requires last >= cutoff
    ensures Window(events + [last], cutoff) == Window(events, cutoff) + [last]
  {
    assert (events + [last])[..|events|] == events;
  }

  /** In a sorted history the window is what follows its expired part. */
  lemma {:induction false} WindowIsSuffix(events: seq<nat>, cutoff: nat)
    requires Sorted(events)
    ensures |Window(events, cutoff)| <= |events|
    ensures forall i :: 0 <= i < |events| - |Window(events, cutoff)| ==> events[i] < cutoff
    decreases |events|
  {
    if events != [] {
      var init, last := events[..|events| - 1], events[|events| - 1];
      WindowIsSuffix(init, cutoff);
      if last < cutoff {
        forall i | 0 <= i < |events| ensures events[i] < cutoff { assert events[i] <= last; }
        NoneLeft(init, cutoff);
      }
    }
  }

  lemma {:induction false} NoneLeft(events: seq<nat>, cutoff: nat)
    requires forall i :: 0 <= i < |events| ==> events[i] < cutoff
    ensures Window(events, cutoff) == []
  {
    if events != [] { NoneLeft(events[..|events| - 1], cutoff); }
  }

  /** The kept events are the naive window filter of everything ever admitted, and never more than the maximum. */
  ghost predicate Consistent(b: Budget, maxEvents: nat, window: nat) {
    && b.events == Window(b.admitted, SaturatingSub(b.last, window)) && |b.events| <= maxEvents
    && Sorted(b.admitted) && (forall i :: 0 <= i < |b.admitted| ==> b.admitted[i] <= b.last)
  }

  /**
   After every call the kept events are the naive window filter of everything
   ever admitted, and never more than the maximum.
   */
  lemma {:induction false} KeptIsTheWindow(maxEvents: nat, window: nat, calls: seq<Call>)
    ensures Consistent(Run(maxEvents, window, calls), maxEvents, window)
    decreases |calls|
  {
    if calls != [] {
      var init, call := calls[..|calls| - 1], calls[|calls| - 1];
      KeptIsTheWindow(maxEvents, window, init);
      StepKeeps(Run(maxEvents, window, init), maxEvents, window, call);
    }
  }

  lemma {:induction false} WindowShrinks(events: seq<nat>, cutoff: nat)
    ensures |Window(events, cutoff)| <= |events|
    decreases |events|
  {
    if events != [] { WindowShrinks(events[..|events| - 1], cutoff); }
  }

  lemma ObservedKeeps(b: Budget, maxEvents: nat, window: nat, elapsed: nat)
    requires Consistent(b, maxEvents, window)
    ensures Consistent(Observed(b, window, elapsed), maxEvents, window)
  {
    var seen := Observed(b, window, elapsed);
    WindowTwice(b.admitted, SaturatingSub(b.last, window), SaturatingSub(seen.last, window));
    WindowShrinks(b.events, SaturatingSub(seen.last, window));
  }

  lemma StepKeeps(b: Budget, maxEvents: nat, window: nat, call: Call)
    requires Consistent(b, maxEvents, window)
    ensures Consistent(Step(b, maxEvents, window, call), maxEvents, window)
  {
    ObservedKeeps(b, maxEvents, window, call.elapsed);
    var seen := Observed(b, window, call.elapsed);
    WindowAppend(seen.admitted, seen.last, SaturatingSub(seen.last, window));
  }

  lemma StepSpaces(b: Budget, maxEvents: nat, window: nat, call: Call)
    requires Consistent(b, maxEvents, window) && Spaced(b.admitted, maxEvents, window)
    ensures Spaced(Step(b, maxEvents, window, call).admitted, maxEvents, window)
  {
    var seen := Observed(b, window, call.elapsed);
    var next := Step(b, maxEvents, window, call);
    ObservedKeeps(b, maxEvents, window, call.elapsed);
    var cutoff := SaturatingSub(seen.last, window);
    WindowIsSuffix(seen.admitted, cutoff);
    forall i, j | 0 <= i < |next.admitted| && 0 <= j < |next.admitted| && j - i >= maxEvents && i != j
      ensures next.admitted[j] - next.admitted[i] > window
    {
      if j == |seen.admitted| { assert next.admitted[i] == seen.admitted[i] < cutoff; }
    }
  }

  /**
   However often the budget is consulted and whatever the clock does, the
   admitted restart `maxEvents` places after another comes more than one window
   after it.
   */
  lemma {:induction false} RestartsAreSpaced(maxEvents: nat, window: nat, calls: seq<Call>)
    ensures Spaced(Run(maxEvents, window, calls).admitted, maxEvents, window)
    decreases |calls|
  {
    if calls != [] {
      var init, call := calls[..|calls| - 1], calls[|calls| - 1];
      RestartsAreSpaced(maxEvents, window, init);
      KeptIsTheWindow(maxEvents, window, init);
      StepSpaces(Run(maxEvents, window, init), maxEvents, window, call);
    }
  }

  // ----- what is admitted -----

  /** The clamped clock: the latest time any call has shown. */
  function Clock(calls: seq<Call>): nat {
    if calls == [] then 0 else Max(Clock(calls[..|calls| - 1]), calls[|calls| - 1].elapsed)
  }

  /** How many of some restarts lie at most one window before a moment. */
  function Recent(restarts: seq<nat>, now: nat, window: nat): nat {
    if restarts == [] then 0
    else Recent(restarts[..|restarts| - 1], now, window) + if now - restarts[|restarts| - 1] <= window then 1 else 0
  }

  lemma {:induction false} WindowCounts(restarts: seq<nat>, now: nat, window: nat)
    ensures |Window(restarts, SaturatingSub(now, window))| == Recent(restarts, now, window)
    decreases |restarts|
  {
    if restarts != [] { WindowCounts(restarts[..|restarts| - 1], now, window); }
  }

  lemma {:induction false} LastIsClock(maxEvents: nat, window: nat, calls: seq<Call>)
    ensures Run(maxEvents, window, calls).last == Clock(calls)
    decreases |calls|
  {
    if calls != [] { LastIsClock(maxEvents, window, calls[..|calls| - 1]); }
  }

  lemma LastCall(calls: seq<Call>, call: Call)
    ensures (calls + [call])[..|calls|] == calls
  {
  }

  /**
   After any calls, a record is admitted, at the clamped clock, if and only if
   fewer than the maximum of the restarts admitted so far lie in its window; an
   observation admits nothing.
   */
  lemma AdmittedIff(maxEvents: nat, window: nat, calls: seq<Call>, call: Call)
    ensures var before, now := Run(maxEvents, window, calls).admitted, Clock(calls + [call]);
      Run(maxEvents, window, calls + [call]).admitted
      == if call.Record? && Recent(before, now, window) < maxEvents then before + [now] else before
  {
    var b := Run(maxEvents, window, calls);
    LastCall(calls, call);
    LastIsClock(maxEvents, window, calls);
    KeptIsTheWindow(maxEvents, window, calls);
    ObservedKeeps(b, maxEvents, window, call.elapsed);
    WindowCounts(b.admitted, Clock(calls + [call]), window);
  }

  /** The kept count is the number of admitted restarts in the window of the clamped clock. */
  lemma CountIsRecent(maxEvents: nat, window: nat, calls: seq<Call>)
    ensures |Run(maxEvents, window, calls).events| == Recent(Run(maxEvents, window, calls).admitted, Clock(calls), window)
    ensures |Run(maxEvents, window, calls).events| <= maxEvents
  {
    KeptIsTheWindow(maxEvents, window, calls);
    LastIsClock(maxEvents, window, calls);
    WindowCounts(Run(maxEvents, window, calls).admitted, Clock(calls), window);
  }

  function Records(calls: seq<Call>): nat {
    if calls == [] then 0 else Records(calls[..|calls| - 1]) + if calls[|calls| - 1].Record? then 1 else 0
  }

  lemma {:induction false} ClockGrows(calls: seq<Call>, more: seq<Call>)
    ensures Clock(calls) <= Clock(calls + more)
    decreases |more|
  {
    if more == [] {
      assert calls + more == calls;
    } else {
      ClockGrows(calls, more[..|more| - 1]);
      LastOfMore(calls, more);
    }
  }

  lemma LastOfMore(calls: seq<Call>, more: seq<Call>)
    requires more != []
    ensures calls + more == calls + more[..|more| - 1] + [more[|more| - 1]]
    ensures (calls + more)[..|calls + more| - 1] == calls + more[..|more| - 1]
    ensures (calls + more)[|calls + more| - 1] == more[|more| - 1]
  {
  }

  ghost predicate AllLate(events: seq<nat>, start: nat) { forall i :: 0 <= i < |events| ==> events[i] >= start }

  lemma {:induction false} WindowKeepsLate(events: seq<nat>, cutoff: nat, start: nat)
    requires AllLate(events, start) && cutoff <= start
    ensures Window(events, cutoff) == events
    decreases |events|
  {
    if events != [] { WindowKeepsLate(events[..|events| - 1], cutoff, start); }
  }

  lemma {:induction false} RecordsAccumulate(maxEvents: nat, window: nat, calls: seq<Call>, more: seq<Call>)
    requires Run(maxEvents, window, calls).events == [] && Clock(calls + more) <= Clock(calls) + window
    ensures var events := Run(maxEvents, window, calls + more).events;
      AllLate(events, Clock(calls)) && |events| == Min(Records(more), maxEvents)
    decreases |more|
  {
    if more == [] {
      assert calls + more == calls;
    } else {
      var init, call := more[..|more| - 1], more[|more| - 1];
      LastOfMore(calls, more);
      ClockGrows(calls, init);
      ClockGrows(calls + init, [call]);
      RecordsAccumulate(maxEvents, window, calls, init);
      LastIsClock(maxEvents, window, calls + init);
      WindowKeepsLate(Run(maxEvents, window, calls + init).events, SaturatingSub(Clock(calls + more), window), Clock(calls));
    }
  }

  /**
   From a moment without recent restarts, and until one window has passed, the
   budget fills by one with every record up to its maximum: it is exhausted
   exactly after that many records.
   */
  lemma BudgetFills(maxEvents: nat, window: nat, calls: seq<Call>, more: seq<Call>)
    requires Recent(Run(maxEvents, window, calls).admitted, Clock(calls), window) == 0
    requires Clock(calls + more) <= Clock(calls) + window
    ensures |Run(maxEvents, window, calls + more).events| == Min(Records(more), maxEvents)
  {
    CountIsRecent(maxEvents, window, calls);
    RecordsAccumulate(maxEvents, window, calls, more);
  }

  lemma RunNext(maxEvents: nat, window: nat, calls: seq<Call>, call: Call)
    ensures Run(maxEvents, window, calls + [call]) == Step(Run(maxEvents, window, calls), maxEvents, window, call)
  {
    LastCall(calls, call);
  }

  lemma WindowOfTwo(a: nat, b: nat, cutoff: nat)
    ensures Window([], cutoff) == [] && Window([a], cutoff) == (if a >= cutoff then [a] else [])
    ensures a >= cutoff && b >= cutoff ==> Window([a, b], cutoff) == [a, b]
    ensures a < cutoff && b < cutoff ==> Window([a, b], cutoff) == []
  {
    WindowAppendAny([], a, cutoff);
    WindowAppendAny([a], b, cutoff);
    assert [] + [a] == [a] && [a] + [b] == [a, b];
  }

  lemma WindowAppendAny(events: seq<nat>, last: nat, cutoff: nat)
    ensures Window(events + [last], cutoff) == Window(events, cutoff) + if last >= cutoff then [last] else []
  {
    assert (events + [last])[..|events|] == events;
  }

  lemma TwoRecords(window: nat, first: nat)
    ensures Run(2, window, [] + [Record(first)] + [Record(first)]) == Budget(first, [first, first], [first, first])
  {
    RunNext(2, window, [], Record(first));
    RunNext(2, window, [] + [Record(first)], Record(first));
    WindowOfTwo(first, first, SaturatingSub(first, window));
    assert Run(2, window, [] + [Record(first)]) == Budget(first, [first], [first]);
  }

  lemma RefusedThenAdmitted(window: nat, first: nat)
    requires window >= 2
    ensures var full, refused, late := Budget(first, [first, first], [first, first]), first + window - 1, first + window + 1;
      && Step(full, 2, window, Record(refused)) == full.(last := refused)
      && Step(full.(last := refused), 2, window, Record(late)) == Budget(late, [late], [first, first, late])
  {
    WindowOfTwo(first, first, SaturatingSub(first + window - 1, window));
    WindowOfTwo(first, first, SaturatingSub(first + window + 1, window));
  }

  /**
   A refused record is not remembered, so a moment without recent restarts is
   needed: with two restarts behind it, a budget of two still has room after two
   more records two milliseconds apart.
   */
  lemma RefusedRecordsAreForgotten(window: nat, first: nat)
    requires window >= 2
    ensures var refused, late := first + window - 1, first + window + 1;
      Run(2, window, [] + [Record(first)] + [Record(first)] + [Record(refused)] + [Record(late)])
      == Budget(late, [late], [first, first, late])
  {
    var refused, late, two := first + window - 1, first + window + 1, [] + [Record(first)] + [Record(first)];
    TwoRecords(window, first);
    RefusedThenAdmitted(window, first);
    RunNext(2, window, two, Record(refused));
    RunNext(2, window, two + [Record(refused)], Record(late));
  }

  class RestartBudget {
    const maxEvents: nat
    const windowMs: nat
    var lastElapsedMs: nat
    var events: seq<nat>
    ghost var admitted: seq<nat>

    ghost predicate Holds(calls: seq<Call>)
      reads this
    {
      Budget(lastElapsedMs, events, admitted) == Run(maxEvents, windowMs, calls)
    }

    constructor (maxEvents: nat, windowMs: nat)
      ensures this.maxEvents == maxEvents && this.windowMs == windowMs && Holds([])
    {
      this.maxEvents, this.windowMs := maxEvents, windowMs;
      lastElapsedMs, events, admitted := 0, [], [];
    }

    /** `retain`: the loop over the kept events. */
    method Retain(cutoff: nat)
      modifies this`events
      ensures events == Window(old(events), cutoff)
    {
      var kept: seq<nat> := [];
      for i := 0 to |events|
        invariant events == old(events) && kept == Window(events[..i], cutoff)
      {
        assert events[..i + 1][..i] == events[..i];
        if events[i] >= cutoff { kept := kept + [events[i]]; }
      }
      assert events[..|events|] == events;
      events := kept;
    }

    method Observe(elapsedMs: nat, ghost calls: seq<Call>) returns (count: nat)
      requires Holds(calls)
      modifies this
      ensures Holds(calls + [Call.Observe(elapsedMs)]) && count == |events|
      ensures admitted == old(admitted)
    {
      lastElapsedMs := Max(lastElapsedMs, elapsedMs);
      Retain(SaturatingSub(lastElapsedMs, windowMs));
      count := |events|;
      assert (calls + [Call.Observe(elapsedMs)])[..|calls|] == calls;
    }

    method Record(elapsedMs: nat, ghost calls: seq<Call>) returns (count: nat)
      requires Holds(calls)
      modifies this
      ensures Holds(calls + [Call.Record(elapsedMs)]) && count == |events|
      ensures var now := Clock(calls + [Call.Record(elapsedMs)]);
        admitted == if Recent(old(admitted), now, windowMs) < maxEvents then old(admitted) + [now] else old(admitted)
    {
      AdmittedIff(maxEvents, windowMs, calls, Call.Record(elapsedMs));
      assert (calls + [Call.Record(elapsedMs)])[..|calls|] == calls;
      assert (calls + [Call.Observe(elapsedMs)])[..|calls|] == calls;
      count := Observe(elapsedMs, calls);
      if count < maxEvents {
        events := events + [lastElapsedMs];
        admitted := admitted + [lastElapsedMs];
      }
      count := |events|;
    }

    method AdmitsRestart(ghost calls: seq<Call>) returns (admits: bool)
      requires Holds(calls)
      ensures admits <==> Recent(admitted, Clock(calls), windowMs) < maxEvents
    {
      CountIsRecent(maxEvents, windowMs, calls);
      admits := maxEvents > 0 && |events| < maxEvents;
    }
  }

  // ----- backoff -----

  function Power2(n: nat): (p: nat)
    ensures p >= 1
  {
    if n == 0 then 1 else 2 * Power2(n - 1)
  }

  function SaturatingMul(a: nat, b: nat): nat { Min(a * b, U64_MAX) }

  /** The undisturbed delay: the base doubled per attempt, at most 31 times, and capped. */
  function Exponential(base: nat, cap: nat, attempt: nat): nat { Min(base * Power2(Min(attempt, 31)), cap) }

  /** `backoff_delay_ms`, given the 16-bit sample taken from the component's digest. */
  function BackoffDelay(base: nat, cap: nat, attempt: nat, sample: nat): nat {
    var exponential := Min(SaturatingMul(base, Power2(Min(attempt, 31))), cap);
    var spread := exponential / 4;
    if spread == 0 then exponential
    else
      var jitter := sample % Min(Min(2 * spread, U64_MAX) + 1, U64_MAX);
      Min(Min(exponential - spread + jitter, U64_MAX), cap)
  }

  /** Jitter moves the delay by at most a quarter either way and never past the cap; nothing saturates. */
  lemma BackoffBounds(base: nat, cap: nat, attempt: nat, sample: nat)
    requires base <= U64_MAX && cap <= U64_MAX
    ensures var e := Exponential(base, cap, attempt);
      e - e / 4 <= BackoffDelay(base, cap, attempt, sample) <= Min(e + e / 4, cap)
  {
    var e := Exponential(base, cap, attempt);
    var spread := e / 4;
    if spread > 0 { assert 0 <= sample % (2 * spread + 1) <= 2 * spread; }
  }

  /** The sample moves the delay over the whole quarter either way, one millisecond per step, up to the cap. */
  lemma BackoffIsSpread(base: nat, cap: nat, attempt: nat, sample: nat)
    requires base <= U64_MAX && cap <= U64_MAX
    ensures var e := Exponential(base, cap, attempt);
      BackoffDelay(base, cap, attempt, sample) == Min(e - e / 4 + sample % (2 * (e / 4) + 1), cap)
  {
    var e := Exponential(base, cap, attempt);
    assert Min(Min(2 * (e / 4), U64_MAX) + 1, U64_MAX) == 2 * (e / 4) + 1;
  }

  lemma Doubles(base: nat, cap: nat, attempt: nat)
    requires attempt < 31 && base * Power2(attempt + 1) <= cap
    ensures Exponential(base, cap, attempt + 1) == 2 * Exponential(base, cap, attempt)
  {
    assert base * Power2(attempt + 1) == 2 * (base * Power2(attempt));
  }

  lemma Positive(base: nat, n: nat)
    requires base > 0
    ensures base * Power2(n) > 0
  {
  }

  /** While doubling still fits under the cap, each delay is strictly longer than the one before, whatever the jitter. */
  lemma BackoffGrows(base: nat, cap: nat, attempt: nat, sample: nat, sample': nat)
    requires 0 < base <= U64_MAX && cap <= U64_MAX && attempt < 31 && base * Power2(attempt + 1) <= cap
    ensures BackoffDelay(base, cap, attempt, sample) < BackoffDelay(base, cap, attempt + 1, sample')
  {
    BackoffBounds(base, cap, attempt, sample);
    BackoffBounds(base, cap, attempt + 1, sample');
    Doubles(base, cap, attempt);
    Positive(base, attempt + 1);
    var e := Exponential(base, cap, attempt);
    assert e > 0 && e + e / 4 < 2 * e - (2 * e) / 4;
  }
}
