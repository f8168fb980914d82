/** The polling waits of the extensions: QuerySelectorWhenAppearAsync, which queries a
    selector every 500 ms until it matches or an optional millisecond budget runs out,
    and WaitWhenDisAppearAsync, which queries until it no longer matches. The browser
    is replaced by the sequence of what the successive queries return; that sequence
    also bounds the loops, so a wait the page would keep alive past its end stops with
    Exhausted (or StillPresent). */
module WaitPrimitives {
  import opened Base

  /** The poll interval, repeatTime. */
  const RepeatTime: int := 500

  /** The inner-exception message of the one error QuerySelectorWhenAppearAsync tolerates. */
  const StaleContextMessage: string :=
    "Execution context was destroyed, most likely because of a navigation."

  /** An element handle returned by QuerySelectorAsync. */
  type ElementHandle = nat

  /** What one QuerySelectorAsync call does: returns an element, returns null, or throws. */
  datatype QueryOutcome = Found(element: ElementHandle) | Absent | Raised(ex: Exception)

  /** The result of QuerySelectorWhenAppearAsync: the element, null, a propagated
      exception, or (beyond the supplied outcomes) nothing yet. */
  datatype PollResult = Element(handle: ElementHandle) | Null | Propagated(ex: Exception) | Exhausted

  /** The result of WaitWhenDisAppearAsync. */
  datatype DisappearResult = Disappeared | DisappearPropagated(ex: Exception) | StillPresent

  /** The exception a navigation between ticks causes. */
  predicate IsNavigationStale(ex: Exception)
  {
    ex.inner == Some(StaleContextMessage)
  }

  /** A tick the appear-loop reads as "not there yet". */
  predicate NotYet(o: QueryOutcome)
  {
    o.Absent? || (o.Raised? && IsNavigationStale(o.ex))
  }

  /** A tick whose exception the appear-loop lets through. */
  predicate IsFatal(o: QueryOutcome)
  {
    o.Raised? && !IsNavigationStale(o.ex)
  }

  /** `timeout -= repeatTime` on an int?, in C#'s unchecked 32-bit arithmetic: the
      int32 that agrees with the mathematical difference modulo 2^32. */
  function Decrement(t: int32): (r: int32)
    ensures (r as int - (t as int - RepeatTime)) % 0x1_0000_0000 == 0
  {
    var d := t as int - RepeatTime;
    if d < MinInt32 then (d + 0x1_0000_0000) as int32 else d as int32
  }

  /** The congruence fixes the result: no other int32 is the difference modulo 2^32. */
  lemma DecrementIsUnique(t: int32, x: int32)
    requires (x as int - (t as int - RepeatTime)) % 0x1_0000_0000 == 0
    ensures x == Decrement(t)
  {
    var r := Decrement(t);
    var k := x as int - r as int;
    assert k % 0x1_0000_0000 == 0;
    assert -0x1_0000_0000 < k < 0x1_0000_0000;
  }

  /** The number of ticks after which a counter starting at t first goes negative. */
  function Ticks(t: int32): (n: nat)
    ensures n >= 1
    decreases if t >= 0 then t as int else 0x2_0000_0000 + t as int
  {
    var next := Decrement(t);
    if next < 0 then 1 else 1 + Ticks(next)
  }

  /** A budget of T >= 0 milliseconds lasts T / 500 + 1 ticks. */
  lemma {:induction false} TicksOfNonNegative(t: int32)
    requires t >= 0
    ensures Ticks(t) == t as int / RepeatTime + 1
    decreases t
  {
    if t as int >= RepeatTime {
      TicksOfNonNegative(Decrement(t));
    }
  }

  /** A negative budget ends after the first tick, unless it lies within 500 of
      int.MinValue: then the subtraction wraps to a large positive counter. */
  lemma TicksOfNegative(t: int32)
    requires t < 0
    ensures t as int - RepeatTime >= MinInt32 ==> Ticks(t) == 1
    ensures t as int - RepeatTime < MinInt32 ==>
      Ticks(t) == (t as int - RepeatTime + 0x1_0000_0000) / RepeatTime + 2
  {
    var next := Decrement(t);
    if next >= 0 {
      TicksOfNonNegative(next);
    }
  }

  /** With timeout int.MinValue the wait lasts 4294968 ticks, about 24.9 days. */
  lemma TicksAtMinimum()
    ensures Ticks(MinInt32 as int32) == 4294968
  {
    TicksOfNegative(MinInt32 as int32);
  }

  /** QuerySelectorWhenAppearAsync(selector, timeout) where the successive queries
      behave as `outcomes`. `queries` counts the queries issued and `waitedMs` the time
      spent in the 500 ms pauses before them. */
  method QuerySelectorWhenAppear(outcomes: seq<QueryOutcome>, timeout: Option<int32>)
    returns (r: PollResult, queries: nat, waitedMs: nat)
    ensures queries <= |outcomes| && waitedMs == RepeatTime * queries
    ensures forall j :: 0 <= j < queries - 1 ==> NotYet(outcomes[j])
    ensures timeout.Some? ==> queries <= Ticks(timeout.value)
    ensures timeout.Some? && timeout.value >= 0 ==> queries <= timeout.value as int / RepeatTime + 1
    ensures r.Element? ==>
      && 0 < queries && outcomes[queries - 1] == Found(r.handle)
      && (timeout.Some? ==> queries < Ticks(timeout.value))
    ensures r.Null? ==>
      && timeout.Some? && 0 < queries == Ticks(timeout.value)
      && !IsFatal(outcomes[queries - 1])
    ensures r.Propagated? ==> 0 < queries && outcomes[queries - 1] == Raised(r.ex) && !IsNavigationStale(r.ex)
    ensures r.Exhausted? ==>
      && queries == |outcomes|
      && (forall j :: 0 <= j < queries ==> NotYet(outcomes[j]))
      && (timeout.Some? ==> queries < Ticks(timeout.value))
  {
    var value: Option<ElementHandle> := None;
    var counter := timeout;
    queries, waitedMs := 0, 0;
    while true
      invariant queries <= |outcomes| && waitedMs == RepeatTime * queries
      invariant forall j :: 0 <= j < queries ==> NotYet(outcomes[j])
      invariant counter.Some? <==> timeout.Some?
      invariant counter.Some? ==> queries + Ticks(counter.value) == Ticks(timeout.value)
      decreases |outcomes| - queries
    {
      if queries == |outcomes| {
        r := Exhausted;
        break;
      }
      waitedMs := waitedMs + RepeatTime;
      var outcome := outcomes[queries];
      queries := queries + 1;
      match outcome {
        case Found(e) =>
          value := Some(e);
        case Absent =>
          value := None;
        case Raised(ex) =>
          if ex.inner.None? || ex.inner.value != StaleContextMessage {
            r := Propagated(ex);
            break;
          }
          value := None;
      }
      if counter.Some? {
        counter := Some(Decrement(counter.value));
        if counter.value < 0 {
          r := Null;
          break;
        }
      }
      if value.Some? {
        r := Element(value.value);
        break;
      }
    }
    if timeout.Some? && timeout.value >= 0 {
      TicksOfNonNegative(timeout.value);
    }
  }

  /** WaitWhenDisAppearAsync(selector) where the successive queries behave as
      `outcomes`. It has no time limit and tolerates no exception. */
  method WaitWhenDisappear(outcomes: seq<QueryOutcome>) returns (r: DisappearResult, queries: nat, waitedMs: nat)
    ensures queries <= |outcomes| && waitedMs == RepeatTime * queries
    ensures forall j :: 0 <= j < queries - 1 ==> outcomes[j].Found?
    ensures r.Disappeared? ==> 0 < queries && outcomes[queries - 1].Absent?
    ensures r.DisappearPropagated? ==> 0 < queries && outcomes[queries - 1] == Raised(r.ex)
    ensures r.StillPresent? ==> queries == |outcomes| && forall j :: 0 <= j < queries ==> outcomes[j].Found?
  {
    queries, waitedMs := 0, 0;
    while true
      invariant queries <= |outcomes| && waitedMs == RepeatTime * queries
      invariant forall j :: 0 <= j < queries ==> outcomes[j].Found?
      decreases |outcomes| - queries
    {
      if queries == |outcomes| {
        r := StillPresent;
        break;
      }
      waitedMs := waitedMs + RepeatTime;
      var outcome := outcomes[queries];
      queries := queries + 1;
      if outcome.Raised? {
        r := DisappearPropagated(outcome.ex);
        break;
      }
      if outcome.Absent? {
        r := Disappeared;
        break;
      }
    }
  }

  /** An element found on the fourth tick of a three-minute budget is returned after
      four queries and 2000 ms of pauses. */
  method AppearsOnFourthTick(e: ElementHandle) returns (r: PollResult, queries: nat, waitedMs: nat)
    ensures r == Element(e) && queries == 4 && waitedMs == 2000
  {
    TicksOfNonNegative(180000);
    var outcomes := [Absent, Absent, Absent, Found(e)];
    r, queries, waitedMs := QuerySelectorWhenAppear(outcomes, Some(180000));
    assert outcomes[0] == outcomes[1] == outcomes[2] == Absent && outcomes[3] == Found(e);
  }

  /** A navigation during a tick costs the tick but not the wait; any other
      exception, even one with the same top-level message, ends it. */
  method StaleThenFound(e: ElementHandle, other: Exception) returns (r1: PollResult, r2: PollResult)
    requires !IsNavigationStale(other)
    ensures r1 == Element(e) && r2 == Propagated(other)
  {
    var stale := Exception(EvaluationFailedException, other.message, Some(StaleContextMessage));
    var q, w;
    var first := [Raised(stale), Found(e)];
    r1, q, w := QuerySelectorWhenAppear(first, None);
    assert first[0] == Raised(stale) && IsNavigationStale(stale) && first[1] == Found(e);
    var second := [Raised(other), Found(e)];
    r2, q, w := QuerySelectorWhenAppear(second, None);
    assert second[0] == Raised(other) && !NotYet(second[0]) && second[1] == Found(e);
  }

  /** With a 1000 ms budget the third query is the last: an element it finds is
      dropped and null returned. */
  method FoundOnLastTickIsDiscarded(e: ElementHandle) returns (r: PollResult, queries: nat)
    ensures r == Null && queries == 3
  {
    TicksOfNonNegative(1000);
    var outcomes := [Absent, Absent, Found(e)];
    var waitedMs;
    r, queries, waitedMs := QuerySelectorWhenAppear(outcomes, Some(1000));
    assert outcomes[0] == outcomes[1] == Absent && outcomes[2] == Found(e);
  }
}
