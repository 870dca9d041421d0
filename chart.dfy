/**
 * The `hourPayload` and `dayPayload` closures of server/api.go's
 * `updateChartHandler`: which buckets of a chart an event increments, given
 * the start of the current hour or of the current day, and the tally of a
 * list of events.
 */
module Buckets {
  import opened Device

  const HourSeconds := 3600
  /** `increment` in `hourPayload`: five minutes. */
  const StepSeconds := 300

  /** A bucket's count, where a missing key counts 0 as in a Go map. */
  function Get(axises: map<int, int>, k: int): int
  {
    if k in axises then axises[k] else 0
  }

  /** The counts after adding one to every key of `keys`. */
  function Bump(axises: map<int, int>, keys: set<int>): map<int, int>
  {
    map k | k in axises.Keys + keys :: Get(axises, k) + (if k in keys then 1 else 0)
  }

  /** `payload.Axises[i]++`. */
  function Increment(axises: map<int, int>, i: int): map<int, int>
  {
    axises[i := Get(axises, i) + 1]
  }

  lemma BumpGet(axises: map<int, int>, keys: set<int>, k: int)
    ensures Get(Bump(axises, keys), k) == Get(axises, k) + (if k in keys then 1 else 0)
  {
  }

  lemma IncrementBump(axises: map<int, int>, keys: set<int>, i: int)
    requires i !in keys
    ensures Increment(Bump(axises, keys), i) == Bump(axises, keys + {i})
  {
    var l, r := Increment(Bump(axises, keys), i), Bump(axises, keys + {i});
    assert l.Keys == r.Keys;
    forall k | k in l ensures l[k] == r[k] {
      BumpGet(axises, keys, k);
    }
  }

  // ---------------------------------------------------------------------------
  // Days

  /**
   * The keys `dayPayload` increments for an event at `t`, with `midnight`
   * the start of the current day: 0 and 1 for the hour before midnight,
   * else the number of the hour of the day that holds `t`, counted from 1;
   * nothing outside those 24 hours.
   */
  function DayKeys(t: int, midnight: int): set<int>
  {
    if t <= midnight - HourSeconds then {}
    else if t < midnight then {0, 1}
    else if t < midnight + 23 * HourSeconds then {(t - midnight) / HourSeconds + 1}
    else {}
  }

  /** The test of iteration `i > 0` of the loop in `dayPayload`. */
  predicate DayTest(t: int, midnight: int, i: int)
  {
    midnight - HourSeconds < t < midnight + i * HourSeconds
  }

  /**
   * The loop's own account: key 0 when the event falls in the hour before
   * midnight, and the first `i` in 1..23 whose test passes.
   */
  lemma DayKeysFirstMatch(t: int, midnight: int, k: int)
    ensures k in DayKeys(t, midnight) <==>
              || (k == 0 && midnight - HourSeconds < t < midnight)
              || (1 <= k <= 23 && DayTest(t, midnight, k) && forall j :: 1 <= j < k ==> !DayTest(t, midnight, j))
  {
    var q := (t - midnight) / HourSeconds;
    assert q * HourSeconds <= t - midnight < q * HourSeconds + HourSeconds;
    if 1 <= k <= 23 && DayTest(t, midnight, k) && forall j :: 1 <= j < k ==> !DayTest(t, midnight, j) {
      if t < midnight {
        if k > 1 {
          assert DayTest(t, midnight, 1);
        }
      } else if q + 1 < k {
        assert DayTest(t, midnight, q + 1);
      }
    }
    if k in DayKeys(t, midnight) && k >= 1 {
      forall j | 1 <= j < k ensures !DayTest(t, midnight, j) {
        assert midnight <= t && j <= q;
      }
    }
  }

  /** While every earlier hour failed, hour `i` is a key exactly when its own test passes. */
  lemma DayKeyAt(t: int, midnight: int, i: int)
    requires 0 <= i <= 23
    requires forall j :: 1 <= j < i ==> !DayTest(t, midnight, j)
    ensures i in DayKeys(t, midnight) <==>
              if i == 0 then midnight - HourSeconds < t < midnight else DayTest(t, midnight, i)
  {
    DayKeysFirstMatch(t, midnight, i);
  }

  /** Every key of a day chart is an hour 0..23. */
  lemma DayKeysInRange(t: int, midnight: int)
    ensures forall k :: k in DayKeys(t, midnight) ==> 0 <= k <= 23
  {
  }

  /** An event exactly on the hour belongs to the hour it starts, numbered one past its offset. */
  lemma DayKeysOnTheHour(midnight: int, h: int)
    requires 0 <= h < 23
    ensures DayKeys(midnight + h * HourSeconds, midnight) == {h + 1}
  {
  }

  /** The keys of an event below hour `i`, one hour further on. */
  lemma DayKeysBelowNext(t: int, midnight: int, i: int)
    ensures (set k | k in DayKeys(t, midnight) && k < i + 1)
            == (set k | k in DayKeys(t, midnight) && k < i) + (if i in DayKeys(t, midnight) then {i} else {})
  {
  }

  /** Once hour `i` passes its test after every earlier hour failed, no key lies beyond it. */
  lemma DayKeysUpTo(t: int, midnight: int, i: int)
    requires 1 <= i && DayTest(t, midnight, i)
    requires forall j :: 1 <= j < i ==> !DayTest(t, midnight, j)
    ensures (set k | k in DayKeys(t, midnight) && k < i + 1) == DayKeys(t, midnight)
  {
    forall k | k in DayKeys(t, midnight) ensures k <= i {
      DayKeysFirstMatch(t, midnight, k);
      DayKeysFirstMatch(t, midnight, i);
    }
  }

  /** `dayPayload(t, payload)`, with `midnight` the start of the current day. */
  method DayPayload(t: int, midnight: int, payload: Chart) returns (out: Chart)
    ensures out == payload.(timeMeasure := "day", axises := Bump(payload.axises, DayKeys(t, midnight)))
  {
    out := payload.(timeMeasure := "day");
    var i := 0;
    while i < 24
      invariant 0 <= i <= 24
      invariant forall j :: 1 <= j < i ==> !DayTest(t, midnight, j)
      invariant out == payload.(timeMeasure := "day", axises := Bump(payload.axises, set k | k in DayKeys(t, midnight) && k < i))
    {
      ghost var below := set k | k in DayKeys(t, midnight) && k < i;
      DayKeyAt(t, midnight, i);
      DayKeysBelowNext(t, midnight, i);
      if i == 0 {
        if midnight - HourSeconds < t < midnight {
          IncrementBump(payload.axises, below, 0);
          out := out.(axises := Increment(out.axises, i));
        }
      } else if DayTest(t, midnight, i) {
        IncrementBump(payload.axises, below, i);
        out := out.(axises := Increment(out.axises, i));
        DayKeysUpTo(t, midnight, i);
        return;
      }
      i := i + 1;
    }
    DayKeysInRange(t, midnight);
    assert (set k | k in DayKeys(t, midnight) && k < i) == DayKeys(t, midnight);
  }

  // ---------------------------------------------------------------------------
  // Hours

  /**
   * The keys `hourPayload` increments for an event at `t`, with `hourStart`
   * the start of the current hour: 0 and 5 for the five minutes before it,
   * else 5 times the number of the five-minute step that holds `t`, counted
   * from 1; nothing from minute 55 on.
   */
  function HourKeys(t: int, hourStart: int): set<int>
  {
    if t <= hourStart - StepSeconds then {}
    else if t < hourStart then {0, 5}
    else if t < hourStart + 11 * StepSeconds then {((t - hourStart) / StepSeconds + 1) * 5}
    else {}
  }

  /** The test of iteration `i > 0` (a multiple of 5 minutes) of the loop in `hourPayload`. */
  predicate HourTest(t: int, hourStart: int, i: int)
  {
    hourStart - StepSeconds < t < hourStart + i * 60
  }

  /** The loop's own account: key 0 for the five minutes before the hour, and the first tick whose test passes. */
  lemma HourKeysFirstMatch(t: int, hourStart: int, k: int)
    ensures k in HourKeys(t, hourStart) <==>
              || (k == 0 && hourStart - StepSeconds < t < hourStart)
              || (5 <= k <= 55 && k % 5 == 0 && HourTest(t, hourStart, k)
                  && forall j :: 5 <= j < k && j % 5 == 0 ==> !HourTest(t, hourStart, j))
  {
    var q := (t - hourStart) / StepSeconds;
    assert q * StepSeconds <= t - hourStart < q * StepSeconds + StepSeconds;
    if 5 <= k <= 55 && k % 5 == 0 && HourTest(t, hourStart, k)
       && forall j :: 5 <= j < k && j % 5 == 0 ==> !HourTest(t, hourStart, j)
    {
      if t < hourStart {
        if k > 5 {
          assert HourTest(t, hourStart, 5);
        }
      } else if (q + 1) * 5 < k {
        assert HourTest(t, hourStart, (q + 1) * 5);
      } else {
        assert k == (k / 5) * 5;
      }
    }
    if k in HourKeys(t, hourStart) && k >= 5 {
      forall j | 5 <= j < k && j % 5 == 0 ensures !HourTest(t, hourStart, j) {
        assert hourStart <= t && j == (j / 5) * 5 && j / 5 <= q;
      }
    }
  }

  /** While every earlier tick failed, tick `i` is a key exactly when its own test passes. */
  lemma HourKeyAt(t: int, hourStart: int, i: int)
    requires 0 <= i <= 55 && i % 5 == 0
    requires forall j :: 5 <= j < i && j % 5 == 0 ==> !HourTest(t, hourStart, j)
    ensures i in HourKeys(t, hourStart) <==>
              if i == 0 then hourStart - StepSeconds < t < hourStart else HourTest(t, hourStart, i)
  {
    HourKeysFirstMatch(t, hourStart, i);
  }

  /** Every key of an hour chart is a tick 0, 5, ..., 55. */
  lemma HourKeysInRange(t: int, hourStart: int)
    ensures forall k :: k in HourKeys(t, hourStart) ==> 0 <= k <= 55 && k % 5 == 0
  {
  }

  /** The keys of an event below tick `i`, one tick further on. */
  lemma HourKeysBelowNext(t: int, hourStart: int, i: int)
    requires i % 5 == 0
    ensures (set k | k in HourKeys(t, hourStart) && k < i + 5)
            == (set k | k in HourKeys(t, hourStart) && k < i) + (if i in HourKeys(t, hourStart) then {i} else {})
  {
    HourKeysInRange(t, hourStart);
  }

  /** Once tick `i` passes its test after every earlier tick failed, no key lies beyond it. */
  lemma HourKeysUpTo(t: int, hourStart: int, i: int)
    requires 5 <= i && i % 5 == 0 && HourTest(t, hourStart, i)
    requires forall j :: 5 <= j < i && j % 5 == 0 ==> !HourTest(t, hourStart, j)
    ensures (set k | k in HourKeys(t, hourStart) && k < i + 5) == HourKeys(t, hourStart)
  {
    forall k | k in HourKeys(t, hourStart) ensures k <= i {
      HourKeysFirstMatch(t, hourStart, k);
      HourKeysFirstMatch(t, hourStart, i);
    }
  }

  /** Ticks are five apart: no other tick lies between one and the next. */
  lemma TickBetween(i: int, j: int)
    requires i % 5 == 0 && j % 5 == 0 && i <= j < i + 5
    ensures j == i
  {
  }

  /** `hourPayload(t, payload)`, with `hourStart` the start of the current hour. */
  method HourPayload(t: int, hourStart: int, payload: Chart) returns (out: Chart)
    ensures out == payload.(timeMeasure := "hour", axises := Bump(payload.axises, HourKeys(t, hourStart)))
  {
    out := payload.(timeMeasure := "hour");
    var i := 0;
    while i < 60
      invariant 0 <= i <= 60 && i % 5 == 0
      invariant forall j :: 5 <= j < i && j % 5 == 0 ==> !HourTest(t, hourStart, j)
      invariant out == payload.(timeMeasure := "hour", axises := Bump(payload.axises, set k | k in HourKeys(t, hourStart) && k < i))
    {
      ghost var below := set k | k in HourKeys(t, hourStart) && k < i;
      HourKeyAt(t, hourStart, i);
      HourKeysBelowNext(t, hourStart, i);
      if i == 0 {
        if hourStart - StepSeconds < t < hourStart {
          IncrementBump(payload.axises, below, 0);
          out := out.(axises := Increment(out.axises, i));
        }
      } else if HourTest(t, hourStart, i) {
        IncrementBump(payload.axises, below, i);
        out := out.(axises := Increment(out.axises, i));
        HourKeysUpTo(t, hourStart, i);
        return;
      }
      forall j | 5 <= j < i + 5 && j % 5 == 0 ensures !HourTest(t, hourStart, j) {
        if j >= i {
          TickBetween(i, j);
        }
      }
      i := i + 5;
    }
    HourKeysInRange(t, hourStart);
    assert (set k | k in HourKeys(t, hourStart) && k < i) == HourKeys(t, hourStart);
  }

  // ---------------------------------------------------------------------------
  // Tallies

  /** The counts after feeding the events, in order, to `dayPayload`. */
  function DayTally(events: seq<int>, midnight: int, axises: map<int, int>): map<int, int>
    decreases |events|
  {
    if events == [] then axises
    else Bump(DayTally(events[..|events| - 1], midnight, axises), DayKeys(events[|events| - 1], midnight))
  }

  /** How many of the events fall in day bucket `k`. */
  function DayHits(events: seq<int>, midnight: int, k: int): (n: nat)
    ensures n <= |events|
    decreases |events|
  {
    if events == [] then 0
    else DayHits(events[..|events| - 1], midnight, k) + (if k in DayKeys(events[|events| - 1], midnight) then 1 else 0)
  }

  /**
   * A tally counts, in every bucket, the events that fall in it on top of
   * the counts it started from, and adds no key outside the day's 0..23.
   */
  lemma {:induction false} DayTallyCounts(events: seq<int>, midnight: int, axises: map<int, int>, k: int)
    ensures Get(DayTally(events, midnight, axises), k) == Get(axises, k) + DayHits(events, midnight, k)
    ensures k in DayTally(events, midnight, axises) ==> k in axises || 0 <= k <= 23
    decreases |events|
  {
    if events != [] {
      var last := events[|events| - 1];
      DayTallyCounts(events[..|events| - 1], midnight, axises, k);
      BumpGet(DayTally(events[..|events| - 1], midnight, axises), DayKeys(last, midnight), k);
      DayKeysInRange(last, midnight);
    }
  }

  /** Half past hour `h` of the day that starts at `midnight`. */
  function HalfPast(midnight: int, h: int): int
  {
    midnight + h * HourSeconds + HourSeconds / 2
  }

  /** An event half past hour `h` falls in bucket h + 1 only. */
  lemma DayKeysHalfPast(midnight: int, h: int)
    requires 0 <= h < 23
    ensures DayKeys(HalfPast(midnight, h), midnight) == {h + 1}
  {
    assert (HalfPast(midnight, h) - midnight) / HourSeconds == h;
  }

  /** Events half past hours 0, 0, 2 and 22 of the day give the counts {1: 2, 3: 1, 23: 1}. */
  lemma DayTallyExample(midnight: int)
    ensures var events := [HalfPast(midnight, 0), HalfPast(midnight, 0), HalfPast(midnight, 2), HalfPast(midnight, 22)];
            DayTally(events, midnight, map[]) == map[1 := 2, 3 := 1, 23 := 1]
  {
    var x1, x3, x23 := HalfPast(midnight, 0), HalfPast(midnight, 2), HalfPast(midnight, 22);
    DayKeysHalfPast(midnight, 0);
    DayKeysHalfPast(midnight, 2);
    DayKeysHalfPast(midnight, 22);
    assert DayTally([], midnight, map[]) == map[];
    DayTallyStep([], x1, midnight, map[], 1);
    assert [] + [x1] == [x1];
    DayTallyStep([x1], x1, midnight, map[], 1);
    assert [x1] + [x1] == [x1, x1];
    DayTallyStep([x1, x1], x3, midnight, map[], 3);
    assert [x1, x1] + [x3] == [x1, x1, x3];
    DayTallyStep([x1, x1, x3], x23, midnight, map[], 23);
    assert [x1, x1, x3] + [x23] == [x1, x1, x3, x23];
    assert map[][1 := 1][1 := 2][3 := 1][23 := 1] == map[1 := 2, 3 := 1, 23 := 1];
  }

  lemma DayTallySnoc(events: seq<int>, e: int, midnight: int, axises: map<int, int>)
    ensures DayTally(events + [e], midnight, axises) == Bump(DayTally(events, midnight, axises), DayKeys(e, midnight))
  {
    assert (events + [e])[..|events|] == events;
  }

  /** An event that falls in one bucket adds one to that bucket. */
  lemma DayTallyStep(events: seq<int>, e: int, midnight: int, axises: map<int, int>, k: int)
    requires DayKeys(e, midnight) == {k}
    ensures DayTally(events + [e], midnight, axises) == Increment(DayTally(events, midnight, axises), k)
  {
    DayTallySnoc(events, e, midnight, axises);
    var before := DayTally(events, midnight, axises);
    IncrementBump(before, {}, k);
    assert Bump(before, {}) == before;
    assert {} + {k} == {k};
  }

  // ---------------------------------------------------------------------------
  // Choosing the measure

  /**
   * What one event adds to a chart under the "timeMeasure" form value:
   * "hour" and "day" pick their closure, "all" runs both into the same
   * counts, and anything else is "day".
   */
  function ChartEvent(timeMeasure: string, t: int, hourStart: int, midnight: int, payload: Chart): Chart
  {
    if timeMeasure == "hour" then payload.(timeMeasure := "hour", axises := Bump(payload.axises, HourKeys(t, hourStart)))
    else if timeMeasure == "all" then
      payload.(timeMeasure := "day",
               axises := Bump(Bump(payload.axises, HourKeys(t, hourStart)), DayKeys(t, midnight)))
    else payload.(timeMeasure := "day", axises := Bump(payload.axises, DayKeys(t, midnight)))
  }

  /**
   * Under "all" the two scales share one map and end labelled "day": a key
   * present in both scales counts the event twice.
   */
  lemma AllMixesScales(t: int, hourStart: int, midnight: int, payload: Chart, k: int)
    ensures ChartEvent("all", t, hourStart, midnight, payload).timeMeasure == "day"
    ensures Get(ChartEvent("all", t, hourStart, midnight, payload).axises, k)
            == Get(payload.axises, k) + (if k in HourKeys(t, hourStart) then 1 else 0)
                                      + (if k in DayKeys(t, midnight) then 1 else 0)
  {
    BumpGet(payload.axises, HourKeys(t, hourStart), k);
    BumpGet(Bump(payload.axises, HourKeys(t, hourStart)), DayKeys(t, midnight), k);
  }

  /** The `switch timeMeasure` of `updateChartHandler` for one event. */
  method AddEvent(timeMeasure: string, t: int, hourStart: int, midnight: int, payload: Chart) returns (out: Chart)
    ensures out == ChartEvent(timeMeasure, t, hourStart, midnight, payload)
  {
    if timeMeasure == "hour" {
      out := HourPayload(t, hourStart, payload);
    } else if timeMeasure == "day" {
      out := DayPayload(t, midnight, payload);
    } else if timeMeasure == "all" {
      out := HourPayload(t, hourStart, payload);
      out := DayPayload(t, midnight, out);
    } else {
      out := DayPayload(t, midnight, payload);
    }
  }
}
