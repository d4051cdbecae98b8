/** The named-interval timer `GlobalTimer` of patrickstar/utils/global_timer.py.

    Two maps are kept per key: the accumulated duration (`elapse_stat`) and
    the start timestamp of the interval that is running (`start_time`), where
    the timestamp 0 means "not running". Clock readings are passed in as
    `now` instead of being read from the system clock. */
module Timing {
  import opened Wrappers

  /** A clock reading. The clock never reads 0, which the start-time map
      reserves for a key that is not running. */
  type Tick = n: nat | n > 0 witness 1

  datatype TimerError =
    | AlreadyRunning(key: string)   // the double-start assertion
    | NeverStarted(key: string)     // lookup of a start time that was never recorded
    | MissingPhase(key: string)     // the report's lookup of a required phase total

  /** The two maps of a timer, as a value. */
  datatype TimerState = TimerState(elapseStat: map<string, int>, startTime: map<string, nat>)

  const Empty := TimerState(map[], map[])

  /** The three phases whose totals make up the report's overall time. */
  const Phases: seq<string> := ["FWD", "BWD", "ADAM"]

  /** The key has an interval in progress. */
  predicate Running(t: TimerState, key: string)
  {
    key in t.startTime && t.startTime[key] != 0
  }

  /** The accumulated duration of a key, a key never finished counting as 0. */
  function Total(t: TimerState, key: string): int
  {
    if key in t.elapseStat then t.elapseStat[key] else 0
  }

  /** `start_profile`: refuse a key that is running, otherwise record `now`
      as its start time. */
  function Started(t: TimerState, key: string, now: Tick): (r: Result<TimerState, TimerError>)
    ensures r.Err? <==> Running(t, key)
    ensures r.Err? ==> r.error == AlreadyRunning(key)
    ensures r.Ok? ==> Running(r.value, key) && r.value.startTime[key] == now
    ensures r.Ok? ==> r.value.elapseStat == t.elapseStat
    ensures r.Ok? ==> r.value.startTime.Keys == t.startTime.Keys + {key}
    ensures r.Ok? ==> forall k :: k in t.startTime && k != key ==> r.value.startTime[k] == t.startTime[k]
  {
    if key in t.startTime && t.startTime[key] != 0 then
      Err(AlreadyRunning(key))
    else
      Ok(t.(startTime := t.startTime[key := now]))
  }

  /** `finish_profile`: add `now` minus the recorded start to the key's total
      and mark the key as not running; a key with no recorded start fails. */
  function Finished(t: TimerState, key: string, now: Tick): (r: Result<TimerState, TimerError>)
    ensures r.Err? <==> key !in t.startTime
    ensures r.Err? ==> r.error == NeverStarted(key)
    ensures r.Ok? ==> !Running(r.value, key) && key in r.value.startTime
    ensures r.Ok? ==> key in r.value.elapseStat && Total(r.value, key) == Total(t, key) + (now - t.startTime[key])
    ensures r.Ok? ==> r.value.elapseStat.Keys == t.elapseStat.Keys + {key}
    ensures r.Ok? ==> r.value.startTime.Keys == t.startTime.Keys
    ensures r.Ok? ==> forall k :: k in t.elapseStat && k != key ==> r.value.elapseStat[k] == t.elapseStat[k]
    ensures r.Ok? ==> forall k :: k in t.startTime && k != key ==> r.value.startTime[k] == t.startTime[k]
  {
    if key !in t.startTime then
      Err(NeverStarted(key))
    else
      var elapse := now - t.startTime[key];
      var total := if key in t.elapseStat then t.elapseStat[key] + elapse else elapse;
      Ok(TimerState(t.elapseStat[key := total], t.startTime[key := 0]))
  }

  /** `reset`: every accumulated total becomes 0; no key is added or removed
      and the start times are left alone. */
  function Cleared(t: TimerState): (r: TimerState)
    ensures r.elapseStat.Keys == t.elapseStat.Keys
    ensures forall k :: k in r.elapseStat ==> r.elapseStat[k] == 0
    ensures r.startTime == t.startTime
  {
    t.(elapseStat := map k | k in t.elapseStat :: 0)
  }

  /** The timer as an object whose methods update its two maps in place. */
  class GlobalTimer {
    var elapseStat: map<string, int>
    var startTime: map<string, nat>

    function State(): TimerState
      reads this
    {
      TimerState(elapseStat, startTime)
    }

    constructor ()
      ensures State() == Empty
    {
      elapseStat := map[];
      startTime := map[];
    }

    method StartProfile(key: string, now: Tick) returns (o: Outcome<TimerError>)
      modifies this
      ensures o.Pass? ==> Started(old(State()), key, now) == Ok(State())
      ensures o.Fail? ==> Started(old(State()), key, now) == Err(o.error) && State() == old(State())
    {
      if key in startTime && startTime[key] != 0 {
        return Fail(AlreadyRunning(key));
      }
      startTime := startTime[key := now];
      o := Pass;
    }

    method FinishProfile(key: string, now: Tick) returns (o: Outcome<TimerError>)
      modifies this
      ensures o.Pass? ==> Finished(old(State()), key, now) == Ok(State())
      ensures o.Fail? ==> Finished(old(State()), key, now) == Err(o.error) && State() == old(State())
    {
      if key !in startTime {
        return Fail(NeverStarted(key));
      }
      if key in elapseStat {
        elapseStat := elapseStat[key := elapseStat[key] + (now - startTime[key])];
      } else {
        elapseStat := elapseStat[key := now - startTime[key]];
      }
      startTime := startTime[key := 0];
      o := Pass;
    }

    method Reset()
      modifies this
      ensures State() == Cleared(old(State()))
    {
      var pending := elapseStat.Keys;
      while pending != {}
        invariant pending <= elapseStat.Keys == old(elapseStat).Keys
        invariant startTime == old(startTime)
        invariant forall k :: k in elapseStat && k !in pending ==> elapseStat[k] == 0
        decreases pending
      {
        var k :| k in pending;
        elapseStat := elapseStat[k := 0];
        pending := pending - {k};
      }
      assert elapseStat == Cleared(old(State())).elapseStat;
    }
  }

  // ---------------------------------------------------------------------
  // Sequences of calls

  datatype Call = StartCall(key: string, now: Tick) | FinishCall(key: string, now: Tick)

  function Apply(t: TimerState, c: Call): Result<TimerState, TimerError>
  {
    match c
    case StartCall(k, now) => Started(t, k, now)
    case FinishCall(k, now) => Finished(t, k, now)
  }

  /** Runs calls in order; the first failing call stops the run, as the
      raised exception would. */
  function Run(t: TimerState, calls: seq<Call>): Result<TimerState, TimerError>
    decreases |calls|
  {
    if calls == [] then Ok(t)
    else
      match Apply(t, calls[0])
      case Err(e) => Err(e)
      case Ok(t') => Run(t', calls[1..])
  }

  /** One measured interval: the clock at `start_profile` and at `finish_profile`. */
  datatype Span = Span(begin: Tick, end: Tick)

  /** A matched start/finish pair of calls on `key` for each span, in order. */
  function Paired(key: string, spans: seq<Span>): seq<Call>
  {
    if spans == [] then []
    else [StartCall(key, spans[0].begin), FinishCall(key, spans[0].end)] + Paired(key, spans[1..])
  }

  /** The sum of the spans' durations. */
  function Elapsed(spans: seq<Span>): int
  {
    if spans == [] then 0 else (spans[0].end - spans[0].begin) + Elapsed(spans[1..])
  }

  /** Matched start/finish pairs on a key that is not running all succeed; the
      key's total grows by the sum of the intervals, the key ends stopped, and
      every other key keeps its total and its running state. */
  lemma {:induction false} PairedSessionsAccumulate(t: TimerState, key: string, spans: seq<Span>)
    requires !Running(t, key)
    decreases |spans|
    ensures Run(t, Paired(key, spans)).Ok?
    ensures !Running(Run(t, Paired(key, spans)).value, key)
    ensures Total(Run(t, Paired(key, spans)).value, key) == Total(t, key) + Elapsed(spans)
    ensures forall k :: k != key ==>
              Total(Run(t, Paired(key, spans)).value, k) == Total(t, k) &&
              (Running(Run(t, Paired(key, spans)).value, k) <==> Running(t, k))
  {
    if spans != [] {
      var s := spans[0];
      var t1 := Started(t, key, s.begin).value;
      var t2 := Finished(t1, key, s.end).value;
      var calls := Paired(key, spans);
      assert calls[0] == StartCall(key, s.begin);
      assert calls[1..][0] == FinishCall(key, s.end);
      assert calls[1..][1..] == Paired(key, spans[1..]);
      assert Run(t, calls) == Run(t2, Paired(key, spans[1..]));
      PairedSessionsAccumulate(t2, key, spans[1..]);
    }
  }

  /** Starting a key twice without a finish in between fails the second time
      and leaves the state of the first start in place. */
  lemma DoubleStartFails(t: TimerState, key: string, first: Tick, second: Tick)
    requires Started(t, key, first).Ok?
    ensures Started(Started(t, key, first).value, key, second) == Err(AlreadyRunning(key))
  {
  }

  /** After a finish, the key may be started again. */
  lemma FinishThenStartSucceeds(t: TimerState, key: string, stop: Tick, again: Tick)
    requires Finished(t, key, stop).Ok?
    ensures Started(Finished(t, key, stop).value, key, again).Ok?
  {
  }

  /** A reset zeroes the totals but keeps a running interval: finishing it
      afterwards counts from its original start. */
  lemma ResetKeepsRunningInterval(t: TimerState, key: string, now: Tick)
    requires Running(t, key)
    ensures Running(Cleared(t), key)
    ensures Finished(Cleared(t), key, now).Ok?
    ensures Total(Finished(Cleared(t), key, now).value, key) == now - t.startTime[key]
  {
  }

  /** Finishing a key that is stopped is not refused: its start time reads as
      the sentinel 0, so the whole clock reading `now` is added to its total. */
  lemma FinishWhenStoppedAddsNow(t: TimerState, key: string, now: Tick)
    requires key in t.startTime && !Running(t, key)
    ensures Finished(t, key, now).Ok?
    ensures Total(Finished(t, key, now).value, key) == Total(t, key) + now
  {
  }

  // ---------------------------------------------------------------------
  // The pure parts of `print`

  /** The column width of the report: at least 20, and at least two more than
      the longest key. */
  method PaddingWidth(keys: set<string>) returns (w: int)
    ensures w >= 20
    ensures forall k :: k in keys ==> |k| + 2 <= w
    ensures w == 20 || exists k :: k in keys && w == |k| + 2
  {
    w := 20;
    var pending := keys;
    while pending != {}
      invariant pending <= keys
      invariant w >= 20
      invariant forall k :: k in keys && k !in pending ==> |k| + 2 <= w
      invariant w == 20 || exists k :: k in keys && w == |k| + 2
      decreases pending
    {
      var k :| k in pending;
      if w < |k| + 2 {
        w := |k| + 2;
      }
      pending := pending - {k};
    }
  }

  /** What the timer report shows besides the durations themselves: the
      column width, the number of padding dots after each key and the overall
      time that the percentages are taken of. */
  datatype ProfileLayout = ProfileLayout(width: int, dots: map<string, int>, overall: int)

  /** The first of the three phases missing from the totals, if any. */
  function MissingPhaseOf(elapseStat: map<string, int>): (r: Result<(), TimerError>)
    ensures r.Ok? <==> forall p :: p in Phases ==> p in elapseStat
    ensures r.Err? ==> r.error.MissingPhase? && r.error.key in Phases && r.error.key !in elapseStat
    ensures r.Err? && r.error.key != Phases[0] ==> Phases[0] in elapseStat
    ensures r.Err? && r.error.key == Phases[2] ==> Phases[1] in elapseStat
  {
    if "FWD" !in elapseStat then Err(MissingPhase("FWD"))
    else if "BWD" !in elapseStat then Err(MissingPhase("BWD"))
    else if "ADAM" !in elapseStat then Err(MissingPhase("ADAM"))
    else Ok(())
  }

  /** `print` of the timer, over the totals map: fails when a phase total is
      missing; otherwise every key gets at least two padding dots and the
      overall time is the sum of the three phase totals. */
  method ProfileReport(elapseStat: map<string, int>) returns (r: Result<ProfileLayout, TimerError>)
    ensures r.Err? <==> exists p :: p in Phases && p !in elapseStat
    ensures r.Err? ==> r == Err(MissingPhaseOf(elapseStat).error)
    ensures r.Ok? ==> r.value.overall == elapseStat["FWD"] + elapseStat["BWD"] + elapseStat["ADAM"]
    ensures r.Ok? ==> r.value.dots.Keys == elapseStat.Keys
    ensures r.Ok? ==> forall k :: k in r.value.dots ==> r.value.dots[k] >= 2 && |k| + r.value.dots[k] == r.value.width
    ensures r.Ok? ==> r.value.width >= 20
    ensures r.Ok? ==> r.value.width == 20 || exists k :: k in r.value.dots && r.value.dots[k] == 2
  {
    var width := PaddingWidth(elapseStat.Keys);
    var missing := MissingPhaseOf(elapseStat);
    if missing.Err? {
      return Err(missing.error);
    }
    var overall := elapseStat["FWD"] + elapseStat["BWD"] + elapseStat["ADAM"];
    var dots := map k | k in elapseStat :: width - |k|;
    r := Ok(ProfileLayout(width, dots, overall));
  }
}
