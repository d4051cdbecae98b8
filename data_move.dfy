/** The data-movement counter `DataMoveCnter` of
    patrickstar/utils/global_timer.py: per transfer key, the number of
    transfers (`times_dict`) and the bytes moved (`amount_dict`). */
module DataMove {
  import Timing

  /** The two maps of a counter, as a value. */
  datatype Counter = Counter(times: map<string, nat>, amount: map<string, int>)

  const Empty := Counter(map[], map[])

  /** The two maps track the same keys. */
  predicate SameKeys(c: Counter)
  {
    c.times.Keys == c.amount.Keys
  }

  /** The number of transfers under a key, an unseen key counting as 0. */
  function Count(c: Counter, key: string): nat
  {
    if key in c.times then c.times[key] else 0
  }

  /** The bytes moved under a key, an unseen key counting as 0. */
  function Amount(c: Counter, key: string): int
  {
    if key in c.amount then c.amount[key] else 0
  }

  /** `update`: one more transfer of `size` bytes under `key`; a new key
      starts from nothing, and every other key is left as it was. */
  function Recorded(c: Counter, key: string, size: int): (r: Counter)
    requires SameKeys(c)
    ensures SameKeys(r)
    ensures r.times.Keys == c.times.Keys + {key}
    ensures Count(r, key) == Count(c, key) + 1
    ensures Amount(r, key) == Amount(c, key) + size
    ensures forall k :: k in c.times && k != key ==> r.times[k] == c.times[k] && r.amount[k] == c.amount[k]
  {
    if key in c.times then
      Counter(c.times[key := c.times[key] + 1], c.amount[key := c.amount[key] + size])
    else
      Counter(c.times[key := 1], c.amount[key := size])
  }

  /** `reset`: every count and amount becomes 0; no key is added or removed. */
  function Zeroed(c: Counter): (r: Counter)
    requires SameKeys(c)
    ensures SameKeys(r) && r.times.Keys == c.times.Keys
    ensures forall k :: k in r.times ==> r.times[k] == 0 && r.amount[k] == 0
  {
    Counter(map k | k in c.times :: 0, map k | k in c.times :: 0)
  }

  /** The counter as an object whose methods update its two maps in place. */
  class DataMoveCounter {
    var times: map<string, nat>
    var amount: map<string, int>

    function State(): Counter
      reads this
    {
      Counter(times, amount)
    }

    ghost predicate Valid()
      reads this
    {
      SameKeys(State())
    }

    constructor ()
      ensures Valid() && State() == Empty
    {
      times := map[];
      amount := map[];
    }

    method Update(key: string, size: int)
      requires Valid()
      modifies this
      ensures Valid()
      ensures State() == Recorded(old(State()), key, size)
    {
      if key in times {
        times := times[key := times[key] + 1];
        amount := amount[key := amount[key] + size];
      } else {
        times := times[key := 1];
        amount := amount[key := size];
      }
    }

    method Reset()
      requires Valid()
      modifies this
      ensures Valid()
      ensures State() == Zeroed(old(State()))
    {
      var pending := times.Keys;
      while pending != {}
        invariant pending <= times.Keys == amount.Keys == old(times).Keys
        invariant forall k :: k in times && k !in pending ==> times[k] == 0 && amount[k] == 0
        decreases pending
      {
        var k :| k in pending;
        times := times[k := 0];
        amount := amount[k := 0];
        pending := pending - {k};
      }
      assert times == Zeroed(old(State())).times;
      assert amount == Zeroed(old(State())).amount;
    }
  }

  // ---------------------------------------------------------------------
  // Sequences of updates

  /** One `update` call: a transfer key and a size in bytes. */
  datatype Move = Move(key: string, size: int)

  /** The counter after the moves, applied in order. */
  function Replay(c: Counter, moves: seq<Move>): (r: Counter)
    requires SameKeys(c)
    ensures SameKeys(r)
    decreases |moves|
  {
    if moves == [] then c
    else
      var last := moves[|moves| - 1];
      Recorded(Replay(c, moves[..|moves| - 1]), last.key, last.size)
  }

  /** How many of the moves are under `key`. */
  function CallsFor(moves: seq<Move>, key: string): nat
  {
    if moves == [] then 0
    else CallsFor(moves[..|moves| - 1], key) + (if moves[|moves| - 1].key == key then 1 else 0)
  }

  /** The sum of the sizes of the moves under `key`. */
  function SizesFor(moves: seq<Move>, key: string): int
  {
    if moves == [] then 0
    else SizesFor(moves[..|moves| - 1], key) + (if moves[|moves| - 1].key == key then moves[|moves| - 1].size else 0)
  }

  /** After any moves, each key's count grows by the number of moves under it
      and its amount by the sum of their sizes; a key is present afterwards
      exactly when it was present before or some move used it. */
  lemma {:induction false} ReplayAccumulates(c: Counter, moves: seq<Move>, key: string)
    requires SameKeys(c)
    decreases |moves|
    ensures Count(Replay(c, moves), key) == Count(c, key) + CallsFor(moves, key)
    ensures Amount(Replay(c, moves), key) == Amount(c, key) + SizesFor(moves, key)
    ensures key in Replay(c, moves).times <==> key in c.times || CallsFor(moves, key) > 0
  {
    if moves != [] {
      ReplayAccumulates(c, moves[..|moves| - 1], key);
    }
  }

  /** From an empty counter, a key's count is the number of its moves and its
      amount the sum of their sizes. */
  lemma FromEmpty(moves: seq<Move>, key: string)
    ensures Count(Replay(Empty, moves), key) == CallsFor(moves, key)
    ensures Amount(Replay(Empty, moves), key) == SizesFor(moves, key)
    ensures key in Replay(Empty, moves).times <==> CallsFor(moves, key) > 0
  {
    ReplayAccumulates(Empty, moves, key);
  }

  /** Two transfers of 1 MiB under one key count 2 transfers and 2 MiB. */
  lemma TwoTransfersOfOneMiB()
    ensures Count(Replay(Empty, [Move("grad_sync", 1048576), Move("grad_sync", 1048576)]), "grad_sync") == 2
    ensures Amount(Replay(Empty, [Move("grad_sync", 1048576), Move("grad_sync", 1048576)]), "grad_sync") == 2097152
  {
    FromEmpty([Move("grad_sync", 1048576), Move("grad_sync", 1048576)], "grad_sync");
  }

  // ---------------------------------------------------------------------
  // The pure parts of `print`

  /** The guard of the throughput line as written: the key has a timer total
      and the amount is non-zero. It never looks at the divisor. */
  predicate ThroughputGuardAsWritten(key: string, amount: int, elapseStat: map<string, int>)
  {
    key in elapseStat && amount != 0
  }

  /** With the guard as written, a key whose timer total is 0 (as every total
      is right after the timer is reset) passes it, and the throughput is then
      computed by dividing by 0. */
  lemma GuardAsWrittenAdmitsZeroDivisor()
    ensures exists key, amount, elapseStat ::
      ThroughputGuardAsWritten(key, amount, elapseStat) && elapseStat[key] == 0
  {
    assert ThroughputGuardAsWritten("grad_sync", 1048576, map["grad_sync" := 0]);
  }

  /** The reachable state behind the counterexample: after the timer's reset
      every key it has timed has the total 0, and a non-zero amount under such
      a key passes the guard as written. */
  lemma ResetMakesDivisorZero(t: Timing.TimerState, key: string, amount: int)
    requires key in t.elapseStat && amount != 0
    ensures ThroughputGuardAsWritten(key, amount, Timing.Cleared(t).elapseStat)
    ensures Timing.Cleared(t).elapseStat[key] == 0
  {
  }

  /** The guard of the throughput line, checking the divisor too: it only
      lets through a key whose timer total can be divided by. */
  function ThroughputGuardCorrected(key: string, amount: int, elapseStat: map<string, int>): (b: bool)
    ensures b ==> key in elapseStat && elapseStat[key] != 0
  {
    key in elapseStat && elapseStat[key] != 0 && amount != 0
  }

  /** A statement about the guards alone: the corrected guard implies the
      guard as written and agrees with it wherever the divisor is non-zero.
      `Report`'s contract carries it to the printed line. */
  lemma CorrectedGuardRefinesAsWritten(key: string, amount: int, elapseStat: map<string, int>)
    ensures key in elapseStat && elapseStat[key] != 0 ==>
              (ThroughputGuardCorrected(key, amount, elapseStat) <==> ThroughputGuardAsWritten(key, amount, elapseStat))
    ensures ThroughputGuardCorrected(key, amount, elapseStat) ==> ThroughputGuardAsWritten(key, amount, elapseStat)
  {
  }

  /** The two guards differ exactly on a timed key whose total is 0 and whose
      amount is non-zero: the case in which the line as written divides by 0. */
  lemma GuardsDifferOnZeroDivisorOnly(key: string, amount: int, elapseStat: map<string, int>)
    ensures ThroughputGuardAsWritten(key, amount, elapseStat) != ThroughputGuardCorrected(key, amount, elapseStat)
            <==> key in elapseStat && elapseStat[key] == 0 && amount != 0
  {
  }

  /** One line of the report: with the figures for the throughput
      (`amount` bytes in `elapsed` time units, over `times` transfers), or with
      the amount only. */
  datatype Line = Throughput(amount: int, times: nat, elapsed: int) | AmountOnly(amount: int)

  /** `print` of the counter, with the timer's totals passed in: a line per
      key, showing the throughput exactly when the guard lets it through. */
  method Report(c: Counter, elapseStat: map<string, int>) returns (lines: map<string, Line>)
    requires SameKeys(c)
    ensures lines.Keys == c.times.Keys
    ensures forall k :: k in lines ==> lines[k].amount == c.amount[k]
    ensures forall k :: k in lines ==>
              (lines[k].Throughput? <==> ThroughputGuardCorrected(k, c.amount[k], elapseStat))
    ensures forall k :: k in lines && !(k in elapseStat && elapseStat[k] == 0) ==>
              (lines[k].Throughput? <==> ThroughputGuardAsWritten(k, c.amount[k], elapseStat))
    ensures forall k :: k in lines && lines[k].Throughput? ==>
              lines[k].times == c.times[k] && k in elapseStat && lines[k].elapsed == elapseStat[k] && lines[k].elapsed != 0
  {
    lines := map[];
    var pending := c.times.Keys;
    while pending != {}
      invariant pending <= c.times.Keys
      invariant lines.Keys == c.times.Keys - pending
      invariant forall k :: k in lines ==> lines[k].amount == c.amount[k]
      invariant forall k :: k in lines ==>
                  (lines[k].Throughput? <==> ThroughputGuardCorrected(k, c.amount[k], elapseStat))
      invariant forall k :: k in lines && lines[k].Throughput? ==>
                  lines[k].times == c.times[k] && k in elapseStat && lines[k].elapsed == elapseStat[k] && lines[k].elapsed != 0
      decreases pending
    {
      var k :| k in pending;
      if k in elapseStat && elapseStat[k] != 0 && c.amount[k] != 0 {
        lines := lines[k := Throughput(c.amount[k], c.times[k], elapseStat[k])];
      } else {
        lines := lines[k := AmountOnly(c.amount[k])];
      }
      pending := pending - {k};
    }
  }

  /** A statement about the guard: a key with no timer total, such as a
      transfer key never timed, fails it, so `Report`'s contract gives that
      key the amount-only line. */
  lemma UntimedKeyShowsAmountOnly(key: string, amount: int, elapseStat: map<string, int>)
    requires key !in elapseStat
    ensures !ThroughputGuardCorrected(key, amount, elapseStat)
  {
  }

  /** A statement about the guard after a reset: every amount is 0, so no key
      passes it, and `Report`'s contract then gives every key the amount-only
      line. */
  lemma ResetShowsNoThroughput(c: Counter, elapseStat: map<string, int>)
    requires SameKeys(c)
    ensures forall k :: k in Zeroed(c).times ==> !ThroughputGuardCorrected(k, Zeroed(c).amount[k], elapseStat)
  {
  }
}
