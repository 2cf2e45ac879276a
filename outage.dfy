/** The outage state tracker: the body of the poll loop in `main`. It keeps
    `continuing` (an outage row is open) and `startTime` (taken once, when the
    process starts) and, for each reachability sample, runs one of four
    branches that insert a row, update the latest row, or do nothing. */
module Outage {
  import opened PingTable
  import Prober

  /** The four branches of the loop body's if / else-if chain. */
  datatype Case = Recovered | SteadyUp | StillDown | NewOutage

  /** Which branch a sample takes: every `(internetIsUp, continuing)` pair
      selects exactly one. */
  function Classify(up: bool, continuing: bool): (c: Case)
    ensures c == Recovered <==> up && continuing
    ensures c == SteadyUp <==> up && !continuing
    ensures c == StillDown <==> !up && continuing
    ensures c == NewOutage <==> !up && !continuing
  {
    if up && continuing then Recovered
    else if up && !continuing then SteadyUp
    else if !up && continuing then StillDown
    else NewOutage
  }

  /** The tracker's variables together with the `ping` table. */
  datatype State = State(continuing: bool, startTime: int, rows: seq<Row>, nextId: int)

  /** One reachability sample: the probe's verdict and the time read just
      before probing, in nanoseconds. */
  datatype Sample = Sample(up: bool, now: int)

  ghost predicate Inv(s: State)
  {
    WellFormed(s.rows, s.nextId)
  }

  /** One iteration of the poll loop. */
  function Observe(s: State, up: bool, now: int): State
  {
    match Classify(up, s.continuing)
    case Recovered =>
      s.(rows := UpdateLatest(s.rows, Milliseconds(now - s.startTime)), continuing := false)
    case SteadyUp =>
      s
    case StillDown =>
      s.(rows := UpdateLatest(s.rows, Milliseconds(now - s.startTime)))
    case NewOutage =>
      s.(continuing := true, rows := s.rows + [Row(s.nextId, s.startTime, 0, true)], nextId := s.nextId + 1)
  }

  /** The loop driven by a finite sequence of samples, in order. */
  function Run(s: State, samples: seq<Sample>): State
    decreases |samples|
  {
    if samples == [] then s
    else
      var last := samples[|samples| - 1];
      Observe(Run(s, samples[..|samples| - 1]), last.up, last.now)
  }

  /** The value of `continuing` before the first sample and after each one. */
  function History(s: State, samples: seq<Sample>): (h: seq<bool>)
    ensures |h| == |samples| + 1
  {
    seq(|samples| + 1, i requires 0 <= i <= |samples| => Run(s, samples[..i]).continuing)
  }

  /** The number of false-to-true steps in a sequence of flags. */
  function Rises(flags: seq<bool>): nat
    decreases |flags|
  {
    if |flags| < 2 then 0
    else Rises(flags[..|flags| - 1]) + (if !flags[|flags| - 2] && flags[|flags| - 1] then 1 else 0)
  }

  /** After any sample, `continuing` is the negation of the sample. */
  lemma ContinuingFollowsSample(s: State, up: bool, now: int)
    ensures Observe(s, up, now).continuing == !up
    ensures Observe(s, up, now).startTime == s.startTime
  {
  }

  /** Case 1, up and continuing: the latest row gets the time since process
      start in milliseconds (and `continuing = true` in the table), nothing
      else in the table changes, and afterwards the tracker is not continuing. */
  lemma RecoveredEffect(s: State, now: int)
    requires Inv(s) && s.continuing
    ensures var r := Observe(s, true, now);
      && !r.continuing && r.startTime == s.startTime && r.nextId == s.nextId
      && |r.rows| == |s.rows|
      && (s.rows == [] ==> r.rows == s.rows)
      && (s.rows != [] ==>
            var k := Latest(s.rows);
            r.rows == s.rows[k := s.rows[k].(durationMs := Milliseconds(now - s.startTime), continuing := true)])
  {
    UpdateLatestEffect(s.rows, s.nextId, Milliseconds(now - s.startTime));
  }

  /** Case 2, up and not continuing: nothing changes, so a repeated up-sample
      is a no-op. */
  lemma SteadyUpEffect(s: State, now: int, later: int)
    requires !s.continuing
    ensures Observe(s, true, now) == s
    ensures Observe(Observe(s, true, now), true, later) == s
  {
  }

  /** Case 3, down and continuing: no row is inserted, the latest row's
      duration becomes the time since process start in milliseconds, and the
      tracker stays continuing. */
  lemma StillDownEffect(s: State, now: int)
    requires Inv(s) && s.continuing
    ensures var r := Observe(s, false, now);
      && r.continuing && r.startTime == s.startTime && r.nextId == s.nextId
      && |r.rows| == |s.rows|
      && (s.rows == [] ==> r.rows == s.rows)
      && (s.rows != [] ==>
            var k := Latest(s.rows);
            r.rows == s.rows[k := s.rows[k].(durationMs := Milliseconds(now - s.startTime), continuing := true)])
  {
    UpdateLatestEffect(s.rows, s.nextId, Milliseconds(now - s.startTime));
  }

  /** Case 4, down and not continuing: exactly one row is appended, with the
      process start time (not `now`), duration 0, continuing true and an id
      greater than every id in the table; `startTime` stays as it was. */
  lemma NewOutageEffect(s: State, now: int)
    requires Inv(s) && !s.continuing
    ensures var r := Observe(s, false, now);
      && r.continuing && r.startTime == s.startTime && r.nextId == s.nextId + 1
      && |r.rows| == |s.rows| + 1
      && r.rows[..|s.rows|] == s.rows
      && r.rows[|s.rows|] == Row(s.nextId, s.startTime, 0, true)
      && (forall i :: 0 <= i < |s.rows| ==> s.rows[i].id < r.rows[|s.rows|].id)
      && Inv(r)
  {
    var r := Observe(s, false, now);
    assert r.rows[..|s.rows|] == s.rows;
  }

  /** Every branch keeps ids positive, increasing in table order and below
      the next id. */
  lemma ObserveKeepsInv(s: State, up: bool, now: int)
    requires Inv(s)
    ensures Inv(Observe(s, up, now))
  {
    if s.continuing {
      UpdateLatestKeepsKeys(s.rows, s.nextId, Milliseconds(now - s.startTime));
    }
  }

  /** A down-sample of an open outage followed by any sample never shrinks
      the stored duration when the clock does not go back: the second sample
      is a case 3 or the recovery of case 1, both update the same row, and the
      duration is recomputed from the process start each time. */
  lemma DurationGrows(s: State, t1: int, up2: bool, t2: int)
    requires Inv(s) && s.continuing && s.rows != [] && t1 <= t2
    ensures var s1 := Observe(s, false, t1);
      var s2 := Observe(s1, up2, t2);
      var k := Latest(s.rows);
      && Latest(s1.rows) == k
      && s1.rows[k].durationMs == Milliseconds(t1 - s.startTime)
      && s2.rows[k].durationMs == Milliseconds(t2 - s.startTime)
      && s1.rows[k].durationMs <= s2.rows[k].durationMs
  {
    var s1 := Observe(s, false, t1);
    StillDownEffect(s, t1);
    UpdateLatestKeepsKeys(s.rows, s.nextId, Milliseconds(t1 - s.startTime));
    LatestOnStartTimes(s.rows, s1.rows);
    if up2 {
      RecoveredEffect(s1, t2);
    } else {
      StillDownEffect(s1, t2);
    }
    MillisecondsMonotone(t1 - s.startTime, t2 - s.startTime);
  }

  /** While an outage stays open (every sample but possibly the last is
      down), each sample updates the same row, the one latest at the start,
      and leaves in it the time from process start to that sample. */
  lemma {:induction false} OpenEpisodeDuration(s: State, samples: seq<Sample>)
    requires Inv(s) && s.continuing && s.rows != [] && samples != []
    requires forall i :: 0 <= i < |samples| - 1 ==> !samples[i].up
    ensures Inv(Run(s, samples))
    ensures Run(s, samples).startTime == s.startTime
    ensures |Run(s, samples).rows| == |s.rows|
    ensures Latest(Run(s, samples).rows) == Latest(s.rows)
    ensures Run(s, samples).rows[Latest(s.rows)].durationMs == Milliseconds(samples[|samples| - 1].now - s.startTime)
    ensures Run(s, samples).continuing == !samples[|samples| - 1].up
    decreases |samples|
  {
    var n := |samples|;
    var last := samples[n - 1];
    var init := samples[..n - 1];
    assert Run(s, samples) == Observe(Run(s, init), last.up, last.now);
    if n == 1 {
      assert init == [];
      OpenExtend(s, s, last.up, last.now);
    } else {
      assert init[|init| - 1] == samples[n - 2];
      OpenEpisodeDuration(s, init);
      OpenExtend(s, Run(s, init), last.up, last.now);
    }
  }

  /** One sample while an outage is open (case 1 or case 3), from a state
      `prev` that agrees with `s` on the start time, the row count and the
      latest row: that row stays the latest and gets the time from process
      start to `now`. */
  lemma OpenExtend(s: State, prev: State, up: bool, now: int)
    requires Inv(prev) && prev.continuing && prev.rows != [] && s.rows != []
    requires prev.startTime == s.startTime && |prev.rows| == |s.rows| && Latest(prev.rows) == Latest(s.rows)
    ensures var r := Observe(prev, up, now);
      && Inv(r) && r.startTime == s.startTime && |r.rows| == |s.rows|
      && Latest(r.rows) == Latest(s.rows)
      && r.rows[Latest(s.rows)].durationMs == Milliseconds(now - s.startTime)
      && r.continuing == !up
  {
    var d := Milliseconds(now - prev.startTime);
    UpdateLatestEffect(prev.rows, prev.nextId, d);
    UpdateLatestKeepsKeys(prev.rows, prev.nextId, d);
    LatestOnStartTimes(prev.rows, Observe(prev, up, now).rows);
  }

  /** Along an open outage whose sample times do not go back, the duration
      stored after a later sample is at least the one stored after an earlier
      sample. */
  lemma RunDurationGrows(s: State, samples: seq<Sample>, i: nat, j: nat)
    requires Inv(s) && s.continuing && s.rows != []
    requires i <= j < |samples|
    requires forall a :: 0 <= a < |samples| - 1 ==> !samples[a].up
    requires forall a, b :: 0 <= a <= b < |samples| ==> samples[a].now <= samples[b].now
    ensures var k := Latest(s.rows);
      && k < |Run(s, samples[..i + 1]).rows| && k < |Run(s, samples[..j + 1]).rows|
      && Run(s, samples[..i + 1]).rows[k].durationMs <= Run(s, samples[..j + 1]).rows[k].durationMs
  {
    var si, sj := samples[..i + 1], samples[..j + 1];
    assert si[|si| - 1] == samples[i] && sj[|sj| - 1] == samples[j];
    OpenEpisodeDuration(s, si);
    OpenEpisodeDuration(s, sj);
    MillisecondsMonotone(samples[i].now - s.startTime, samples[j].now - s.startTime);
  }

  /** The latest row is determined by the start times alone. */
  lemma {:induction false} LatestOnStartTimes(a: seq<Row>, b: seq<Row>)
    requires |a| == |b| > 0
    requires forall i :: 0 <= i < |a| ==> a[i].startTime == b[i].startTime
    ensures Latest(a) == Latest(b)
    decreases |a|
  {
    if |a| > 1 {
      LatestOnStartTimes(a[..|a| - 1], b[..|b| - 1]);
    }
  }

  /** Truncation toward zero never orders two durations the other way. */
  lemma MillisecondsMonotone(d1: int, d2: int)
    requires d1 <= d2
    ensures Milliseconds(d1) <= Milliseconds(d2)
  {
  }

  /** Rows are added only in case 4: after any sample sequence the table has
      grown by the number of false-to-true steps of `continuing`, and the id
      counter has advanced by as many. */
  lemma {:induction false} RunRowCount(s: State, samples: seq<Sample>)
    ensures |Run(s, samples).rows| == |s.rows| + Rises(History(s, samples))
    ensures Run(s, samples).nextId == s.nextId + Rises(History(s, samples))
    decreases |samples|
  {
    if samples != [] {
      var n := |samples|;
      var init := samples[..n - 1];
      RunRowCount(s, init);
      var h := History(s, samples);
      var hInit := History(s, init);
      assert h[..n] == hInit by {
        forall i | 0 <= i < n ensures h[i] == hInit[i] {
          assert samples[..i] == init[..i];
        }
      }
      assert samples[..n] == samples;
      assert h[n - 1] == Run(s, init).continuing;
      assert h[n] == Run(s, samples).continuing;
      assert h[..|h| - 1] == hInit;
    }
  }

  /** `startTime` is never reassigned, every row this run inserts carries it
      and is never marked finished (updates always write `continuing = true`),
      and rows already in the table keep their id and start time. */
  lemma {:induction false} RunKeepsStartTime(s: State, samples: seq<Sample>)
    ensures var r := Run(s, samples);
      && r.startTime == s.startTime
      && |r.rows| >= |s.rows|
      && (forall i :: 0 <= i < |s.rows| ==> r.rows[i].id == s.rows[i].id && r.rows[i].startTime == s.rows[i].startTime)
      && (forall i :: |s.rows| <= i < |r.rows| ==> r.rows[i].startTime == s.startTime && r.rows[i].continuing)
    decreases |samples|
  {
    if samples != [] {
      RunKeepsStartTime(s, samples[..|samples| - 1]);
    }
  }

  /** The table stays well formed along any run. */
  lemma {:induction false} RunKeepsInv(s: State, samples: seq<Sample>)
    requires Inv(s)
    ensures Inv(Run(s, samples))
    decreases |samples|
  {
    if samples != [] {
      var last := samples[|samples| - 1];
      RunKeepsInv(s, samples[..|samples| - 1]);
      ObserveKeepsInv(Run(s, samples[..|samples| - 1]), last.up, last.now);
    }
  }

  /** Running one more sample is one more iteration of the loop body. */
  lemma RunSnoc(s: State, samples: seq<Sample>, x: Sample)
    ensures Run(s, samples + [x]) == Observe(Run(s, samples), x.up, x.now)
  {
    assert (samples + [x])[..|samples|] == samples;
  }

  /** Down at 0 s, down at 30 s, up at 45 s, up at 75 s, from an empty table:
      one row, from the process start, 30 000 ms after the second sample and
      45 000 ms after recovery. As written, the recovered row keeps
      `continuing = true`; only the tracker's own flag turns false. */
  lemma OneOutageScenario()
    ensures var s0 := State(false, 0, [], 1);
      var s2 := Run(s0, [Sample(false, 0), Sample(false, 30_000_000_000)]);
      var s4 := Run(s0, [Sample(false, 0), Sample(false, 30_000_000_000),
                          Sample(true, 45_000_000_000), Sample(true, 75_000_000_000)]);
      && s2 == State(true, 0, [Row(1, 0, 30_000, true)], 2)
      && s4 == State(false, 0, [Row(1, 0, 45_000, true)], 2)
  {
    var s0 := State(false, 0, [], 1);
    var a, b := Sample(false, 0), Sample(false, 30_000_000_000);
    var c, d := Sample(true, 45_000_000_000), Sample(true, 75_000_000_000);
    var s1 := State(true, 0, [Row(1, 0, 0, true)], 2);
    var s2 := State(true, 0, [Row(1, 0, 30_000, true)], 2);
    var s3 := State(false, 0, [Row(1, 0, 45_000, true)], 2);
    assert Observe(s0, a.up, a.now) == s1;
    assert Observe(s1, b.up, b.now) == s2 by {
      UpdateLatestEffect(s1.rows, 2, 30_000);
    }
    assert Observe(s2, c.up, c.now) == s3 by {
      UpdateLatestEffect(s2.rows, 2, 45_000);
    }
    assert Observe(s3, d.up, d.now) == s3;
    assert Run(s0, [a]) == s1 by {
      RunSnoc(s0, [], a);
      assert [] + [a] == [a];
    }
    assert Run(s0, [a, b]) == s2 by {
      RunSnoc(s0, [a], b);
      assert [a] + [b] == [a, b];
    }
    assert Run(s0, [a, b, c]) == s3 by {
      RunSnoc(s0, [a, b], c);
      assert [a, b] + [c] == [a, b, c];
    }
    assert Run(s0, [a, b, c, d]) == s3 by {
      RunSnoc(s0, [a, b, c], d);
      assert [a, b, c] + [d] == [a, b, c, d];
    }
  }

  /** Two outages in one run: both rows carry the process start time and
      both are still marked continuing, so the table holds more than one open
      episode. Their start times tie, and under the model's tie rule the
      update after the second outage lands on the first row. */
  lemma TwoOutagesScenario()
    ensures var r := Run(State(false, 0, [], 1),
                         [Sample(false, 0), Sample(true, 10_000_000_000),
                          Sample(false, 20_000_000_000), Sample(false, 30_000_000_000)]);
      && r == State(true, 0, [Row(1, 0, 30_000, true), Row(2, 0, 0, true)], 3)
  {
    var s0 := State(false, 0, [], 1);
    var a, b := Sample(false, 0), Sample(true, 10_000_000_000);
    var c, d := Sample(false, 20_000_000_000), Sample(false, 30_000_000_000);
    var s1 := State(true, 0, [Row(1, 0, 0, true)], 2);
    var s2 := State(false, 0, [Row(1, 0, 10_000, true)], 2);
    var s3 := State(true, 0, [Row(1, 0, 10_000, true), Row(2, 0, 0, true)], 3);
    var s4 := State(true, 0, [Row(1, 0, 30_000, true), Row(2, 0, 0, true)], 3);
    assert Observe(s0, a.up, a.now) == s1;
    assert Observe(s1, b.up, b.now) == s2 by {
      UpdateLatestEffect(s1.rows, 2, 10_000);
    }
    assert Observe(s2, c.up, c.now) == s3 by {
      assert s2.rows + [Row(2, 0, 0, true)] == s3.rows;
    }
    assert Observe(s3, d.up, d.now) == s4 by {
      assert s3.rows[..1] == s2.rows;
      assert Latest(s3.rows) == 0;
      UpdateLatestEffect(s3.rows, 3, 30_000);
    }
    assert Run(s0, [a]) == s1 by {
      RunSnoc(s0, [], a);
      assert [] + [a] == [a];
    }
    assert Run(s0, [a, b]) == s2 by {
      RunSnoc(s0, [a], b);
      assert [a] + [b] == [a, b];
    }
    assert Run(s0, [a, b, c]) == s3 by {
      RunSnoc(s0, [a, b], c);
      assert [a, b] + [c] == [a, b, c];
    }
    assert Run(s0, [a, b, c, d]) == s4 by {
      RunSnoc(s0, [a, b, c], d);
      assert [a, b, c] + [d] == [a, b, c, d];
    }
  }

  /** The tracker as the poll loop holds it: its two variables and the
      database table it writes to. */
  class Tracker {
    var continuing: bool
    var startTime: int
    const db: Table

    ghost predicate Valid()
      reads this, db
    {
      db.Valid()
    }

    ghost function Snapshot(): State
      reads this, db
    {
      State(continuing, startTime, db.rows, db.nextId)
    }

    /** `continuing := false` and `startTime := time.Now()`, over the table
        as opened. */
    constructor (db: Table, now: int)
      requires db.Valid()
      ensures Valid() && this.db == db
      ensures !continuing && startTime == now
      ensures unchanged(db)
    {
      this.db := db;
      continuing := false;
      startTime := now;
    }

    /** One iteration of the poll loop, given the sample. */
    method Step(up: bool, now: int)
      requires Valid()
      modifies this, db
      ensures Valid()
      ensures Snapshot() == Observe(old(Snapshot()), up, now)
    {
      if up && continuing {
        db.UpdateContinuingRecord(now - startTime);
        continuing := false;
      } else if up && !continuing {
      } else if !up && continuing {
        db.UpdateContinuingRecord(now - startTime);
      } else {
        continuing := true;
        var _ := db.Insert(startTime, 0, continuing);
      }
    }

    /** One iteration of the poll loop with its probe: read the clock, ask
        `someServerAvailable`, then take the branch. */
    method Tick(servers: array<Prober.Server>, now: int, pick: nat -> nat, probe: Prober.Server -> bool)
      returns (up: bool)
      requires Valid()
      modifies this, db, servers
      ensures Valid()
      ensures up <==> Prober.SomeUp(old(servers[..]), probe)
      ensures servers[..] == Prober.Shuffled(old(servers[..]), pick)
      ensures Snapshot() == Observe(old(Snapshot()), up, now)
    {
      var probed;
      up, probed := Prober.SomeServerAvailable(servers, pick, probe);
      Step(up, now);
    }

    /** The poll loop over a finite stretch of samples. */
    method Poll(samples: seq<Sample>)
      requires Valid()
      modifies this, db
      ensures Valid()
      ensures Snapshot() == Run(old(Snapshot()), samples)
    {
      var k := 0;
      while k < |samples|
        invariant 0 <= k <= |samples|
        invariant Valid()
        invariant Snapshot() == Run(old(Snapshot()), samples[..k])
      {
        Step(samples[k].up, samples[k].now);
        assert samples[..k + 1][..k] == samples[..k];
        k := k + 1;
      }
      assert samples[..k] == samples;
    }
  }
}
