/** The logger's entry point (influx_insert.py:46-75): set up the store,
    then sample the sensor over and over. A reading is written as one
    `data_raw` point and followed by a sleep that wakes at the next
    multiple of five seconds after the start; a missing sensor is skipped
    with no write and, as the code stands, no sleep either, so the next
    read follows at once. A malformed sensor file raises and ends the
    process. Time is in integer milliseconds; the run is a finite list of
    ticks, each giving the sensor file seen by one iteration and the clock
    reading that iteration's sleep is computed from. */
module Sampler {
  import opened Common
  import Sensor
  import Store

  const DbName := "sensor_data"

  /** The sampling period, in milliseconds. */
  const IntervalMs := 5000

  /** One iteration's view of the world: the sensor file (`None` when it
      does not exist) and the clock when the sleep is computed. */
  datatype Tick = Tick(sensorFile: Option<seq<string>>, now: int)

  /** A call `time.sleep(duration)` made when the clock read `at`. */
  datatype Sleep = Sleep(at: int, duration: int)

  /** What a run produced: the temperatures written, in order, the sleeps
      taken, and whether the process died on a malformed sensor file. */
  datatype Run = Run(written: seq<real>, sleeps: seq<Sleep>, halted: bool)

  /** `5 - ((time.time() - starttime) % 5)` in milliseconds. The remainder
      is Python's (never negative for a positive divisor), which is also
      Dafny's, so a clock behind `start` is covered too. */
  function SleepMs(start: int, now: int): (d: int)
    ensures 0 < d <= IntervalMs
    ensures (now + d - start) % IntervalMs == 0
  {
    IntervalMs - (now - start) % IntervalMs
  }

  /** The wake-up time is the first instant of the form `start + k * 5 s`
      strictly after `now`: sleeps never drift from the five-second grid
      and never skip a grid point. */
  lemma NextGridPoint(start: int, now: int, k: int)
    requires start + k * IntervalMs > now
    ensures now < now + SleepMs(start, now) <= start + k * IntervalMs
  {
  }

  /** The point `main` writes for one reading. */
  function SamplePoint(temperature: real): (p: Store.Point)
    ensures p.measurement == Store.RawMeasurement && p.fields.Keys == {Store.Field} && p.fields[Store.Field] == temperature
  {
    Store.Point(Store.RawMeasurement, map[Store.Field := temperature])
  }

  function SamplePoints(temperatures: seq<real>): (ps: seq<Store.Point>)
    ensures |ps| == |temperatures| && forall i :: 0 <= i < |ps| ==> ps[i] == SamplePoint(temperatures[i])
  {
    seq(|temperatures|, i requires 0 <= i < |temperatures| => SamplePoint(temperatures[i]))
  }

  /** One iteration of the loop body. */
  function Step(start: int, r: Run, t: Tick): Run
  {
    if r.halted then r
    else match Sensor.ReadTemperature(t.sensorFile)
      case Raised(_) => r.(halted := true)
      case Inf => r
      case Celsius(v) => Run(r.written + [v], r.sleeps + [Sleep(t.now, SleepMs(start, t.now))], false)
  }

  /** The loop over a finite run of ticks, from the start of sampling. */
  function Sampled(start: int, ticks: seq<Tick>): (r: Run)
    ensures |r.written| == |r.sleeps|
  {
    if ticks == [] then Run([], [], false)
    else Step(start, Sampled(start, ticks[..|ticks| - 1]), ticks[|ticks| - 1])
  }

  /** The temperatures the sensor delivered, in order, ignoring the ticks
      where it was missing or unreadable. */
  function Available(ticks: seq<Tick>): seq<real>
  {
    if ticks == [] then [] else Available(ticks[..|ticks| - 1]) + Delivered(ticks[|ticks| - 1])
  }

  /** The temperature one tick delivers, if any. */
  function Delivered(t: Tick): seq<real>
  {
    match Sensor.ReadTemperature(t.sensorFile)
    case Celsius(v) => [v]
    case _ => []
  }

  predicate Readable(t: Tick)
  {
    !Sensor.ReadTemperature(t.sensorFile).Raised?
  }

  lemma StepReadable(start: int, r: Run, t: Tick)
    requires Readable(t) && !r.halted
    ensures Step(start, r, t).written == r.written + Delivered(t) && !Step(start, r, t).halted
  {
  }

  /** While no sensor file is malformed, the run writes exactly the
      available readings, in order, and keeps going. */
  lemma {:induction false} WritesAvailable(start: int, ticks: seq<Tick>)
    requires forall i :: 0 <= i < |ticks| ==> Readable(ticks[i])
    ensures Sampled(start, ticks).written == Available(ticks) && !Sampled(start, ticks).halted
  {
    if ticks != [] {
      var init := ticks[..|ticks| - 1];
      var last := ticks[|ticks| - 1];
      WritesAvailable(start, init);
      StepReadable(start, Sampled(start, init), last);
    }
  }

  /** A sleep of more than nothing and at most one period that wakes on
      the five-second grid anchored at `start`. */
  predicate OnGrid(start: int, s: Sleep)
  {
    0 < s.duration <= IntervalMs && (s.at + s.duration - start) % IntervalMs == 0
  }

  /** Every sleep of a run is on the grid. */
  lemma {:induction false} SleepsOnGrid(start: int, ticks: seq<Tick>)
    ensures forall k :: 0 <= k < |Sampled(start, ticks).sleeps| ==> OnGrid(start, Sampled(start, ticks).sleeps[k])
  {
    if ticks != [] {
      var t := ticks[|ticks| - 1];
      var r := Sampled(start, ticks[..|ticks| - 1]);
      SleepsOnGrid(start, ticks[..|ticks| - 1]);
      var sleeps := Sampled(start, ticks).sleeps;
      var next := Sleep(t.now, SleepMs(start, t.now));
      assert OnGrid(start, next);
      assert sleeps == r.sleeps || sleeps == r.sleeps + [next];
    }
  }

  /** A tick with no sensor file changes nothing: no write and no sleep. */
  lemma UnavailableSkipped(start: int, ticks: seq<Tick>, t: Tick)
    requires t.sensorFile.None?
    ensures Sampled(start, ticks + [t]) == Sampled(start, ticks)
  {
  }

  /** Once the process has died, later ticks are never seen. */
  lemma {:induction false} HaltedIsFinal(start: int, ticks: seq<Tick>, n: nat)
    requires n <= |ticks| && Sampled(start, ticks[..n]).halted
    ensures Sampled(start, ticks) == Sampled(start, ticks[..n])
  {
    if n < |ticks| {
      var init := ticks[..|ticks| - 1];
      assert init[..n] == ticks[..n];
      HaltedIsFinal(start, init, n);
    } else {
      assert ticks[..n] == ticks;
    }
  }

  /** Two readings around a tick with no sensor file: two writes and two
      sleeps, nothing for the gap. */
  lemma ReadingsAroundGap(start: int, t1: Tick, t2: Tick, t3: Tick, v1: real, v3: real)
    requires Sensor.ReadTemperature(t1.sensorFile) == Sensor.Celsius(v1)
    requires t2.sensorFile.None?
    requires Sensor.ReadTemperature(t3.sensorFile) == Sensor.Celsius(v3)
    ensures Sampled(start, [t1, t2, t3]) ==
      Run([v1, v3], [Sleep(t1.now, SleepMs(start, t1.now)), Sleep(t3.now, SleepMs(start, t3.now))], false)
  {
    var ticks := [t1, t2, t3];
    assert ticks[..2] == [t1] + [t2];
    assert [t1][..0] == [];
    assert Sampled(start, [t1]) == Run([v1], [Sleep(t1.now, SleepMs(start, t1.now))], false);
    UnavailableSkipped(start, [t1], t2);
  }

  /** The sensor reporting 21.5 degrees, then missing, then 22.0 degrees
      at clock readings 0.12 s, 5 s and 5.01 s after the start: exactly two
      points are written, in order, and the two sleeps wake at 5 s and 10 s. */
  lemma Scenario(start: int)
    ensures var ticks := [
        Tick(Some(Sensor.W1Slave(Sensor.ExampleBytes, "2d", true, 21500)), start + 120),
        Tick(None, start + 5000),
        Tick(Some(Sensor.W1Slave(Sensor.ExampleBytes, "2d", true, 22000)), start + 5010)];
      Sampled(start, ticks) == Run([21.5, 22.0], [Sleep(start + 120, 4880), Sleep(start + 5010, 4990)], false)
  {
    Sensor.ReadW1Slave(Sensor.ExampleBytes, "2d", true, 21500);
    Sensor.ReadW1Slave(Sensor.ExampleBytes, "2d", true, 22000);
    assert 21500 as real / 1000.0 == 21.5 && 22000 as real / 1000.0 == 22.0;
    assert SleepMs(start, start + 120) == 4880;
    assert SleepMs(start, start + 5010) == 4990;
    ReadingsAroundGap(start,
      Tick(Some(Sensor.W1Slave(Sensor.ExampleBytes, "2d", true, 21500)), start + 120),
      Tick(None, start + 5000),
      Tick(Some(Sensor.W1Slave(Sensor.ExampleBytes, "2d", true, 22000)), start + 5010),
      21.5, 22.0);
  }

  lemma StoredSnoc(written: seq<real>, v: real)
    ensures Store.Stored(DbName, SamplePoints(written + [v])) ==
      Store.Stored(DbName, SamplePoints(written)) + Store.Stored(DbName, [SamplePoint(v)])
  {
  }

  /** The `while True` loop of `main`, over `ticks`, `start` being the
      clock at the start of sampling: each reading is written to the
      current database and followed by its sleep. Returns the sleeps taken
      and whether the process died. */
  method SampleLoop(client: Store.Client, start: int, ticks: seq<Tick>) returns (sleeps: seq<Sleep>, halted: bool)
    requires client.database == Some(DbName)
    modifies client
    ensures client.database == Some(DbName)
    ensures var r := Sampled(start, ticks);
      && sleeps == r.sleeps && halted == r.halted
      && client.Contents() == old(client.Contents()).(points := old(client.points) + Store.Stored(DbName, SamplePoints(r.written)))
  {
    ghost var base := client.Contents();
    ghost var written: seq<real> := [];
    sleeps, halted := [], false;
    var i := 0;
    while i < |ticks| && !halted
      invariant 0 <= i <= |ticks|
      invariant client.database == Some(DbName)
      invariant Sampled(start, ticks[..i]) == Run(written, sleeps, halted)
      invariant client.Contents() == base.(points := base.points + Store.Stored(DbName, SamplePoints(written)))
    {
      assert ticks[..i + 1][..i] == ticks[..i];
      ghost var next := Step(start, Run(written, sleeps, halted), ticks[i]);
      assert Sampled(start, ticks[..i + 1]) == next;
      var reading := Sensor.ReadTemperature(ticks[i].sensorFile);
      match reading {
        case Raised(_) =>
          halted := true;
        case Inf =>
        case Celsius(temperature) =>
          client.WritePoints([SamplePoint(temperature)]);
          StoredSnoc(written, temperature);
          written := written + [temperature];
          sleeps := sleeps + [Sleep(ticks[i].now, SleepMs(start, ticks[i].now))];
      }
      assert next == Run(written, sleeps, halted);
      i := i + 1;
    }
    if i == |ticks| {
      assert ticks[..i] == ticks;
    } else {
      HaltedIsFinal(start, ticks, i);
    }
  }

  /** `main`: bootstrap the store, switch to the database, then sample. */
  method RunLogger(client: Store.Client, start: int, ticks: seq<Tick>) returns (sleeps: seq<Sleep>, halted: bool)
    modifies client
    ensures client.database == Some(DbName)
    ensures var r := Sampled(start, ticks);
      && sleeps == r.sleeps && halted == r.halted
      && client.Contents() == Store.Bootstrapped(old(client.Contents()), DbName).(
           points := old(client.points) + Store.Stored(DbName, SamplePoints(r.written)))
  {
    Store.Bootstrap(client, DbName);
    client.SwitchDatabase(DbName);
    sleeps, halted := SampleLoop(client, start, ticks);
  }
}
