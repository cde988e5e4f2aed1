/** The rolling chart buffers of the system monitor. The application keeps five parallel
    series (CPU, memory, disk, network, temperature); every tick appends one point to each,
    and when the CPU series then holds more than `CAPACITY` points the oldest point is
    removed from all five. The pure functions here specify that step and its effect over
    any run of ticks; `SystemMonitorApp` performs it in place on its list fields. */
module Monitor {
  import opened Samples

  /** Most points a chart keeps. */
  const CAPACITY: nat := 20

  function Min(a: int, b: int): int {
    if a <= b then a else b
  }

  /** The contents of the five series at one moment. */
  datatype Series = Series(
    cpu: seq<real>,
    memory: seq<real>,
    disk: seq<real>,
    network: seq<real>,
    temperature: seq<real>)
  {
    /** All five series have the same length. */
    predicate Lockstep() {
      |memory| == |cpu| && |disk| == |cpu| && |network| == |cpu| && |temperature| == |cpu|
    }

    /** The state every run of the monitor stays in: lockstep and within capacity. */
    predicate Valid() {
      Lockstep() && |cpu| <= CAPACITY
    }

    /** The five points at position `i`. */
    function At(i: nat): Sample
      requires Lockstep() && i < |cpu|
    {
      Sample(cpu[i], memory[i], disk[i], network[i], temperature[i])
    }

    /** One point added at the end of each series. */
    function Append(x: Sample): Series {
      Series(cpu + [x.cpu], memory + [x.memory], disk + [x.disk],
             network + [x.network], temperature + [x.temperature])
    }

    /** The first point removed from each series; every series must hold one. */
    function PopOldest(): Series
      requires |cpu| > 0 && |memory| > 0 && |disk| > 0 && |network| > 0 && |temperature| > 0
    {
      Series(cpu[1..], memory[1..], disk[1..], network[1..], temperature[1..])
    }
  }

  /** The five empty series the application starts with. */
  const NO_DATA: Series := Series([], [], [], [], [])

  /** One tick on the buffers: append the sample, then, if the CPU series is now over
      capacity, drop the oldest point of all five. The guard looks at the CPU series only;
      lockstep is what makes the other four removals possible. The result keeps the
      invariant, ends in the new sample, and before it holds the most recent points of
      the old series in their old order: all of them while there is room, all but the
      oldest once the series is full. */
  function Push(s: Series, x: Sample): (r: Series)
    requires s.Valid()
    ensures r.Valid()
    ensures |r.cpu| == Min(|s.cpu| + 1, CAPACITY)
    ensures r.At(|r.cpu| - 1) == x
    ensures forall i :: 0 <= i < |r.cpu| - 1 ==> r.At(i) == s.At(|s.cpu| - |r.cpu| + 1 + i)
  {
    var grown := s.Append(x);
    if |grown.cpu| > CAPACITY then grown.PopOldest() else grown
  }

  /** The last `CAPACITY` elements of `h`, or all of `h` when it is shorter. */
  function Window<T>(h: seq<T>): (w: seq<T>)
    ensures |w| == Min(|h|, CAPACITY)
    ensures w == h[|h| - |w|..]
  {
    if |h| <= CAPACITY then h else h[|h| - CAPACITY..]
  }

  /** The five series whose points, position by position, are the given samples. */
  function Columns(samples: seq<Sample>): (s: Series)
    ensures s.Lockstep() && |s.cpu| == |samples|
    ensures forall i :: 0 <= i < |samples| ==> s.At(i) == samples[i]
  {
    Series(
      seq(|samples|, i requires 0 <= i < |samples| => samples[i].cpu),
      seq(|samples|, i requires 0 <= i < |samples| => samples[i].memory),
      seq(|samples|, i requires 0 <= i < |samples| => samples[i].disk),
      seq(|samples|, i requires 0 <= i < |samples| => samples[i].network),
      seq(|samples|, i requires 0 <= i < |samples| => samples[i].temperature))
  }

  /** The samples a run of ticks appends, in order. */
  function SamplesOf(ticks: seq<Tick>): seq<Sample> {
    seq(|ticks|, i requires 0 <= i < |ticks| => SampleOf(ticks[i]))
  }

  /** The buffers after the given ticks, starting from five empty series: they stay
      lockstep, and their length grows by one per tick until it reaches `CAPACITY`, where
      it stays. */
  function Replay(ticks: seq<Tick>): (s: Series)
    ensures s.Valid()
    ensures |s.cpu| == Min(|ticks|, CAPACITY)
  {
    if ticks == [] then NO_DATA
    else Push(Replay(ticks[..|ticks| - 1]), SampleOf(ticks[|ticks| - 1]))
  }

  /** Two series values are equal when they agree position by position. */
  lemma SeriesExtensional(a: Series, b: Series)
    requires a.Lockstep() && b.Lockstep() && |a.cpu| == |b.cpu|
    requires forall i :: 0 <= i < |a.cpu| ==> a.At(i) == b.At(i)
    ensures a == b
  {
    assert a.cpu == b.cpu by {
      forall i | 0 <= i < |a.cpu| ensures a.cpu[i] == b.cpu[i] { assert a.At(i) == b.At(i); }
    }
    assert a.memory == b.memory by {
      forall i | 0 <= i < |a.cpu| ensures a.memory[i] == b.memory[i] { assert a.At(i) == b.At(i); }
    }
    assert a.disk == b.disk by {
      forall i | 0 <= i < |a.cpu| ensures a.disk[i] == b.disk[i] { assert a.At(i) == b.At(i); }
    }
    assert a.network == b.network by {
      forall i | 0 <= i < |a.cpu| ensures a.network[i] == b.network[i] { assert a.At(i) == b.At(i); }
    }
    assert a.temperature == b.temperature by {
      forall i | 0 <= i < |a.cpu| ensures a.temperature[i] == b.temperature[i] { assert a.At(i) == b.At(i); }
    }
  }

  /** Appending a sample to laid-out samples lays out the extended run. */
  lemma ColumnsAppend(h: seq<Sample>, x: Sample)
    ensures Columns(h).Append(x) == Columns(h + [x])
  {
  }

  /** Dropping the oldest point of laid-out samples lays out the run without its first. */
  lemma ColumnsPopOldest(h: seq<Sample>)
    requires |h| > 0
    ensures Columns(h).PopOldest() == Columns(h[1..])
  {
  }

  /** FIFO retention for one tick: pushing a sample onto the window of a history gives the
      window of the history extended by that sample. */
  lemma PushWindow(h: seq<Sample>, x: Sample)
    ensures Push(Columns(Window(h)), x) == Columns(Window(h + [x]))
  {
    var w := Window(h);
    ColumnsAppend(w, x);
    if |h| < CAPACITY {
      assert Window(h + [x]) == w + [x];
    } else {
      ColumnsPopOldest(w + [x]);
      assert (w + [x])[1..] == Window(h + [x]);
    }
  }

  /** Every run starting from empty buffers leaves in each series exactly the points of the
      last `CAPACITY` ticks (or of all ticks, when there were fewer), oldest first. */
  lemma {:induction false} ReplayIsWindow(ticks: seq<Tick>)
    ensures Replay(ticks) == Columns(Window(SamplesOf(ticks)))
  {
    if ticks == [] {
      SeriesExtensional(NO_DATA, Columns(Window(SamplesOf(ticks))));
    } else {
      var init := ticks[..|ticks| - 1];
      var x := SampleOf(ticks[|ticks| - 1]);
      calc {
        Replay(ticks);
        Push(Replay(init), x);
        { ReplayIsWindow(init); }
        Push(Columns(Window(SamplesOf(init))), x);
        { PushWindow(SamplesOf(init), x); }
        Columns(Window(SamplesOf(init) + [x]));
        { SamplesOfSnoc(ticks); }
        Columns(Window(SamplesOf(ticks)));
      }
    }
  }

  /** The five lists as they would read if nothing were ever evicted: every value appended
      to each of them during the run, in order. */
  function AllAppended(ticks: seq<Tick>): (s: Series)
    ensures s.Lockstep() && |s.cpu| == |ticks|
    ensures forall i :: 0 <= i < |ticks| ==> s.At(i) == SampleOf(ticks[i])
  {
    Columns(SamplesOf(ticks))
  }

  /** Every series on its own is the last `CAPACITY` values appended to it (or all of them,
      when fewer were appended), in the order they were appended. */
  lemma ReplayKeepsLastAppended(ticks: seq<Tick>)
    ensures var all := AllAppended(ticks);
      Replay(ticks) == Series(Window(all.cpu), Window(all.memory), Window(all.disk),
                              Window(all.network), Window(all.temperature))
  {
    ReplayIsWindow(ticks);
    ColumnsWindow(SamplesOf(ticks));
  }

  /** Laying out the window of a run is taking the window of each laid-out series. */
  lemma ColumnsWindow(h: seq<Sample>)
    ensures var all := Columns(h);
      Columns(Window(h)) == Series(Window(all.cpu), Window(all.memory), Window(all.disk),
                                   Window(all.network), Window(all.temperature))
  {
    var all := Columns(h);
    var k := |h| - |Window(h)|;
    assert Window(h) == h[k..];
    assert Window(all.cpu) == all.cpu[k..];
    assert Window(all.memory) == all.memory[k..];
    assert Window(all.disk) == all.disk[k..];
    assert Window(all.network) == all.network[k..];
    assert Window(all.temperature) == all.temperature[k..];
    ColumnsSuffix(h, k);
  }

  /** Laying out a suffix of a run is taking the same suffix of each laid-out series. */
  lemma ColumnsSuffix(h: seq<Sample>, k: nat)
    requires k <= |h|
    ensures var all := Columns(h);
      Columns(h[k..]) == Series(all.cpu[k..], all.memory[k..], all.disk[k..],
                                all.network[k..], all.temperature[k..])
  {
  }

  /** The samples of a run are those of all but its last tick, then the last tick's. */
  lemma SamplesOfSnoc(ticks: seq<Tick>)
    requires ticks != []
    ensures SamplesOf(ticks) == SamplesOf(ticks[..|ticks| - 1]) + [SampleOf(ticks[|ticks| - 1])]
  {
  }

  /** One more tick on a run is one more step on its buffers. */
  lemma ReplaySnoc(ticks: seq<Tick>, t: Tick)
    ensures Replay(ticks + [t]) == Push(Replay(ticks), SampleOf(t))
  {
  }

  /** Position `i` of the buffers holds the five points of the tick that is `i`-th among
      the retained ones: the series are the most recent ticks' points in arrival order. */
  lemma ReplayAt(ticks: seq<Tick>, i: nat)
    requires i < |Replay(ticks).cpu|
    ensures Replay(ticks).At(i) == SampleOf(ticks[|ticks| - |Replay(ticks).cpu| + i])
  {
    ReplayIsWindow(ticks);
    var h := SamplesOf(ticks);
    var w := Window(h);
    var k := |ticks| - |w| + i;
    assert Replay(ticks).At(i) == Columns(w).At(i) == w[i];
    assert w[i] == h[k] == SampleOf(ticks[k]);
  }

  /** The application window's data-holding part. The five list fields are updated in
      place; the ghost field `ticks` records every tick taken. */
  class SystemMonitorApp {
    var cpuData: seq<real>
    var memoryData: seq<real>
    var diskData: seq<real>
    var networkData: seq<real>
    var temperatureData: seq<real>

    /** Every tick taken since construction, oldest first. */
    ghost var ticks: seq<Tick>

    /** The five fields as one value. */
    function State(): Series
      reads this
    {
      Series(cpuData, memoryData, diskData, networkData, temperatureData)
    }

    /** The series are what the ticks taken so far leave, starting from five empty lists;
        by `ReplayIsWindow` they are lockstep and hold the last `CAPACITY` ticks' points. */
    ghost predicate Valid()
      reads this
    {
      State() == Replay(ticks)
    }

    /** Starts with five empty series and takes the first tick at once. */
    constructor (first: Tick)
      ensures Valid()
      ensures ticks == [first]
      ensures State() == NO_DATA.Append(SampleOf(first))
    {
      cpuData := [];
      memoryData := [];
      diskData := [];
      networkData := [];
      temperatureData := [];
      ticks := [];
      new;
      UpdateGraphs(first);
    }

    /** One tick: append the tick's point to every series, then, if the CPU series holds
        more than `CAPACITY` points, remove the first point of every series. */
    method UpdateGraphs(t: Tick)
      requires Valid()
      modifies this
      ensures Valid()
      ensures ticks == old(ticks) + [t]
      ensures State() == Push(old(State()), SampleOf(t))
    {
      AppendReadings(t);
      if |cpuData| > CAPACITY {
        DropOldest();
      }
      ReplaySnoc(ticks, t);
      ticks := ticks + [t];
    }

    /** The collection half of a tick: one point appended to each of the five series. */
    method AppendReadings(t: Tick)
      modifies this
      ensures State() == old(State()).Append(SampleOf(t))
      ensures ticks == old(ticks)
    {
      cpuData := cpuData + [t.cpuPercent];
      memoryData := memoryData + [t.memoryPercent];
      diskData := diskData + [t.diskPercent];

      var networkUsage := NetworkUsage(t.net);
      networkData := networkData + [networkUsage];

      var temperature := TemperatureSample(t.sensors);
      temperatureData := temperatureData + [temperature];
    }

    /** The trimming half of a tick: the first point removed from each of the five series.
        Only the CPU series is checked before the call; the other four are non-empty
        because the series move in lockstep. */
    method DropOldest()
      requires State().Lockstep() && |cpuData| > 0
      modifies this
      ensures State() == old(State()).PopOldest()
      ensures ticks == old(ticks)
    {
      cpuData := cpuData[1..];
      memoryData := memoryData[1..];
      diskData := diskData[1..];
      networkData := networkData[1..];
      temperatureData := temperatureData[1..];
    }
  }
}
