/** The resource recorder (record_resource_run.py): what its summary keeps of the samples, and
    its sampling schedule. */
module Recording {
  import opened Basics
  import opened Text

  // ---- Samples ------------------------------------------------------------------------------

  // A sample's nested objects; a leaf that is not a finite number has no value.
  datatype Reading = Leaf(value: Option<real>) | Branch(children: Children)

  datatype Children = NoMore | Child(name: string, reading: Reading, others: Children)

  datatype Sample = Sample(unavailable: bool, system: Reading, processes: Reading, cgroups: Reading,
                           storage: Reading)

  // A finite number visited, and where.
  datatype Entry = Entry(path: string, value: real)

  function Entries(reading: Reading, path: string): seq<Entry> {
    match reading
    case Leaf(value) => if value.Some? then [Entry(path, value.value)] else []
    case Branch(children) => ChildEntries(children, path)
  }

  function ChildEntries(children: Children, path: string): seq<Entry> {
    match children
    case NoMore => []
    case Child(name, reading, others) => Entries(reading, path + "/" + name) + ChildEntries(others, path)
  }

  function SampleEntries(sample: Sample): seq<Entry> {
    Entries(sample.system, "system") + Entries(sample.processes, "processes") + Entries(sample.cgroups, "cgroups")
    + Entries(sample.storage, "storage")
  }

  // ---- What a summary should hold ------------------------------------------------------------

  datatype Metric = Metric(samples: nat, first: real, last: real, min: real, max: real)

  function Paths(entries: seq<Entry>): set<string> {
    set entry | entry in entries :: entry.path
  }

  // The values at a path, in order.
  function ValuesAt(entries: seq<Entry>, path: string): seq<real> {
    if entries == [] then []
    else ValuesAt(Init(entries), path) + if Last(entries).path == path then [Last(entries).value] else []
  }

  function Least(values: seq<real>): real
    requires values != []
  {
    if |values| == 1 then values[0]
    else if Last(values) < Least(Init(values)) then Last(values) else Least(Init(values))
  }

  function Greatest(values: seq<real>): real
    requires values != []
  {
    if |values| == 1 then values[0]
    else if Last(values) > Greatest(Init(values)) then Last(values) else Greatest(Init(values))
  }

  function MetricOf(values: seq<real>): Metric
    requires values != []
  {
    Metric(|values|, values[0], Last(values), Least(values), Greatest(values))
  }

  // The readings at none of these paths.
  function Outside(entries: seq<Entry>, paths: set<string>): nat {
    if entries == [] then 0
    else Outside(Init(entries), paths) + if Last(entries).path in paths then 0 else 1
  }

  /** Every path's metric is that of its values, and every other reading is counted. */
  ghost predicate Tallied(metrics: map<string, Metric>, unaggregated: nat, entries: seq<Entry>) {
    && (forall path :: path in metrics ==>
          ValuesAt(entries, path) != [] && metrics[path] == MetricOf(ValuesAt(entries, path)))
    && unaggregated == Outside(entries, metrics.Keys)
  }

  lemma {:induction false} LeastIs(values: seq<real>)
    requires values != []
    ensures Least(values) in values && forall value :: value in values ==> Least(values) <= value
    decreases |values|
  {
    if |values| > 1 {
      LeastIs(Init(values));
      assert values == Init(values) + [Last(values)];
    }
  }

  lemma {:induction false} GreatestIs(values: seq<real>)
    requires values != []
    ensures Greatest(values) in values && forall value :: value in values ==> value <= Greatest(values)
    decreases |values|
  {
    if |values| > 1 {
      GreatestIs(Init(values));
      assert values == Init(values) + [Last(values)];
    }
  }

  /** A metric's extrema are exact: no value at its path lies beyond them, and each is one. */
  lemma {:induction false} ExactExtrema(metrics: map<string, Metric>, unaggregated: nat, entries: seq<Entry>,
                                        path: string)
    requires Tallied(metrics, unaggregated, entries) && path in metrics
    ensures forall entry :: entry in entries && entry.path == path ==>
              metrics[path].min <= entry.value <= metrics[path].max
    ensures Entry(path, metrics[path].min) in entries && Entry(path, metrics[path].max) in entries
  {
    LeastIs(ValuesAt(entries, path));
    GreatestIs(ValuesAt(entries, path));
    ValuesAre(entries, path);
  }

  lemma {:induction false} ValuesAre(entries: seq<Entry>, path: string)
    ensures forall value :: value in ValuesAt(entries, path) <==> Entry(path, value) in entries
    decreases |entries|
  {
    if entries != [] {
      ValuesAre(Init(entries), path);
      assert entries == Init(entries) + [Last(entries)];
    }
  }

  // ---- Conservation ---------------------------------------------------------------------------

  // The sample counts of these paths together.
  function Counted(metrics: map<string, Metric>, paths: seq<string>): nat
    requires forall path :: path in paths ==> path in metrics
  {
    if paths == [] then 0 else metrics[paths[0]].samples + Counted(metrics, paths[1..])
  }

  function ValueCount(entries: seq<Entry>, paths: seq<string>): nat {
    if paths == [] then 0 else |ValuesAt(entries, paths[0])| + ValueCount(entries, paths[1..])
  }

  ghost predicate NoRepeats(paths: seq<string>) {
    forall i, j :: 0 <= i < j < |paths| ==> paths[i] != paths[j]
  }

  lemma {:induction false} ValueCountSnoc(entries: seq<Entry>, paths: seq<string>)
    requires entries != [] && NoRepeats(paths)
    ensures ValueCount(entries, paths) ==
            ValueCount(Init(entries), paths) + if Last(entries).path in paths then 1 else 0
  {
    if paths != [] {
      assert paths == [paths[0]] + paths[1..];
      ValueCountSnoc(entries, paths[1..]);
      assert paths[0] !in paths[1..] by {
        forall i | 0 <= i < |paths[1..]| ensures paths[1..][i] != paths[0] {
          assert paths[0] != paths[i + 1];
        }
      }
    }
  }

  lemma {:induction false} ValueCountNone(paths: seq<string>)
    ensures ValueCount([], paths) == 0
  {
    if paths != [] { ValueCountNone(paths[1..]); }
  }

  lemma {:induction false} EachCounted(entries: seq<Entry>, paths: seq<string>, all: set<string>)
    requires NoRepeats(paths) && forall path :: path in paths <==> path in all
    ensures ValueCount(entries, paths) + Outside(entries, all) == |entries|
    decreases |entries|
  {
    if entries == [] {
      ValueCountNone(paths);
    } else {
      EachCounted(Init(entries), paths, all);
      ValueCountSnoc(entries, paths);
    }
  }

  lemma {:induction false} CountedValues(metrics: map<string, Metric>, unaggregated: nat, entries: seq<Entry>,
                                         paths: seq<string>)
    requires Tallied(metrics, unaggregated, entries) && forall path :: path in paths ==> path in metrics
    ensures Counted(metrics, paths) == ValueCount(entries, paths)
  {
    if paths != [] {
      assert paths[0] in metrics;
      CountedValues(metrics, unaggregated, entries, paths[1..]);
    }
  }

  /** No reading is lost: the metrics' sample counts, over any listing of their paths, and the
      unaggregated readings add up to the finite numbers visited. */
  lemma {:induction false} Conserved(metrics: map<string, Metric>, unaggregated: nat, entries: seq<Entry>,
                                     paths: seq<string>)
    requires Tallied(metrics, unaggregated, entries)
    requires NoRepeats(paths) && forall path :: path in paths <==> path in metrics
    ensures Counted(metrics, paths) + unaggregated == |entries|
  {
    CountedValues(metrics, unaggregated, entries, paths);
    EachCounted(entries, paths, metrics.Keys);
  }

  // ---- One more reading -------------------------------------------------------------------------

  lemma {:induction false} OutsideSame(entries: seq<Entry>, paths: set<string>, more: string)
    requires ValuesAt(entries, more) == []
    ensures Outside(entries, paths + {more}) == Outside(entries, paths)
    decreases |entries|
  {
    if entries != [] { OutsideSame(Init(entries), paths, more); }
  }

  lemma {:induction false} NoValues(entries: seq<Entry>, path: string)
    requires path !in Paths(entries)
    ensures ValuesAt(entries, path) == []
    decreases |entries|
  {
    if entries != [] {
      assert Last(entries) in entries && forall entry :: entry in Init(entries) ==> entry in entries;
      NoValues(Init(entries), path);
    }
  }

  // The metric after one more value.
  function Extended(metric: Metric, value: real): Metric {
    Metric(metric.samples + 1, metric.first, value, if value < metric.min then value else metric.min,
           if value > metric.max then value else metric.max)
  }

  lemma {:induction false} ExtendedIs(values: seq<real>, value: real)
    requires values != []
    ensures MetricOf(values + [value]) == Extended(MetricOf(values), value)
  {
    assert Init(values + [value]) == values;
  }

  lemma {:induction false} ValuesSnoc(entries: seq<Entry>, entry: Entry, path: string)
    ensures ValuesAt(entries + [entry], path) ==
            if entry.path == path then ValuesAt(entries, path) + [entry.value] else ValuesAt(entries, path)
  {
    assert Init(entries + [entry]) == entries;
  }

  lemma {:induction false} Joined(a: seq<Entry>, b: seq<Entry>, c: seq<Entry>)
    ensures (a + b) + c == a + (b + c)
  {
  }

  lemma {:induction false} TalliedUpdate(metrics: map<string, Metric>, unaggregated: nat, entries: seq<Entry>,
                                         entry: Entry)
    requires Tallied(metrics, unaggregated, entries) && entry.path in metrics
    ensures Tallied(metrics[entry.path := Extended(metrics[entry.path], entry.value)], unaggregated,
                    entries + [entry])
  {
    hide ValuesAt, MetricOf, Extended;
    var more := metrics[entry.path := Extended(metrics[entry.path], entry.value)];
    forall path | path in more
      ensures ValuesAt(entries + [entry], path) != [] && more[path] == MetricOf(ValuesAt(entries + [entry], path))
    {
      ValuesSnoc(entries, entry, path);
      if path == entry.path { ExtendedIs(ValuesAt(entries, path), entry.value); }
    }
    assert more.Keys == metrics.Keys && Init(entries + [entry]) == entries;
  }

  lemma {:induction false} TalliedOutside(metrics: map<string, Metric>, unaggregated: nat, entries: seq<Entry>,
                                          entry: Entry)
    requires Tallied(metrics, unaggregated, entries) && entry.path !in metrics
    ensures Tallied(metrics, unaggregated + 1, entries + [entry])
  {
    forall path | path in metrics ensures ValuesAt(entries + [entry], path) == ValuesAt(entries, path) {
      ValuesSnoc(entries, entry, path);
    }
    assert Init(entries + [entry]) == entries;
  }

  lemma {:induction false} TalliedNew(metrics: map<string, Metric>, unaggregated: nat, entries: seq<Entry>,
                                      entry: Entry)
    requires Tallied(metrics, unaggregated, entries) && metrics.Keys == Paths(entries) && entry.path !in metrics
    ensures Tallied(metrics[entry.path := Metric(1, entry.value, entry.value, entry.value, entry.value)],
                    unaggregated, entries + [entry])
  {
    var more := metrics[entry.path := Metric(1, entry.value, entry.value, entry.value, entry.value)];
    NoValues(entries, entry.path);
    forall path | path in more
      ensures ValuesAt(entries + [entry], path) != [] && more[path] == MetricOf(ValuesAt(entries + [entry], path))
    {
      ValuesSnoc(entries, entry, path);
    }
    OutsideSame(entries, metrics.Keys, entry.path);
    assert more.Keys == metrics.Keys + {entry.path} && Init(entries + [entry]) == entries;
  }

  lemma {:induction false} PathsSnoc(entries: seq<Entry>, entry: Entry)
    ensures Paths(entries + [entry]) == Paths(entries) + {entry.path}
  {
    assert forall e :: e in entries + [entry] <==> e in entries || e == entry;
  }

  ghost predicate Consistent(metrics: map<string, Metric>, unaggregated: nat, entries: seq<Entry>,
                             firstEntries: seq<Entry>, samples: nat)
  {
    && Tallied(metrics, unaggregated, entries) && metrics.Keys == Paths(firstEntries)
    && (samples <= 1 ==> firstEntries == entries)
  }

  // The first sample's numbers, with one more number visited.
  ghost function FirstWith(entries: seq<Entry>, firstEntries: seq<Entry>, samples: nat, entry: Entry): seq<Entry> {
    if samples <= 1 then entries + [entry] else firstEntries
  }

  // One more number, at a path that has a metric ...
  lemma {:induction false} ConsistentUpdate(metrics: map<string, Metric>, unaggregated: nat, entries: seq<Entry>,
                                            firstEntries: seq<Entry>, samples: nat, entry: Entry)
    requires Consistent(metrics, unaggregated, entries, firstEntries, samples) && entry.path in metrics
    ensures Consistent(metrics[entry.path := Extended(metrics[entry.path], entry.value)], unaggregated,
                       entries + [entry], FirstWith(entries, firstEntries, samples, entry), samples)
  {
    PathsSnoc(entries, entry);
    TalliedUpdate(metrics, unaggregated, entries, entry);
    assert metrics[entry.path := Extended(metrics[entry.path], entry.value)].Keys == metrics.Keys;
  }

  // ... or may have none any more ...
  lemma {:induction false} ConsistentOutside(metrics: map<string, Metric>, unaggregated: nat, entries: seq<Entry>,
                                             firstEntries: seq<Entry>, samples: nat, entry: Entry)
    requires Consistent(metrics, unaggregated, entries, firstEntries, samples) && entry.path !in metrics
    requires samples > 1
    ensures Consistent(metrics, unaggregated + 1, entries + [entry],
                       FirstWith(entries, firstEntries, samples, entry), samples)
  {
    TalliedOutside(metrics, unaggregated, entries, entry);
  }

  // ... or gets one.
  lemma {:induction false} ConsistentNew(metrics: map<string, Metric>, unaggregated: nat, entries: seq<Entry>,
                                         firstEntries: seq<Entry>, samples: nat, entry: Entry)
    requires Consistent(metrics, unaggregated, entries, firstEntries, samples) && entry.path !in metrics
    requires samples <= 1
    ensures Consistent(metrics[entry.path := Metric(1, entry.value, entry.value, entry.value, entry.value)],
                       unaggregated, entries + [entry], FirstWith(entries, firstEntries, samples, entry), samples)
  {
    PathsSnoc(entries, entry);
    TalliedNew(metrics, unaggregated, entries, entry);
  }

  // ---- The summary --------------------------------------------------------------------------

  class Summary {
    var samples: nat
    var samplesWithUnavailable: nat
    var unaggregated: nat
    var metrics: map<string, Metric>
    // Every finite number visited, and those of the first sample.
    ghost var entries: seq<Entry>
    ghost var firstEntries: seq<Entry>

    /** The paths are those of the first sample. */
    ghost predicate Valid()
      reads this
    {
      Consistent(metrics, unaggregated, entries, firstEntries, samples)
    }

    constructor ()
      ensures Valid() && samples == samplesWithUnavailable == 0 && entries == []
    {
      samples, samplesWithUnavailable, unaggregated, metrics := 0, 0, 0, map[];
      entries, firstEntries := [], [];
    }

    // A finite number at a path.
    method Record(path: string, value: real)
      requires Valid() && samples >= 1
      modifies `metrics, `unaggregated, `entries, `firstEntries
      ensures Valid() && entries == old(entries) + [Entry(path, value)]
      ensures samples > 1 ==> firstEntries == old(firstEntries)
    {
      ghost var entry := Entry(path, value);
      if path in metrics {
        ConsistentUpdate(metrics, unaggregated, entries, firstEntries, samples, entry);
        metrics := metrics[path := Extended(metrics[path], value)];
      } else if samples > 1 {
        ConsistentOutside(metrics, unaggregated, entries, firstEntries, samples, entry);
        unaggregated := unaggregated + 1;
      } else {
        ConsistentNew(metrics, unaggregated, entries, firstEntries, samples, entry);
        metrics := metrics[path := Metric(1, value, value, value, value)];
      }
      entries, firstEntries := entries + [entry], FirstWith(entries, firstEntries, samples, entry);
    }

    // `_visit`
    method Visit(reading: Reading, path: string)
      requires Valid() && samples >= 1
      modifies `metrics, `unaggregated, `entries, `firstEntries
      ensures Valid() && entries == old(entries) + Entries(reading, path)
      ensures samples > 1 ==> firstEntries == old(firstEntries)
      decreases reading
    {
      match reading {
        case Leaf(value) =>
          if value.Some? { Record(path, value.value); }
        case Branch(children) => VisitChildren(children, path);
      }
    }

    method VisitChildren(children: Children, path: string)
      requires Valid() && samples >= 1
      modifies `metrics, `unaggregated, `entries, `firstEntries
      ensures Valid() && entries == old(entries) + ChildEntries(children, path)
      ensures samples > 1 ==> firstEntries == old(firstEntries)
      decreases children
    {
      match children {
        case NoMore =>
        case Child(name, reading, others) =>
          ghost var before := entries;
          Visit(reading, path + "/" + name);
          VisitChildren(others, path);
          Joined(before, Entries(reading, path + "/" + name), ChildEntries(others, path));
      }
    }

    /** A sample more: the finite numbers it holds are visited in order, and only the first
        sample may add paths. */
    method Add(sample: Sample)
      requires Valid()
      modifies this
      ensures Valid() && samples == old(samples) + 1 && entries == old(entries) + SampleEntries(sample)
      ensures samplesWithUnavailable == old(samplesWithUnavailable) + if sample.unavailable then 1 else 0
      ensures old(samples) > 0 ==> metrics.Keys == old(metrics.Keys) && firstEntries == old(firstEntries)
    {
      samples := samples + 1;
      if sample.unavailable { samplesWithUnavailable := samplesWithUnavailable + 1; }
      VisitGroups(sample);
    }

    method VisitGroups(sample: Sample)
      requires Valid() && samples >= 1
      modifies `metrics, `unaggregated, `entries, `firstEntries
      ensures Valid() && entries == old(entries) + SampleEntries(sample)
      ensures samples > 1 ==> firstEntries == old(firstEntries)
    {
      ghost var a, b := Entries(sample.system, "system"), Entries(sample.processes, "processes");
      ghost var c, d := Entries(sample.cgroups, "cgroups"), Entries(sample.storage, "storage");
      ghost var before := entries;
      Visit(sample.system, "system");
      Visit(sample.processes, "processes");
      Joined(before, a, b);
      Visit(sample.cgroups, "cgroups");
      Joined(before, a + b, c);
      Visit(sample.storage, "storage");
      Joined(before, a + b + c, d);
    }
  }

  // ---- The schedule -------------------------------------------------------------------------

  /** A clock that never goes back, and a sleep that lasts at least as long as asked. */
  class Clock {
    var now: real
    // The times slept until, as asked.
    ghost var wakes: seq<real>

    method Read() returns (time: real)
      modifies this
      ensures old(now) <= now == time && wakes == old(wakes)
    {
      var passed: real := *;
      if passed > 0.0 { now := now + passed; }
      time := now;
    }

    method Sleep(delay: real)
      requires delay > 0.0
      modifies this
      ensures old(now) + delay <= now && wakes == old(wakes) + [old(now) + delay]
    {
      var extra: real := *;
      wakes := wakes + [now + delay];
      now := now + delay + (if extra > 0.0 then extra else 0.0);
    }
  }

  // A line of the output.
  datatype Line = Line(elapsed: real, seconds: real)

  function Earlier(a: real, b: real): real {
    if b < a then b else a
  }

  /** A sample starts no sooner than an interval after the one before, unless the end of the
      run comes first; and only the last may start at or after the end. */
  ghost predicate Scheduled(lines: seq<Line>, duration: real, interval: real) {
    && (lines != [] ==> lines[0].elapsed >= 0.0)
    && (forall i :: 0 <= i < |lines| - 1 ==> Follows(lines, i, duration, interval))
  }

  ghost predicate Follows(lines: seq<Line>, i: nat, duration: real, interval: real)
    requires i + 1 < |lines|
  {
    && lines[i].elapsed < duration
    && lines[i + 1].elapsed >= Earlier(duration, lines[i].elapsed + interval)
  }

  function Longest(lines: seq<Line>): real {
    if lines == [] then 0.0
    else if Last(lines).seconds > Longest(Init(lines)) then Last(lines).seconds else Longest(Init(lines))
  }

  function AllEntries(observed: nat -> Sample, count: nat): seq<Entry> {
    if count == 0 then [] else AllEntries(observed, count - 1) + SampleEntries(observed(count - 1))
  }

  lemma {:induction false} StartsLate(lines: seq<Line>, duration: real, interval: real, k: nat)
    requires Scheduled(lines, duration, interval) && k < |lines| && interval > 0.0 && duration > 0.0
    ensures lines[k].elapsed >= Earlier(duration, Times(k, interval))
  {
    if k > 0 {
      StartsLate(lines, duration, interval, k - 1);
      assert Follows(lines, k - 1, duration, interval);
    }
  }

  // So many intervals together.
  function Times(count: nat, interval: real): real {
    if count == 0 then 0.0 else Times(count - 1, interval) + interval
  }

  lemma {:induction false} TimesIs(count: nat, interval: real)
    ensures Times(count, interval) == count as real * interval
  {
    if count > 0 {
      TimesIs(count - 1, interval);
      OneMore(count - 1, interval);
    }
  }

  lemma {:induction false} OneMore(k: nat, interval: real)
    ensures (k + 1) as real * interval == k as real * interval + interval
  {
    assert (k + 1) as real == k as real + 1.0;
  }

  lemma {:induction false} TimesGrow(a: nat, b: nat, interval: real)
    requires interval > 0.0 && a <= b
    ensures Times(a, interval) <= Times(b, interval)
  {
    if a < b { TimesGrow(a, b - 1, interval); }
  }

  // The whole number of intervals that covers the duration.
  function Ceiling(x: real): int {
    -((-x).Floor)
  }

  lemma {:induction false} Cancel(a: real, b: real, k: real)
    requires k > 0.0 && a * k < b * k
    ensures a < b
  {
  }

  lemma {:induction false} CeilingAbove(n: int, x: real)
    requires n as real < x
    ensures n < Ceiling(x)
  {
    assert -x < (-n) as real;
  }

  lemma {:induction false} CeilingBelow(n: nat, duration: real, interval: real)
    requires interval > 0.0 && n as real * interval < duration
    ensures n < Ceiling(duration / interval)
  {
    assert duration / interval * interval == duration;
    Cancel(n as real, duration / interval, interval);
    CeilingAbove(n, duration / interval);
  }

  // The next to last sample starts before the end.
  lemma {:induction false} NextToLast(lines: seq<Line>, duration: real, interval: real)
    requires Scheduled(lines, duration, interval) && interval > 0.0 && duration > 0.0 && |lines| >= 2
    ensures Times(|lines| - 2, interval) < duration
  {
    StartsLate(lines, duration, interval, |lines| - 2);
    assert Follows(lines, |lines| - 2, duration, interval);
  }

  /** However long samples and sleeps take, at most one sample more than the intervals that
      cover the duration. */
  lemma {:induction false} SampleBound(lines: seq<Line>, duration: real, interval: real)
    requires Scheduled(lines, duration, interval) && interval > 0.0 && duration > 0.0
    ensures |lines| <= Ceiling(duration / interval) + 1
  {
    if |lines| >= 2 {
      NextToLast(lines, duration, interval);
      TimesIs(|lines| - 2, interval);
      CeilingBelow(|lines| - 2, duration, interval);
    } else {
      TimesIs(0, interval);
      CeilingBelow(0, duration, interval);
    }
  }

  // So many intervals cover the duration.
  ghost predicate Covers(count: nat, duration: real, interval: real) {
    Times(count, interval) >= duration
  }

  lemma {:induction false} SomeCover(duration: real, interval: real) returns (count: nat)
    requires interval > 0.0 && duration > 0.0
    ensures Covers(count, duration, interval)
  {
    var ratio := duration / interval;
    count := ratio.Floor + 1;
    assert ratio * interval == duration;
    assert count as real >= ratio;
    LeastProduct(ratio, count as real, interval);
    TimesIs(count, interval);
  }

  lemma {:induction false} LeastProduct(a: real, b: real, k: real)
    requires a <= b && k > 0.0
    ensures a * k <= b * k
  {
  }

  lemma {:induction false} CoverBounds(lines: seq<Line>, duration: real, interval: real, count: nat)
    requires Scheduled(lines, duration, interval) && interval > 0.0 && duration > 0.0
    requires Covers(count, duration, interval)
    ensures |lines| <= count + 1
  {
    if |lines| >= 2 {
      NextToLast(lines, duration, interval);
      if |lines| - 2 >= count { TimesGrow(count, |lines| - 2, interval); }
    }
  }

  lemma {:induction false} ScheduledNext(lines: seq<Line>, line: Line, duration: real, interval: real)
    requires Scheduled(lines, duration, interval)
    requires if lines == [] then line.elapsed >= 0.0 else
             Last(lines).elapsed < duration && line.elapsed >= Earlier(duration, Last(lines).elapsed + interval)
    ensures Scheduled(lines + [line], duration, interval)
    ensures Longest(lines + [line]) == if line.seconds > Longest(lines) then line.seconds else Longest(lines)
  {
    var more := lines + [line];
    assert Init(more) == lines;
    forall i | 0 <= i < |more| - 1 ensures Follows(more, i, duration, interval) {
      if i < |lines| - 1 { assert Follows(lines, i, duration, interval); }
    }
  }

  // One sample, timed and added.
  method Take(clock: Clock, summary: Summary, started: real, sample: Sample) returns (line: Line)
    requires summary.Valid() && started <= clock.now
    modifies clock, summary
    ensures summary.Valid() && summary.samples == old(summary.samples) + 1
    ensures summary.entries == old(summary.entries) + SampleEntries(sample)
    ensures old(clock.now) <= started + line.elapsed && line.seconds >= 0.0
    ensures started + line.elapsed + line.seconds <= clock.now && clock.wakes == old(clock.wakes)
  {
    var sampleStarted := clock.Read();
    var sampled := clock.Read();
    line := Line(sampleStarted - started, sampled - sampleStarted);
    summary.Add(sample);
  }

  // The sleep until the next sample is due, or until the end; none when that time has passed.
  method Wait(clock: Clock, started: real, elapsed: real, duration: real, interval: real) returns (late: bool)
    modifies clock
    ensures old(clock.now) <= clock.now && clock.now >= started + Earlier(duration, elapsed + interval)
    ensures clock.wakes == old(clock.wakes) ||
            (exists until :: clock.wakes == old(clock.wakes) + [until] && until <= started + duration)
    ensures |clock.wakes| == |old(clock.wakes)| + if late then 0 else 1
  {
    var now := clock.Read();
    var until := Earlier(started + duration, started + elapsed + interval);
    late := until - now <= 0.0;
    if !late { clock.Sleep(until - now); }
  }

  // No sleep was asked for past the end.
  ghost predicate WakesInTime(before: seq<real>, wakes: seq<real>, end: real) {
    before <= wakes && forall i :: |before| <= i < |wakes| ==> wakes[i] <= end
  }

  // Between two samples: the last one is over, before the end, and the next one is due.
  ghost predicate Due(lines: seq<Line>, started: real, now: real, duration: real, interval: real) {
    lines != [] ==>
      Last(lines).elapsed < duration && now >= started + Earlier(duration, Last(lines).elapsed + interval)
  }

  // A stop was asked for, or the time is over, or an interrupt comes.
  method Ends(clock: Clock, end: real) returns (ends: bool)
    modifies clock
    ensures old(clock.now) <= clock.now && clock.wakes == old(clock.wakes)
    ensures !ends ==> clock.now < end
  {
    var stop: bool := *;
    if stop { return true; }
    var checked := clock.Read();
    ends := checked >= end;
    if !ends { ends := *; }
  }

  // One turn of the loop, which may be the last.
  method Round(clock: Clock, summary: Summary, started: real, duration: real, interval: real, sample: Sample,
               ghost lines: seq<Line>, ghost wakes: seq<real>)
    returns (line: Line, last: bool, late: bool)
    requires summary.Valid() && started <= clock.now && Scheduled(lines, duration, interval)
    requires Due(lines, started, clock.now, duration, interval) && WakesInTime(wakes, clock.wakes, started + duration)
    modifies clock, summary
    ensures summary.Valid() && summary.samples == old(summary.samples) + 1
    ensures summary.entries == old(summary.entries) + SampleEntries(sample)
    ensures Scheduled(lines + [line], duration, interval) && old(clock.now) <= clock.now
    ensures Longest(lines + [line]) == if line.seconds > Longest(lines) then line.seconds else Longest(lines)
    ensures !last ==> Due(lines + [line], started, clock.now, duration, interval)
    ensures WakesInTime(wakes, clock.wakes, started + duration) && (last ==> !late)
    ensures |clock.wakes| == |old(clock.wakes)| + if last || late then 0 else 1
  {
    line := Take(clock, summary, started, sample);
    ScheduledNext(lines, line, duration, interval);
    last := Ends(clock, started + duration);
    late := false;
    if !last { late := Wait(clock, started, line.elapsed, duration, interval); }
  }

  lemma {:induction false} NothingYet(observed: nat -> Sample, duration: real, interval: real)
    ensures AllEntries(observed, 0) == [] && Scheduled([], duration, interval) && Longest([]) == 0.0
    ensures forall started, now :: Due([], started, now, duration, interval)
  {
  }

  lemma {:induction false} NoWakes(wakes: seq<real>, end: real)
    ensures WakesInTime(wakes, wakes, end)
  {
  }

  lemma {:induction false} EntriesNext(observed: nat -> Sample, count: nat)
    ensures AllEntries(observed, count + 1) == AllEntries(observed, count) + SampleEntries(observed(count))
  {
  }

  // The loop of `record`.
  method SampleLoop(clock: Clock, summary: Summary, started: real, duration: real, interval: real,
                    observed: nat -> Sample)
    returns (lines: seq<Line>, overruns: nat, longest: real)
    requires interval > 0.0 && duration > 0.0 && started <= clock.now
    requires summary.Valid() && summary.samples == 0 && summary.entries == []
    modifies clock, summary
    ensures summary.Valid() && summary.samples == |lines| && summary.entries == AllEntries(observed, |lines|)
    ensures Scheduled(lines, duration, interval) && longest == Longest(lines)
    ensures |lines| - 1 <= overruns + (|clock.wakes| - |old(clock.wakes)|) <= |lines|
    ensures old(clock.now) <= clock.now && WakesInTime(old(clock.wakes), clock.wakes, started + duration)
  {
    NothingYet(observed, duration, interval);
    hide Scheduled, Due, Covers, AllEntries, Longest, WakesInTime, Summary.Valid;
    lines, overruns, longest := [], 0, 0.0;
    ghost var count := SomeCover(duration, interval);
    NoWakes(clock.wakes, started + duration);
    var last := false;
    while !last
      invariant summary.Valid() && summary.samples == |lines| && summary.entries == AllEntries(observed, |lines|)
      invariant Scheduled(lines, duration, interval)
      invariant !last ==> Due(lines, started, clock.now, duration, interval)
      invariant |lines| <= count + 1 && longest == Longest(lines)
      invariant overruns + (|clock.wakes| - |old(clock.wakes)|) + (if last then 1 else 0) == |lines|
      invariant old(clock.now) <= clock.now && WakesInTime(old(clock.wakes), clock.wakes, started + duration)
      decreases count + 1 - |lines|
    {
      var interrupted: bool := *;
      if interrupted { break; }
      var line, end, late := Round(clock, summary, started, duration, interval, observed(|lines|), lines,
                                   old(clock.wakes));
      CoverBounds(lines + [line], duration, interval, count);
      EntriesNext(observed, |lines|);
      if line.seconds > longest { longest := line.seconds; }
      lines, last := lines + [line], end;
      if late { overruns := overruns + 1; }
    }
  }

  /** `record`: however long samples take and sleeps last, the samples keep to the schedule,
      no sleep is asked for past the end, every sample but the last is followed by a sleep or
      counted as an overrun, and the summary holds every sample. A stop may be
      asked for after any sample, and an interrupt may come before a sample or a sleep. */
  method RunSchedule(clock: Clock, duration: real, interval: real, observed: nat -> Sample)
    returns (summary: Summary, lines: seq<Line>, overruns: nat, longest: real, started: real)
    requires interval > 0.0 && duration > 0.0
    modifies clock
    ensures fresh(summary) && summary.Valid() && summary.samples == |lines|
    ensures summary.entries == AllEntries(observed, |lines|)
    ensures Scheduled(lines, duration, interval) && |lines| <= Ceiling(duration / interval) + 1
    ensures longest == Longest(lines) && old(clock.now) <= started <= clock.now
    ensures |lines| - 1 <= overruns + (|clock.wakes| - |old(clock.wakes)|) <= |lines|
    ensures WakesInTime(old(clock.wakes), clock.wakes, started + duration)
  {
    started := clock.Read();
    summary := new Summary();
    lines, overruns, longest := SampleLoop(clock, summary, started, duration, interval, observed);
    SampleBound(lines, duration, interval);
  }
}
