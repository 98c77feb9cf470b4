/**
 The Wavefront storage driver: per-container flush throttling and the
 `AddStats` entry point, which encodes a stats snapshot and writes one line
 per metric to the collector connection. The connection is modelled by the
 sequence of lines written to it; the clock by a `now` argument, in Unix
 nanoseconds.
 */
module Storage {
  import opened Wrappers
  import Text
  import Encoder
  import Lines

  /** The identity and metadata of a monitored container. */
  datatype ContainerReference = ContainerReference(
    name: string,
    aliases: seq<string>,
    namespace: string,
    labels: seq<Lines.Label>)

  /** The name a container is shown and throttled under: its first alias, else its raw name. */
  function DisplayName(ref: ContainerReference): (name: string)
    ensures name == (ref.aliases + [ref.name])[0]
  {
    if |ref.aliases| > 0 then ref.aliases[0] else ref.name
  }

  const NANOS_PER_SECOND: int := 1_000_000_000

  /** The range of Go's `time.Duration`, an int64 count of nanoseconds. */
  const MIN_DURATION: int := -0x8000_0000_0000_0000
  const MAX_DURATION: int := 0x7fff_ffff_ffff_ffff

  /** Go's zero `time.Time`, January 1 of year 1 UTC, in Unix nanoseconds. */
  const ZERO_TIME: int := -62_135_596_800 * NANOS_PER_SECOND

  const DEFAULT_PREFIX := "cadvisor."

  /** The time of a container's last flush; a container never flushed reads as the zero time. */
  function LastFlushTime(lastFlush: map<string, int>, name: string): int {
    if name in lastFlush then lastFlush[name] else ZERO_TIME
  }

  /** `to.Sub(from)`: the nanoseconds between two times, saturated to the range of a duration. */
  function Elapsed(from: int, to: int): (d: int)
    ensures MIN_DURATION <= d <= MAX_DURATION
    ensures MIN_DURATION <= to - from <= MAX_DURATION ==> d == to - from
    ensures to - from > MAX_DURATION ==> d == MAX_DURATION
    ensures to - from < MIN_DURATION ==> d == MIN_DURATION
  {
    var d := to - from;
    if d > MAX_DURATION then MAX_DURATION else if d < MIN_DURATION then MIN_DURATION else d
  }

  /** The throttle gate: a flush goes ahead unless less than `interval` seconds passed since the last one. */
  function Due(lastFlush: map<string, int>, name: string, now: int, interval: int): (due: bool)
    ensures var gap := now - LastFlushTime(lastFlush, name);
      MIN_DURATION <= gap <= MAX_DURATION ==> (due <==> gap >= interval * NANOS_PER_SECOND)
    ensures interval <= 0 && now >= LastFlushTime(lastFlush, name) ==> due
    ensures interval * NANOS_PER_SECOND > MAX_DURATION ==> !due
  {
    !(Elapsed(LastFlushTime(lastFlush, name), now) < interval * NANOS_PER_SECOND)
  }

  /** `t.Unix()`: whole seconds since the epoch, rounded down. */
  function UnixSeconds(now: int): (secs: int)
    ensures secs * NANOS_PER_SECOND <= now < (secs + 1) * NANOS_PER_SECOND
  {
    now / NANOS_PER_SECOND
  }

  /** Part way through an enumeration of `keys`: `order` lists, once each, the keys not in `remaining`. */
  ghost predicate Visiting(order: seq<string>, keys: set<string>, remaining: set<string>) {
    && remaining <= keys
    && (forall i, j :: 0 <= i < j < |order| ==> order[i] != order[j])
    && (forall k :: k in order <==> k in keys && k !in remaining)
  }

  /** `order` lists every key of `keys` exactly once: an enumeration with nothing left to visit. */
  ghost predicate Enumerates(order: seq<string>, keys: set<string>) {
    Visiting(order, keys, {})
  }

  /** The lines for the keys of `order`, in that order. */
  function Render(ctx: Lines.LineContext, series: Encoder.Series, order: seq<string>): (lines: seq<string>)
    requires forall k :: k in order ==> k in series
    ensures |lines| == |order|
  {
    if order == [] then []
    else Render(ctx, series, order[..|order| - 1]) + [Lines.FormatLine(ctx, order[|order| - 1], series[order[|order| - 1]])]
  }

  /** The line at position `i` is the line for the key at position `i`. */
  lemma {:induction false} RenderAt(ctx: Lines.LineContext, series: Encoder.Series, order: seq<string>, i: nat)
    requires forall k :: k in order ==> k in series
    requires i < |order|
    ensures Render(ctx, series, order)[i] == Lines.FormatLine(ctx, order[i], series[order[i]])
  {
    if i < |order| - 1 {
      var init := order[..|order| - 1];
      RenderAt(ctx, series, init, i);
      assert init[i] == order[i];
    }
  }

  class WavefrontStorage {
    /** The telemetry source identifier written into every line. */
    const Source: string
    /** The flush interval in seconds. */
    const WfInterval: int
    /** Extra tags written verbatim into every line. */
    const WfAddTags: string
    /** Prepended to every metric name. */
    const WfPrefix: string
    /** The time of each container's last flush, keyed by display name. */
    var LastFlush: map<string, int>
    /** The lines written to the collector connection, oldest first. */
    var Sent: seq<string>

    /**
     A driver with the default settings (interval 0, no extra tags, prefix
     "cadvisor."), each overridden by a setting given in the environment:
     `envInterval` is the interval setting when one is set, the two strings
     are empty when unset.
     */
    constructor (source: string, envInterval: Option<int>, envAddTags: string, envPrefix: string)
      ensures Source == source
      ensures WfInterval == (if envInterval.Some? then envInterval.value else 0)
      ensures WfAddTags == envAddTags
      ensures WfPrefix == (if envPrefix != "" then envPrefix else DEFAULT_PREFIX)
      ensures LastFlush == map[] && Sent == []
    {
      Source := source;
      WfInterval := if envInterval.Some? then envInterval.value else 0;
      WfAddTags := envAddTags;
      WfPrefix := if envPrefix != "" then envPrefix else DEFAULT_PREFIX;
      LastFlush := map[];
      Sent := [];
    }

    /** What every line of a flush at `now` for `ref` shares. */
    function Context(ref: ContainerReference, now: int): Lines.LineContext {
      Lines.LineContext(WfPrefix, Text.IntToDecimal(UnixSeconds(now)), Source, DisplayName(ref),
        WfAddTags, Lines.AppendTags(ref.namespace, ref.labels))
    }

    /**
     Pushes one snapshot. An absent snapshot, or one that arrives less than
     the interval after the container's last flush, changes nothing. Otherwise
     the container's last flush becomes `now` and one line per entry of the
     snapshot's metric set is written, in the order `order`, all with the same
     timestamp, container name and tags.
     */
    method AddStats(ref: ContainerReference, stats: Option<Encoder.ContainerStats>, now: int)
      returns (ghost order: seq<string>)
      modifies this
      ensures stats.None? || !Due(old(LastFlush), DisplayName(ref), now, WfInterval) ==>
        LastFlush == old(LastFlush) && Sent == old(Sent)
      ensures stats.Some? && Due(old(LastFlush), DisplayName(ref), now, WfInterval) ==>
        && LastFlush == old(LastFlush)[DisplayName(ref) := now]
        && Enumerates(order, Encoder.SeriesOf(stats.value).Keys)
        && Sent == old(Sent) + Render(Context(ref, now), Encoder.SeriesOf(stats.value), order)
        && |Sent| == |old(Sent)| + |Encoder.SeriesOf(stats.value).Keys|
    {
      order := [];
      if stats.None? {
        return;
      }
      var containerName := ref.name;
      if |ref.aliases| > 0 {
        containerName := ref.aliases[0];
      }
      assert containerName == DisplayName(ref);
      var last := if containerName in LastFlush then LastFlush[containerName] else ZERO_TIME;
      var dur := Elapsed(last, now);
      if dur < WfInterval * NANOS_PER_SECOND {
        return;
      }
      LastFlush := LastFlush[containerName := now];
      order := Flush(ref, stats.value, now);
    }

    /** The part of `AddStats` after the gate: encode the snapshot and write its lines. */
    method Flush(ref: ContainerReference, stats: Encoder.ContainerStats, now: int) returns (ghost order: seq<string>)
      modifies this`Sent
      ensures Enumerates(order, Encoder.SeriesOf(stats).Keys)
      ensures Sent == old(Sent) + Render(Context(ref, now), Encoder.SeriesOf(stats), order)
      ensures |Sent| == |old(Sent)| + |Encoder.SeriesOf(stats).Keys|
    {
      var timestamp := Text.IntToDecimal(UnixSeconds(now));
      var appendTags := Lines.BuildAppendTags(ref.namespace, ref.labels);
      var series := Encoder.ContainerStatsToValues(stats);
      series := Encoder.ContainerFsStatsToValues(series, stats);
      var ctx := Lines.LineContext(WfPrefix, timestamp, Source, DisplayName(ref), WfAddTags, appendTags);
      assert ctx == Context(ref, now);
      order := WriteLines(ctx, series);
      EnumerationSize(order, series.Keys);
    }

    /** Writes one line per entry of `series`, visiting the keys in an unspecified order. */
    method WriteLines(ctx: Lines.LineContext, series: Encoder.Series) returns (ghost order: seq<string>)
      modifies this`Sent
      ensures Enumerates(order, series.Keys)
      ensures Sent == old(Sent) + Render(ctx, series, order)
    {
      order := [];
      var remaining := series.Keys;
      while remaining != {}
        invariant Visiting(order, series.Keys, remaining)
        invariant Sent == old(Sent) + Render(ctx, series, order)
        decreases |remaining|
      {
        var key :| key in remaining;
        var line := Lines.FormatLine(ctx, key, series[key]);
        AppendAssoc(old(Sent), Render(ctx, series, order), line);
        Sent := Sent + [line];
        RenderSnoc(ctx, series, order, key);
        VisitOne(order, series.Keys, remaining, key);
        order := order + [key];
        remaining := remaining - {key};
      }
    }
  }

  /** Visiting one more remaining key keeps the enumeration in step. */
  lemma VisitOne(order: seq<string>, keys: set<string>, remaining: set<string>, key: string)
    requires Visiting(order, keys, remaining) && key in remaining
    ensures Visiting(order + [key], keys, remaining - {key})
    ensures |remaining - {key}| < |remaining|
  {
    assert key !in order;
  }

  /** Appending a line after the rendered lines is appending it to them. */
  lemma AppendAssoc(written: seq<string>, rendered: seq<string>, line: string)
    ensures (written + rendered) + [line] == written + (rendered + [line])
  {
  }

  /** Rendering one more key appends that key's line. */
  lemma RenderSnoc(ctx: Lines.LineContext, series: Encoder.Series, order: seq<string>, key: string)
    requires forall k :: k in order ==> k in series
    requires key in series
    ensures Render(ctx, series, order + [key]) == Render(ctx, series, order) + [Lines.FormatLine(ctx, key, series[key])]
  {
    assert (order + [key])[..|order|] == order;
  }

  /** There are as many keys as entries in an enumeration of them. */
  lemma {:induction false} EnumerationSize(order: seq<string>, keys: set<string>)
    requires Enumerates(order, keys)
    ensures |order| == |keys|
  {
    if order != [] {
      var last := order[|order| - 1];
      var init := order[..|order| - 1];
      assert Enumerates(init, keys - {last}) by {
        forall i, j | 0 <= i < j < |init| ensures init[i] != init[j] {
          assert init[i] == order[i] && init[j] == order[j];
        }
        forall k ensures k in init <==> k in keys - {last} {
          if k in init {
            var i :| 0 <= i < |init| && init[i] == k;
            assert order[i] == k && order[|order| - 1] == last;
          }
          if k in keys - {last} {
            assert k in order;
            var i :| 0 <= i < |order| && order[i] == k;
            assert i < |order| - 1;
            assert init[i] == k;
          }
        }
      }
      EnumerationSize(init, keys - {last});
    }
  }

  /** A container never flushed before is due, at any time after 1970, unless its interval exceeds the longest duration. */
  lemma FirstFlushIsDue(lastFlush: map<string, int>, name: string, now: int, interval: int)
    requires name !in lastFlush && now >= 0
    requires interval * NANOS_PER_SECOND <= MAX_DURATION
    ensures Due(lastFlush, name, now, interval)
  {
  }

  /** With an interval of zero every call whose clock has not gone back flushes. */
  lemma ZeroIntervalAlwaysDue(lastFlush: map<string, int>, name: string, now: int)
    requires now >= LastFlushTime(lastFlush, name)
    ensures Due(lastFlush, name, now, 0)
  {
  }

  /** A call less than the interval after a flush at `last` is not due. */
  lemma WithinIntervalNotDue(lastFlush: map<string, int>, name: string, last: int, now: int, interval: int)
    requires interval > 0 && last <= now < last + interval * NANOS_PER_SECOND
    ensures !Due(lastFlush[name := last], name, now, interval)
  {
  }

  /** With a non-negative interval a flush never moves a container's last-flush time backwards. */
  lemma FlushTimesNonDecreasing(lastFlush: map<string, int>, name: string, now: int, interval: int)
    requires interval >= 0 && Due(lastFlush, name, now, interval)
    ensures now >= LastFlushTime(lastFlush, name)
  {
  }

  /**
   Two snapshots of one container pushed less than the interval apart: the
   first is written out in full, the second writes nothing.
   */
  method ThrottledPair(
    source: string, interval: int, ref: ContainerReference, stats: Encoder.ContainerStats, t1: int, t2: int)
    returns (first: seq<string>, second: seq<string>)
    requires 0 < interval && interval * NANOS_PER_SECOND <= MAX_DURATION
    requires 0 <= t1 <= t2 < t1 + interval * NANOS_PER_SECOND
    ensures |first| == |Encoder.SeriesOf(stats).Keys|
    ensures second == []
  {
    var driver := new WavefrontStorage(source, Some(interval), "", "");
    FirstFlushIsDue(driver.LastFlush, DisplayName(ref), t1, interval);
    ghost var order1 := driver.AddStats(ref, Some(stats), t1);
    first := driver.Sent;
    WithinIntervalNotDue(map[], DisplayName(ref), t1, t2, interval);
    ghost var order2 := driver.AddStats(ref, Some(stats), t2);
    second := driver.Sent[|first|..];
  }

  /**
   With the default settings there is no throttling: two snapshots of one
   container are both written out in full, however close together.
   */
  method UnthrottledByDefault(
    source: string, ref: ContainerReference, stats: Encoder.ContainerStats, t1: int, t2: int)
    returns (first: seq<string>, second: seq<string>)
    requires 0 <= t1 <= t2
    ensures |first| == |second| == |Encoder.SeriesOf(stats).Keys|
  {
    var driver := new WavefrontStorage(source, None, "", "");
    ZeroIntervalAlwaysDue(driver.LastFlush, DisplayName(ref), t1);
    ghost var order1 := driver.AddStats(ref, Some(stats), t1);
    first := driver.Sent;
    ZeroIntervalAlwaysDue(driver.LastFlush, DisplayName(ref), t2);
    ghost var order2 := driver.AddStats(ref, Some(stats), t2);
    second := driver.Sent[|first|..];
  }
}
