/**
 The metric encoder of the Wavefront storage driver: a container stats
 snapshot becomes a map from metric key to unsigned 64-bit value. Seven
 counters are copied as they are; every filesystem record adds its limit and
 usage to two running summary totals and records them once more under
 per-device keys of the form `<device>~fs_limit` and `<device>~fs_usage`.
 */
module Encoder {
  import opened Wrappers

  const U64_LIMIT: nat := 0x1_0000_0000_0000_0000

  /** Go's `uint64`. */
  type U64 = x: nat | x < U64_LIMIT

  /** Addition on `uint64`, which wraps around. */
  function AddU64(a: U64, b: U64): U64 {
    (a + b) % U64_LIMIT
  }

  /** One filesystem record of a snapshot. */
  datatype FsStats = FsStats(device: string, limit: U64, usage: U64)

  /** The parts of a container stats snapshot the encoder reads. */
  datatype ContainerStats = ContainerStats(
    cpuUsageTotal: U64,
    memoryUsage: U64,
    memoryWorkingSet: U64,
    rxBytes: U64,
    rxErrors: U64,
    txBytes: U64,
    txErrors: U64,
    filesystem: seq<FsStats>)

  /** The metric set: metric key to value. */
  type Series = map<string, U64>

  const CPU_CUMULATIVE_USAGE := "cpu_cumulative_usage"
  const MEMORY_USAGE := "memory_usage"
  const MEMORY_WORKING_SET := "memory_working_set"
  const RX_BYTES := "rx_bytes"
  const RX_ERRORS := "rx_errors"
  const TX_BYTES := "tx_bytes"
  const TX_ERRORS := "tx_errors"
  const FS_SUMMARY := "fs_summary"
  const FS_LIMIT := "fs_limit"
  const FS_USAGE := "fs_usage"

  /** The separator between a device and a metric name in a per-device key. */
  const DEVICE_SEPARATOR := '~'

  const FS_SUMMARY_LIMIT := FS_SUMMARY + "." + FS_LIMIT
  const FS_SUMMARY_USAGE := FS_SUMMARY + "." + FS_USAGE

  function DeviceKey(device: string, metric: string): string {
    device + [DEVICE_SEPARATOR] + metric
  }

  /** The seven keys copied straight from the snapshot. */
  function BaseKeys(): set<string> {
    {CPU_CUMULATIVE_USAGE, MEMORY_USAGE, MEMORY_WORKING_SET, RX_BYTES, RX_ERRORS, TX_BYTES, TX_ERRORS}
  }

  function SummaryKeys(): set<string> {
    {FS_SUMMARY_LIMIT, FS_SUMMARY_USAGE}
  }

  /** Every per-device key the records of `fss` produce. */
  function DeviceKeys(fss: seq<FsStats>): set<string> {
    (set i | 0 <= i < |fss| :: DeviceKey(fss[i].device, FS_LIMIT))
      + (set i | 0 <= i < |fss| :: DeviceKey(fss[i].device, FS_USAGE))
  }

  /** Go's map read: a missing key reads as zero. */
  function Lookup(series: Series, key: string): U64 {
    if key in series then series[key] else 0
  }

  /** The snapshot's counters, one key each, copied without conversion. */
  function ContainerStatsToValues(stats: ContainerStats): (series: Series)
    ensures series.Keys == BaseKeys()
    ensures series[CPU_CUMULATIVE_USAGE] == stats.cpuUsageTotal
    ensures series[MEMORY_USAGE] == stats.memoryUsage
    ensures series[MEMORY_WORKING_SET] == stats.memoryWorkingSet
    ensures series[RX_BYTES] == stats.rxBytes
    ensures series[RX_ERRORS] == stats.rxErrors
    ensures series[TX_BYTES] == stats.txBytes
    ensures series[TX_ERRORS] == stats.txErrors
  {
    map[]
      [CPU_CUMULATIVE_USAGE := stats.cpuUsageTotal]
      [MEMORY_USAGE := stats.memoryUsage]
      [MEMORY_WORKING_SET := stats.memoryWorkingSet]
      [RX_BYTES := stats.rxBytes]
      [RX_ERRORS := stats.rxErrors]
      [TX_BYTES := stats.txBytes]
      [TX_ERRORS := stats.txErrors]
  }

  /** The effect of one iteration of the filesystem loop on the metric set. */
  function AddFsRecord(series: Series, fs: FsStats): Series {
    var withLimit := series[FS_SUMMARY_LIMIT := AddU64(Lookup(series, FS_SUMMARY_LIMIT), fs.limit)];
    var withUsage := withLimit[FS_SUMMARY_USAGE := AddU64(Lookup(withLimit, FS_SUMMARY_USAGE), fs.usage)];
    withUsage[DeviceKey(fs.device, FS_LIMIT) := fs.limit][DeviceKey(fs.device, FS_USAGE) := fs.usage]
  }

  /**
   One record adds its limit and usage to the summary totals, modulo 2^64,
   sets its device's two keys, and leaves every other key alone.
   */
  lemma AddFsRecordEffect(series: Series, fs: FsStats)
    ensures var r := AddFsRecord(series, fs);
      && r.Keys == series.Keys + SummaryKeys() + {DeviceKey(fs.device, FS_LIMIT), DeviceKey(fs.device, FS_USAGE)}
      && r[FS_SUMMARY_LIMIT] == (Lookup(series, FS_SUMMARY_LIMIT) + fs.limit) % U64_LIMIT
      && r[FS_SUMMARY_USAGE] == (Lookup(series, FS_SUMMARY_USAGE) + fs.usage) % U64_LIMIT
      && r[DeviceKey(fs.device, FS_LIMIT)] == fs.limit && r[DeviceKey(fs.device, FS_USAGE)] == fs.usage
      && (forall k :: k !in SummaryKeys() && NoSeparator(k) ==> Unchanged(series, r, k))
  {
    DeviceKeyHasSeparator(fs.device, FS_LIMIT);
    DeviceKeyHasSeparator(fs.device, FS_USAGE);
    assert FS_SUMMARY_LIMIT[|FS_SUMMARY_LIMIT| - 1] != FS_SUMMARY_USAGE[|FS_SUMMARY_USAGE| - 1];
    var limitKey, usageKey := DeviceKey(fs.device, FS_LIMIT), DeviceKey(fs.device, FS_USAGE);
    assert limitKey[|limitKey| - 1] != usageKey[|usageKey| - 1];
    // A summary key has '.' where a device key has the separator.
    assert FS_SUMMARY_LIMIT[|FS_SUMMARY_LIMIT| - 9] == FS_SUMMARY_USAGE[|FS_SUMMARY_USAGE| - 9] == '.';
    assert limitKey[|limitKey| - 9] == usageKey[|usageKey| - 9] == DEVICE_SEPARATOR;
  }

  /** The metric set after the records of `fss` were added in order. */
  function ApplyFsRecords(series: Series, fss: seq<FsStats>): Series {
    if fss == [] then series
    else AddFsRecord(ApplyFsRecords(series, fss[..|fss| - 1]), fss[|fss| - 1])
  }

  /** Adds the filesystem metrics of `stats` to `series`, record by record. */
  method ContainerFsStatsToValues(series: Series, stats: ContainerStats) returns (updated: Series)
    ensures updated == ApplyFsRecords(series, stats.filesystem)
    ensures stats.filesystem == [] ==> updated == series
  {
    var fss := stats.filesystem;
    updated := series;
    var i := 0;
    while i < |fss|
      invariant 0 <= i <= |fss|
      invariant updated == ApplyFsRecords(series, fss[..i])
    {
      var fs := fss[i];
      updated := updated[FS_SUMMARY_LIMIT := AddU64(Lookup(updated, FS_SUMMARY_LIMIT), fs.limit)];
      updated := updated[FS_SUMMARY_USAGE := AddU64(Lookup(updated, FS_SUMMARY_USAGE), fs.usage)];
      updated := updated[DeviceKey(fs.device, FS_LIMIT) := fs.limit];
      updated := updated[DeviceKey(fs.device, FS_USAGE) := fs.usage];
      assert fss[..i + 1][..i] == fss[..i];
      i := i + 1;
    }
    assert fss[..i] == fss;
  }

  /** The whole metric set of one snapshot. */
  function SeriesOf(stats: ContainerStats): Series {
    ApplyFsRecords(ContainerStatsToValues(stats), stats.filesystem)
  }

  function SumLimits(fss: seq<FsStats>): nat {
    if fss == [] then 0 else SumLimits(fss[..|fss| - 1]) + fss[|fss| - 1].limit
  }

  function SumUsages(fss: seq<FsStats>): nat {
    if fss == [] then 0 else SumUsages(fss[..|fss| - 1]) + fss[|fss| - 1].usage
  }

  /** The last record of `fss` for `device`, if any. */
  function LastRecordFor(fss: seq<FsStats>, device: string): Option<FsStats> {
    if fss == [] then None
    else if fss[|fss| - 1].device == device then Some(fss[|fss| - 1])
    else LastRecordFor(fss[..|fss| - 1], device)
  }

  predicate NoSeparator(s: string) {
    DEVICE_SEPARATOR !in s
  }

  /** Facts about the fixed keys: none holds the separator, so none is a per-device key. */
  lemma FixedKeysHaveNoSeparator()
    ensures forall k :: k in BaseKeys() + SummaryKeys() ==> NoSeparator(k)
  {
  }

  /** Every per-device key holds the separator, so it differs from every fixed key. */
  lemma DeviceKeyHasSeparator(device: string, metric: string)
    ensures !NoSeparator(DeviceKey(device, metric))
  {
  }

  /** A per-device key determines its device and which of the two metrics it holds. */
  lemma DeviceKeyInjective(d1: string, m1: string, d2: string, m2: string)
    requires m1 in {FS_LIMIT, FS_USAGE} && m2 in {FS_LIMIT, FS_USAGE}
    requires DeviceKey(d1, m1) == DeviceKey(d2, m2)
    ensures d1 == d2 && m1 == m2
  {
    var k := DeviceKey(d1, m1);
    assert k[|k| - 1] == m1[|m1| - 1] == m2[|m2| - 1];
    assert m1 == m2;
    assert d1 == k[..|k| - |m1| - 1] == d2;
  }

  /**
   The summary entries: after the loop each holds its earlier value (zero when
   absent) plus the total of its field over all records, modulo 2^64; the
   entry exists afterwards exactly when it existed before or some record was
   added.
   */
  lemma SummaryTotals(series: Series, fss: seq<FsStats>)
    ensures var r := ApplyFsRecords(series, fss);
      && (FS_SUMMARY_LIMIT in r <==> FS_SUMMARY_LIMIT in series || fss != [])
      && (FS_SUMMARY_USAGE in r <==> FS_SUMMARY_USAGE in series || fss != [])
      && Lookup(r, FS_SUMMARY_LIMIT) == (Lookup(series, FS_SUMMARY_LIMIT) + SumLimits(fss)) % U64_LIMIT
      && Lookup(r, FS_SUMMARY_USAGE) == (Lookup(series, FS_SUMMARY_USAGE) + SumUsages(fss)) % U64_LIMIT
  {
    SummaryLimitTotal(series, fss);
    SummaryUsageTotal(series, fss);
  }

  /** The limit half of `SummaryTotals`. */
  lemma {:induction false} SummaryLimitTotal(series: Series, fss: seq<FsStats>)
    ensures var r := ApplyFsRecords(series, fss);
      && (FS_SUMMARY_LIMIT in r <==> FS_SUMMARY_LIMIT in series || fss != [])
      && Lookup(r, FS_SUMMARY_LIMIT) == (Lookup(series, FS_SUMMARY_LIMIT) + SumLimits(fss)) % U64_LIMIT
  {
    if fss != [] {
      var init, fs := fss[..|fss| - 1], fss[|fss| - 1];
      SummaryLimitTotal(series, init);
      SummaryUsageTotal(series, init);
      var limits := Lookup(series, FS_SUMMARY_LIMIT) + SumLimits(init);
      assert Lookup(series, FS_SUMMARY_LIMIT) + SumLimits(fss) == limits + fs.limit;
      SummaryStep(ApplyFsRecords(series, init), fs, limits, Lookup(series, FS_SUMMARY_USAGE) + SumUsages(init));
    }
  }

  /** The usage half of `SummaryTotals`. */
  lemma {:induction false} SummaryUsageTotal(series: Series, fss: seq<FsStats>)
    ensures var r := ApplyFsRecords(series, fss);
      && (FS_SUMMARY_USAGE in r <==> FS_SUMMARY_USAGE in series || fss != [])
      && Lookup(r, FS_SUMMARY_USAGE) == (Lookup(series, FS_SUMMARY_USAGE) + SumUsages(fss)) % U64_LIMIT
  {
    if fss != [] {
      var init, fs := fss[..|fss| - 1], fss[|fss| - 1];
      SummaryLimitTotal(series, init);
      SummaryUsageTotal(series, init);
      var usages := Lookup(series, FS_SUMMARY_USAGE) + SumUsages(init);
      assert Lookup(series, FS_SUMMARY_USAGE) + SumUsages(fss) == usages + fs.usage;
      SummaryStep(ApplyFsRecords(series, init), fs, Lookup(series, FS_SUMMARY_LIMIT) + SumLimits(init), usages);
    }
  }

  /** One record moves both running totals on by its own limit and usage, modulo 2^64. */
  lemma SummaryStep(before: Series, fs: FsStats, limits: nat, usages: nat)
    requires Lookup(before, FS_SUMMARY_LIMIT) == limits % U64_LIMIT
    requires Lookup(before, FS_SUMMARY_USAGE) == usages % U64_LIMIT
    ensures var r := AddFsRecord(before, fs);
      && FS_SUMMARY_LIMIT in r && FS_SUMMARY_USAGE in r
      && Lookup(r, FS_SUMMARY_LIMIT) == (limits + fs.limit) % U64_LIMIT
      && Lookup(r, FS_SUMMARY_USAGE) == (usages + fs.usage) % U64_LIMIT
  {
    AddFsRecordEffect(before, fs);
    ModAddReduce(limits, fs.limit);
    ModAddReduce(usages, fs.usage);
  }

  /** Reducing the first summand modulo 2^64 does not change the sum modulo 2^64. */
  lemma ModAddReduce(a: nat, b: nat)
    ensures (a % U64_LIMIT + b) % U64_LIMIT == (a + b) % U64_LIMIT
  {
  }

  /**
   The per-device entries: each device's two keys hold the limit and usage of
   its last record (earlier records of the same device are overwritten);
   without a record the entry is as it was.
   */
  lemma {:induction false} DeviceEntries(series: Series, fss: seq<FsStats>, device: string)
    ensures var r := ApplyFsRecords(series, fss);
      match LastRecordFor(fss, device)
      case Some(fs) =>
        && DeviceKey(device, FS_LIMIT) in r && r[DeviceKey(device, FS_LIMIT)] == fs.limit
        && DeviceKey(device, FS_USAGE) in r && r[DeviceKey(device, FS_USAGE)] == fs.usage
      case None =>
        && Unchanged(series, r, DeviceKey(device, FS_LIMIT))
        && Unchanged(series, r, DeviceKey(device, FS_USAGE))
  {
    if fss != [] {
      var init := fss[..|fss| - 1];
      var fs := fss[|fss| - 1];
      DeviceEntries(series, init, device);
      FixedKeysHaveNoSeparator();
      if fs.device != device {
        if DeviceKey(device, FS_LIMIT) == DeviceKey(fs.device, FS_LIMIT) {
          DeviceKeyInjective(device, FS_LIMIT, fs.device, FS_LIMIT);
        }
        if DeviceKey(device, FS_LIMIT) == DeviceKey(fs.device, FS_USAGE) {
          DeviceKeyInjective(device, FS_LIMIT, fs.device, FS_USAGE);
        }
        if DeviceKey(device, FS_USAGE) == DeviceKey(fs.device, FS_LIMIT) {
          DeviceKeyInjective(device, FS_USAGE, fs.device, FS_LIMIT);
        }
        if DeviceKey(device, FS_USAGE) == DeviceKey(fs.device, FS_USAGE) {
          DeviceKeyInjective(device, FS_USAGE, fs.device, FS_USAGE);
        }
      }
      DeviceKeyHasSeparator(device, FS_LIMIT);
      DeviceKeyHasSeparator(device, FS_USAGE);
      if DeviceKey(device, FS_LIMIT) == DeviceKey(device, FS_USAGE) {
        DeviceKeyInjective(device, FS_LIMIT, device, FS_USAGE);
      }
    }
  }

  /** `key` is in `after` exactly when it is in `before`, with the same value. */
  predicate Unchanged(before: Series, after: Series, key: string) {
    (key in after <==> key in before) && (key in before ==> after[key] == before[key])
  }

  /** The keys after the loop: the old keys, the summary keys once a record exists, and every record's device keys. */
  lemma {:induction false} AppliedKeys(series: Series, fss: seq<FsStats>)
    ensures ApplyFsRecords(series, fss).Keys
      == series.Keys + (if fss == [] then {} else SummaryKeys()) + DeviceKeys(fss)
  {
    if fss != [] {
      var init := fss[..|fss| - 1];
      AppliedKeys(series, init);
      DeviceKeysSnoc(fss);
    }
  }

  /** The device keys of a sequence of records: those of all but the last, and the last's two. */
  lemma DeviceKeysSnoc(fss: seq<FsStats>)
    requires fss != []
    ensures var fs := fss[|fss| - 1];
      DeviceKeys(fss) == DeviceKeys(fss[..|fss| - 1]) + {DeviceKey(fs.device, FS_LIMIT), DeviceKey(fs.device, FS_USAGE)}
  {
    var init, fs := fss[..|fss| - 1], fss[|fss| - 1];
    forall k | k in DeviceKeys(fss)
      ensures k in DeviceKeys(init) + {DeviceKey(fs.device, FS_LIMIT), DeviceKey(fs.device, FS_USAGE)}
    {
      var i :| 0 <= i < |fss| && (k == DeviceKey(fss[i].device, FS_LIMIT) || k == DeviceKey(fss[i].device, FS_USAGE));
      if i < |init| {
        assert fss[i] == init[i];
      }
    }
    forall k | k in DeviceKeys(init) ensures k in DeviceKeys(fss) {
      var i :| 0 <= i < |init| && (k == DeviceKey(init[i].device, FS_LIMIT) || k == DeviceKey(init[i].device, FS_USAGE));
      assert init[i] == fss[i];
    }
    assert DeviceKey(fs.device, FS_LIMIT) in DeviceKeys(fss);
    assert DeviceKey(fs.device, FS_USAGE) in DeviceKeys(fss);
  }

  /** Keys that are neither summary keys nor a device key of any record keep their entries. */
  lemma {:induction false} OtherKeysUntouched(series: Series, fss: seq<FsStats>, key: string)
    requires key !in SummaryKeys() && key !in DeviceKeys(fss)
    ensures Unchanged(series, ApplyFsRecords(series, fss), key)
  {
    if fss != [] {
      var init := fss[..|fss| - 1];
      DeviceKeysSnoc(fss);
      OtherKeysUntouched(series, init, key);
    }
  }

  /**
   The metric set of a snapshot: exactly the seven counters, the two summary
   keys when the snapshot has a filesystem record, and the device keys; the
   counters keep their snapshot values.
   */
  lemma SeriesOfShape(stats: ContainerStats)
    ensures SeriesOf(stats).Keys
      == BaseKeys() + (if stats.filesystem == [] then {} else SummaryKeys()) + DeviceKeys(stats.filesystem)
    ensures forall k :: k in BaseKeys() ==> SeriesOf(stats)[k] == ContainerStatsToValues(stats)[k]
  {
    AppliedKeys(ContainerStatsToValues(stats), stats.filesystem);
    FixedKeysHaveNoSeparator();
    forall k | k in BaseKeys() ensures SeriesOf(stats)[k] == ContainerStatsToValues(stats)[k] {
      OtherKeysUntouched(ContainerStatsToValues(stats), stats.filesystem, k);
    }
  }

  /** The summary keys are not among the seven counters (their lengths differ from all seven). */
  lemma SummaryKeysAreNew()
    ensures SummaryKeys() !! BaseKeys()
  {
  }

  /**
   A snapshot with one filesystem record: the seven counters, the two summary
   totals equal to the record's own limit and usage, and the record's two
   per-device entries, and nothing else.
   */
  lemma ExampleSnapshot()
    ensures var r := SeriesOf(ContainerStats(100, 50, 40, 10, 0, 20, 1, [FsStats("/dev/sda1", 100, 5)]));
      && r.Keys == BaseKeys() + SummaryKeys() + {DeviceKey("/dev/sda1", FS_LIMIT), DeviceKey("/dev/sda1", FS_USAGE)}
      && r[CPU_CUMULATIVE_USAGE] == 100 && r[MEMORY_USAGE] == 50 && r[MEMORY_WORKING_SET] == 40
      && r[RX_BYTES] == 10 && r[RX_ERRORS] == 0 && r[TX_BYTES] == 20 && r[TX_ERRORS] == 1
      && r[FS_SUMMARY_LIMIT] == 100 && r[FS_SUMMARY_USAGE] == 5
      && r[DeviceKey("/dev/sda1", FS_LIMIT)] == 100 && r[DeviceKey("/dev/sda1", FS_USAGE)] == 5
  {
    var stats := ContainerStats(100, 50, 40, 10, 0, 20, 1, [FsStats("/dev/sda1", 100, 5)]);
    var base := ContainerStatsToValues(stats);
    SeriesOfShape(stats);
    assert DeviceKeys(stats.filesystem) == {DeviceKey("/dev/sda1", FS_LIMIT), DeviceKey("/dev/sda1", FS_USAGE)};
    SummaryKeysAreNew();
    assert Lookup(base, FS_SUMMARY_LIMIT) == 0 && Lookup(base, FS_SUMMARY_USAGE) == 0;
    SummaryTotals(base, stats.filesystem);
    assert SumLimits(stats.filesystem) == 100 && SumUsages(stats.filesystem) == 5;
    DeviceEntries(base, stats.filesystem, "/dev/sda1");
  }
}
