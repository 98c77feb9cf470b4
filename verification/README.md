# Wavefront storage driver for cAdvisor, modelled in Dafny

cAdvisor's Wavefront storage driver receives per-container stats snapshots
and forwards a subset of them to a Wavefront proxy as plaintext metric lines.
This project models its core:

- **Metric encoder** (`encoder.dfy`, module `Encoder`). A snapshot becomes a
  metric set, which maps a metric key to a `uint64` value. Seven counters are
  copied unchanged. Every filesystem record adds its limit and usage to the
  `fs_summary.fs_limit` and `fs_summary.fs_usage` totals, which wrap modulo
  2^64 like Go's `uint64` `+=`. Each record also sets the per-device keys
  `<device>~fs_limit` and `<device>~fs_usage`. The filesystem loop is a method
  proved against the function `ApplyFsRecords`. Lemmas about that function
  prove the totals, the last-record-wins rule for device keys, the exact key
  set, and that all other keys are left alone.
- **Line formatter** (`lines.dfy`, module `Lines`). Each entry of the metric
  set becomes one line:
  `<prefix><metric> <value> <timestamp> source=<source> container="<name>" [device="<device>"] <extra tags> <appended tags> \n`.
  A key holding `~` is split as `strings.Split` splits it. The appended tags
  are built by a loop: first a namespace tag (only when the namespace is
  non-empty), then one tag per label. The properties proved about it are:
  - splitting an encoded device key gives back its device and metric;
  - a reader of a line gets back the metric name, the value and the timestamp;
  - every label's tag occurs in the appended tags.
- **Flush throttle and entry point** (`storage.dfy`, module `Storage`). The
  class `WavefrontStorage` holds the configuration and the `LastFlush` map.
  Its `AddStats` method does nothing for an absent snapshot. It also does
  nothing when less than `WfInterval` seconds have passed since the
  container's last flush. Otherwise it records `now` for the container's
  display name (the first alias, else the raw name) and writes one line per
  metric. All lines of one call share the timestamp, the container name and
  the tags. The collector connection is the field `Sent`, the lines written so
  far. The clock is the argument `now`, in Unix nanoseconds.
- `text.dfy` (module `Text`): decimal rendering and parsing of numbers, and
  splitting at the first occurrence of a character.
- `wrappers.dfy` (module `Wrappers`): `Option`.

Time follows Go's `time` package:
- A container that was never flushed reads as Go's zero time (year 1).
- `Sub` saturates to the range of an int64 count of nanoseconds.
- Together these make the first call flush for any interval up to about 292
  years.

Two behaviours of the code shape the model:
- `AddStats` ignores write errors and always returns nil
  (`wavefront.go:172-177`), so the model's `AddStats` has no error result.
- In the code every stored last-flush time is a fresh `time.Now()`
  (`wavefront.go:135`), and `Sub` compares the monotonic clock readings of
  two such values (`wavefront.go:125`). The monotonic reading of a
  container's last flush therefore never decreases, whatever the interval.
  Its wall-clock reading can decrease when the system clock is set back. The
  model compares times as plain Unix nanoseconds and takes `now` as an
  unconstrained argument (see "## Left out"). In the model a due call is
  never earlier than the last flush only when the interval is non-negative;
  `FlushTimesNonDecreasing` states that fact about the model.

## Model

| member | source | states |
|---|---|---|
| `Encoder.ContainerStatsToValues` | share/wfsrc/storage/wavefront/wavefront.go:80-98 | the metric set has exactly the seven counter keys, each holding its snapshot field unchanged |
| `Encoder.ContainerFsStatsToValues` | share/wfsrc/storage/wavefront/wavefront.go:101-111 | the loop leaves the metric set equal to `ApplyFsRecords` of the records in order; with no records the set is unchanged |
| `Encoder.SummaryTotals` | share/wfsrc/storage/wavefront/wavefront.go:101-105 | each summary entry ends as its earlier value (zero if absent) plus the sum of the limits (usages) of all records, modulo 2^64; it exists afterwards exactly when it existed before or there was a record |
| `Encoder.DeviceEntries` | share/wfsrc/storage/wavefront/wavefront.go:107-110 | a device's two keys hold the limit and usage of its last record, overwriting earlier ones; a device with no record keeps its entries as they were |
| `Encoder.AddFsRecordEffect` | share/wfsrc/storage/wavefront/wavefront.go:104-109 | one filesystem record adds its limit and usage to the two summary entries (a missing entry counts as zero) modulo 2^64, sets its device's two keys to its limit and usage, adds exactly those four keys, and leaves every other key without `~` as it was |
| `Encoder.AppliedKeys` | share/wfsrc/storage/wavefront/wavefront.go:101-110 | the keys afterwards are the old keys, the summary keys when there is a record, and both device keys of every record |
| `Encoder.OtherKeysUntouched` | share/wfsrc/storage/wavefront/wavefront.go:101-110 | a key that is neither a summary key nor a device key of a record keeps its presence and value |
| `Encoder.SeriesOfShape` | share/wfsrc/storage/wavefront/wavefront.go:162-164 | a snapshot's metric set has exactly the seven counters, the summary keys when it has a filesystem record, and the device keys; the counters keep their snapshot values |
| `Encoder.FixedKeysHaveNoSeparator` | share/wfsrc/storage/wavefront/wavefront.go:50-70 | none of the counter or summary keys contains `~`, so none is rendered with a device tag |
| `Encoder.DeviceKeyHasSeparator` | share/wfsrc/storage/wavefront/wavefront.go:108-109 | every per-device key contains `~` |
| `Encoder.DeviceKeyInjective` | share/wfsrc/storage/wavefront/wavefront.go:108-109 | a per-device key determines its device and whether it is the limit or the usage key |
| `Encoder.SummaryKeysAreNew` | share/wfsrc/storage/wavefront/wavefront.go:104-105 | the summary keys are distinct from the seven counter keys, so their totals start at zero |
| `Encoder.ExampleSnapshot` | share/wfsrc/storage/wavefront/wavefront.go:80-110 | for a snapshot with one record on `/dev/sda1`, the metric set has exactly eleven keys with the listed values, and the summaries equal that record's limit 100 and usage 5 |
| `Text.NatToDecimal` | share/wfsrc/storage/wavefront/wavefront.go:172 | a value is rendered as a non-empty string of decimal digits, without leading zeros |
| `Text.IntToDecimal` | share/wfsrc/storage/wavefront/wavefront.go:138 | the timestamp is rendered as a non-empty string, with a minus sign exactly when it is negative, decimal digits after the optional sign without leading zeros, and no space or `~` |
| `Text.IntDecimalRoundTrip` | share/wfsrc/storage/wavefront/wavefront.go:138 | the digits after the optional minus sign of a rendered timestamp parse back to its magnitude |
| `Text.DecimalRoundTrip` | share/wfsrc/storage/wavefront/wavefront.go:172-174 | parsing a rendered value gives the value back |
| `Text.TakeUntil` | share/wfsrc/storage/wavefront/wavefront.go:168-171 | the result is the longest prefix without the separator; it is followed by the separator, or it is the whole string |
| `Text.DropThrough` | share/wfsrc/storage/wavefront/wavefront.go:168-169 | when the separator occurs, the string is the part before it, the separator, and the result |
| `Text.DropThroughMissing` | share/wfsrc/storage/wavefront/wavefront.go:168-169 | when the separator does not occur, nothing follows it: the result is empty |
| `Text.SplitAtFirst` | share/wfsrc/storage/wavefront/wavefront.go:168-171 | splitting `a + sep + b` at its first separator gives `a` and `b` when `a` has no separator |
| `Lines.SplitKeyParts` | share/wfsrc/storage/wavefront/wavefront.go:168-171 | the two parts of a key hold no `~`; a key without `~` is its own first part with an empty second part; otherwise the key is the first part, `~`, the second part, then its end or another `~` |
| `Lines.FormatLineEnds` | share/wfsrc/storage/wavefront/wavefront.go:166-175 | every line starts with the prefixed metric name and a space, and ends with a space, the extra tags, a space, the appended tags, a space and the newline |
| `Lines.SplitKeyRoundTrip` | share/wfsrc/storage/wavefront/wavefront.go:166-171 | for a device and a metric without `~`, the encoded key contains `~`, splitting it gives back both, and its line shows the bare metric and a `device="<device>"` tag |
| `Lines.LineHeadRoundTrip` | share/wfsrc/storage/wavefront/wavefront.go:172-174 | a collector reading the first three space-separated fields of a line gets the prefixed metric name, digits that parse to the value, and the timestamp |
| `Lines.BuildAppendTags` | share/wfsrc/storage/wavefront/wavefront.go:149-159 | the appended tags are the namespace tag (only for a non-empty namespace) followed by one ` key="value"` tag per label in visiting order |
| `Lines.LabelTagOccurs` | share/wfsrc/storage/wavefront/wavefront.go:156-159 | every label's tag occurs, at a position the lemma returns, in the label tags |
| `Storage.DisplayName` | share/wfsrc/storage/wavefront/wavefront.go:118-122 | a container is named by its first alias, or by its raw name when it has none |
| `Storage.Due` | share/wfsrc/storage/wavefront/wavefront.go:124-133 | when the time since the last flush fits a duration, a call is due exactly when that time is at least the interval; a non-positive interval lets through every call not earlier than the last flush; an interval beyond the longest duration stops every flush |
| `Storage.UnixSeconds` | share/wfsrc/storage/wavefront/wavefront.go:138 | the timestamp is the whole number of seconds at or before `now` |
| `Storage.Elapsed` | share/wfsrc/storage/wavefront/wavefront.go:125 | the elapsed time is the difference of the two times when that fits a duration; a larger difference gives the longest duration and a smaller one the most negative duration |
| `Storage.FirstFlushIsDue` | share/wfsrc/storage/wavefront/wavefront.go:124-130 | a container with no last-flush entry is due at any time after 1970, for any interval up to the longest duration |
| `Storage.ZeroIntervalAlwaysDue` | share/wfsrc/storage/wavefront/wavefront.go:128-130 | with interval 0, every call whose time is not before the last flush is due |
| `Storage.WithinIntervalNotDue` | share/wfsrc/storage/wavefront/wavefront.go:124-133 | a call less than the interval after a flush is not due |
| `Storage.FlushTimesNonDecreasing` | share/wfsrc/storage/wavefront/wavefront.go:130-135 | in the model, where `now` is unconstrained, a due call under a non-negative interval is never earlier than the container's last flush, so the stored time never decreases |
| `Storage.EnumerationSize` | share/wfsrc/storage/wavefront/wavefront.go:165 | a visiting order that lists each key once has as many entries as there are keys |
| `Storage.RenderAt` | share/wfsrc/storage/wavefront/wavefront.go:165-176 | the i-th written line is the line for the i-th visited key and its value |
| `Storage.WavefrontStorage.constructor` | share/wfsrc/storage/wavefront/wavefront.go:185-209 | defaults are interval 0, no extra tags and prefix `cadvisor.`; each is overridden by a setting given in the environment; the last-flush map starts empty |
| `Storage.WavefrontStorage.AddStats` | share/wfsrc/storage/wavefront/wavefront.go:113-178 | an absent snapshot or a call that is not due changes nothing; otherwise `LastFlush[display name]` becomes `now`, other entries stay, and exactly one line per metric-set entry is appended, all sharing the same context |
| `Storage.WavefrontStorage.Flush` | share/wfsrc/storage/wavefront/wavefront.go:137-176 | after the gate, the snapshot's metric set is written as one line per entry, each with the call's timestamp, source, display name, extra tags and appended tags |
| `Storage.WavefrontStorage.WriteLines` | share/wfsrc/storage/wavefront/wavefront.go:165-176 | appends one line per key of the metric set, visiting every key exactly once in an unspecified order |
| `Storage.ThrottledPair` | share/wfsrc/storage/wavefront/wavefront.go:124-135 | with a positive interval, of two snapshots less than the interval apart the first is written in full and the second writes nothing |
| `Storage.UnthrottledByDefault` | share/wfsrc/storage/wavefront/wavefront.go:188-193 | with the default interval 0, two snapshots at non-decreasing times are both written in full |

## Left out

- The TCP connection is not modelled: `net.DialTimeout`, writing through `fmt.Fprintf`, and `Close`. Lines are appended to the field `Sent` instead. The code ignores write errors, so nothing is lost.
- The pre-formatted line is passed to `Fprintf` a second time, as a format string. A `%` in a name, tag or label is then reinterpreted by Go's formatter. The model writes the line as built.
- Reading the environment and `strconv.Atoi` are not modelled. The constructor takes the settings as arguments, already converted. The code discards the conversion error (`wavefront.go:202`). A value that is not a number gives 0. A number outside the range of `int` gives the nearest bound of that range.
- Driver registration (`init`, `new`) is not modelled.
- The clock is an argument. The three `time.Now()` calls of one `AddStats` are one `now`.
- Go's monotonic clock readings are not modelled. Times are compared as Unix nanoseconds, and `now` is any integer.
- `Storage.FlushTimesNonDecreasing`: in the code a container's stored monotonic reading never decreases, whatever the interval. Without a monotonic clock the model cannot state that; the lemma states the weaker fact the model can show, under a non-negative interval.
- `Storage.Due`: the code compares `dur.Seconds()` with `float64(interval)` in floating point. The model compares nanoseconds with `interval * 10^9` exactly. The two can differ only by float rounding, for very large durations or intervals.
- The order in which Go visits map entries is not modelled. Metric keys are visited by nondeterministic choice, so `AddStats` promises an enumeration of the keys and no order. Labels are a sequence, in the order the host's label map happened to yield them.
- Concurrency is not modelled. The code has no locking.
- `Lines.SplitKeyRoundTrip` assumes the device contains no `~`. For a device that does contain `~`, the line shows only the text before the first `~` as the device, and the text up to the next `~` as the metric. `SplitKey` models this behaviour as written.
