/**
 The line formatter: one metric entry becomes one line of the Wavefront
 plaintext data format,

   <prefix><metric> <value> <timestamp> source=<source> container="<name>" [device="<device>"] <extra tags> <appended tags> \n

 where a key holding the `~` separator is split into a device point tag and
 the bare metric name, and the appended tags are the namespace tag (only for
 a non-empty namespace) followed by one tag per label.
 */
module Lines {
  import Text
  import Encoder

  /** Everything a line takes besides its key and value; shared by all lines of one flush. */
  datatype LineContext = LineContext(
    prefix: string,
    timestamp: string,
    source: string,
    container: string,
    addTags: string,
    appendTags: string)

  /**
   `strings.Split(key, "~")`, keeping its first two parts: the text before the
   first separator and the text between the first and the second.
   */
  function SplitKey(key: string): (string, string) {
    var sep := Encoder.DEVICE_SEPARATOR;
    (Text.TakeUntil(key, sep), Text.TakeUntil(Text.DropThrough(key, sep), sep))
  }

  /**
   What `SplitKey` returns: two parts without the separator. A key without
   the separator is its own first part. Otherwise the key is the first part,
   the separator, the second part, and then either its end or another
   separator.
   */
  lemma SplitKeyParts(key: string)
    ensures var parts := SplitKey(key);
      && Encoder.DEVICE_SEPARATOR !in parts.0 && Encoder.DEVICE_SEPARATOR !in parts.1
      && (Encoder.DEVICE_SEPARATOR !in key ==> parts == (key, ""))
      && (Encoder.DEVICE_SEPARATOR in key ==>
        var start := |parts.0| + 1;
        var end := start + |parts.1|;
        && end <= |key|
        && key[..start] == parts.0 + [Encoder.DEVICE_SEPARATOR]
        && key[start..end] == parts.1
        && (end == |key| || key[end] == Encoder.DEVICE_SEPARATOR))
  {
    if Encoder.DEVICE_SEPARATOR !in key {
      Text.DropThroughMissing(key, Encoder.DEVICE_SEPARATOR);
    }
  }

  /** The metric name a line shows for `key`. */
  function MetricName(key: string): string {
    if Encoder.DEVICE_SEPARATOR in key then SplitKey(key).1 else key
  }

  /** The device point tag a line carries for `key`, empty for keys without the separator. */
  function DeviceTag(key: string): string {
    if Encoder.DEVICE_SEPARATOR in key then " device=\"" + SplitKey(key).0 + "\"" else ""
  }

  /** The first three fields of a line: full metric name, value and timestamp. */
  function Head(name: string, value: string, timestamp: string): string {
    name + " " + value + " " + timestamp
  }

  /** The point tags and the trailing tag strings of a line, up to and including its end. */
  function Tail(ctx: LineContext, deviceTag: string): string {
    " source=" + ctx.source + " container=\"" + ctx.container + "\"" + deviceTag
      + " " + ctx.addTags + " " + ctx.appendTags + " \n"
  }

  /** The end every line of a flush shares: the extra tags, the appended tags and the newline. */
  function LineEnd(ctx: LineContext): string {
    " " + ctx.addTags + " " + ctx.appendTags + " \n"
  }

  /**
   The line written for one entry of the metric set. For a key with the
   separator the device tag sits between the container tag and the extra
   tags; for any other key it is absent.
   */
  function FormatLine(ctx: LineContext, key: string, value: Encoder.U64): string {
    Head(ctx.prefix + MetricName(key), Text.NatToDecimal(value), ctx.timestamp) + Tail(ctx, DeviceTag(key))
  }

  /**
   Every line starts with the prefixed metric name and a space, and ends with
   the extra tags, the appended tags and the newline its flush shares.
   */
  lemma FormatLineEnds(ctx: LineContext, key: string, value: Encoder.U64)
    ensures var line, head := FormatLine(ctx, key, value), ctx.prefix + MetricName(key) + " ";
      && |head| < |line| && line[..|head|] == head
      && |LineEnd(ctx)| < |line| && line[|line| - |LineEnd(ctx)|..] == LineEnd(ctx)
  {
    LineEnds(ctx.prefix + MetricName(key), Text.NatToDecimal(value), ctx.timestamp, ctx, DeviceTag(key));
  }

  /** `FormatLineEnds` for arbitrary pieces of a line. */
  lemma LineEnds(name: string, value: string, timestamp: string, ctx: LineContext, deviceTag: string)
    ensures var line := Head(name, value, timestamp) + Tail(ctx, deviceTag);
      && |name + " "| < |line| && line[..|name + " "|] == name + " "
      && |LineEnd(ctx)| < |line| && line[|line| - |LineEnd(ctx)|..] == LineEnd(ctx)
  {
    var h := Head(name, value, timestamp);
    var t := Tail(ctx, deviceTag);
    HeadStart(name, value, timestamp);
    TailEnd(ctx, deviceTag);
    JoinEnds(h, t, name + " ", LineEnd(ctx));
  }

  /** The head starts with the full metric name and a space. */
  lemma HeadStart(name: string, value: string, timestamp: string)
    ensures |name| < |Head(name, value, timestamp)|
    ensures Head(name, value, timestamp)[..|name| + 1] == name + " "
  {
    assert Head(name, value, timestamp) == (name + " ") + (value + " " + timestamp);
  }

  /** The tail ends with the shared line end. */
  lemma TailEnd(ctx: LineContext, deviceTag: string)
    ensures var tail := Tail(ctx, deviceTag);
      |LineEnd(ctx)| < |tail| && tail[|tail| - |LineEnd(ctx)|..] == LineEnd(ctx)
  {
  }

  /** A prefix of `a` and a suffix of `b` are a prefix and a suffix of `a + b`. */
  lemma JoinEnds(a: string, b: string, start: string, end: string)
    requires |start| <= |a| && a[..|start|] == start
    requires |end| <= |b| && b[|b| - |end|..] == end
    ensures |start| <= |a + b| && (a + b)[..|start|] == start
    ensures |end| <= |a + b| && (a + b)[|a + b| - |end|..] == end
  {
    assert (a + b)[..|start|] == a[..|start|];
    assert (a + b)[|a + b| - |end|..] == b[|b| - |end|..];
  }

  /** The namespace tag, present only for a non-empty namespace. */
  function NamespaceTag(namespace: string): string {
    if namespace != "" then " namespace=\"" + namespace + "\"" else ""
  }

  /** A container label: a key and its value. */
  datatype Label = Label(key: string, value: string)

  function LabelTag(l: Label): string {
    " " + l.key + "=\"" + l.value + "\""
  }

  /** One tag per label, in the order the labels are visited. */
  function LabelTags(labels: seq<Label>): string {
    if labels == [] then "" else LabelTags(labels[..|labels| - 1]) + LabelTag(labels[|labels| - 1])
  }

  /** The tags appended to every line of a container. */
  function AppendTags(namespace: string, labels: seq<Label>): string {
    NamespaceTag(namespace) + LabelTags(labels)
  }

  /** Builds the appended tags: the namespace tag, then one tag per label. */
  method BuildAppendTags(namespace: string, labels: seq<Label>) returns (tags: string)
    ensures tags == AppendTags(namespace, labels)
  {
    tags := "";
    if namespace != "" {
      tags := " namespace=\"" + namespace + "\"";
    }
    assert labels[..0] == [];
    for i := 0 to |labels|
      invariant tags == NamespaceTag(namespace) + LabelTags(labels[..i])
    {
      assert labels[..i + 1][..i] == labels[..i];
      tags := tags + LabelTag(labels[i]);
    }
    assert labels[..|labels|] == labels;
  }

  /** Every label appears, as its own tag, inside the label tags. */
  lemma {:induction false} LabelTagOccurs(labels: seq<Label>, j: nat) returns (at: nat)
    requires j < |labels|
    ensures at + |LabelTag(labels[j])| <= |LabelTags(labels)|
    ensures LabelTags(labels)[at..at + |LabelTag(labels[j])|] == LabelTag(labels[j])
  {
    var init := labels[..|labels| - 1];
    if j == |labels| - 1 {
      at := |LabelTags(init)|;
    } else {
      at := LabelTagOccurs(init, j);
      assert init[j] == labels[j];
      var t := LabelTag(labels[j]);
      assert LabelTags(labels)[at..at + |t|] == LabelTags(init)[at..at + |t|];
    }
  }

  /** Splitting a per-device key gives back its device and metric when neither holds the separator. */
  lemma SplitKeyRoundTrip(device: string, metric: string)
    requires Encoder.DEVICE_SEPARATOR !in device && Encoder.DEVICE_SEPARATOR !in metric
    ensures Encoder.DEVICE_SEPARATOR in Encoder.DeviceKey(device, metric)
    ensures SplitKey(Encoder.DeviceKey(device, metric)) == (device, metric)
    ensures MetricName(Encoder.DeviceKey(device, metric)) == metric
    ensures DeviceTag(Encoder.DeviceKey(device, metric)) == " device=\"" + device + "\""
  {
    var sep := Encoder.DEVICE_SEPARATOR;
    Text.SplitAtFirst(device, sep, metric);
    assert Encoder.DeviceKey(device, metric)[|device|] == sep;
  }

  /** How a collector reads the first three space-separated fields of a line. */
  function ParseHead(line: string): (string, string, string) {
    var rest1 := Text.DropThrough(line, ' ');
    var rest2 := Text.DropThrough(rest1, ' ');
    (Text.TakeUntil(line, ' '), Text.TakeUntil(rest1, ' '), Text.TakeUntil(rest2, ' '))
  }

  /**
   A collector reading a line recovers the full metric name, the value and the
   timestamp, provided the prefix and metric name hold no space.
   */
  lemma LineHeadRoundTrip(ctx: LineContext, key: string, value: Encoder.U64)
    requires ' ' !in ctx.prefix + MetricName(key) && ' ' !in ctx.timestamp
    ensures var (name, v, ts) := ParseHead(FormatLine(ctx, key, value));
      && name == ctx.prefix + MetricName(key)
      && (forall i :: 0 <= i < |v| ==> Text.IsDigit(v[i])) && Text.ParseDecimal(v) == value
      && ts == ctx.timestamp
  {
    var v := Text.NatToDecimal(value);
    assert ' ' !in v by {
      forall i | 0 <= i < |v| ensures v[i] != ' ' {
        assert Text.IsDigit(v[i]);
      }
    }
    HeadSplit(ctx.prefix + MetricName(key), v, ctx.timestamp, Tail(ctx, DeviceTag(key)));
    Text.DecimalRoundTrip(value);
  }

  /** The three head fields are read back from any line whose tail starts with a space. */
  lemma HeadSplit(name: string, value: string, timestamp: string, tail: string)
    requires ' ' !in name && ' ' !in value && ' ' !in timestamp
    requires |tail| > 0 && tail[0] == ' '
    ensures ParseHead(Head(name, value, timestamp) + tail) == (name, value, timestamp)
  {
    var rest2 := timestamp + [' '] + tail[1..];
    var rest1 := value + [' '] + rest2;
    assert Head(name, value, timestamp) + tail == name + [' '] + rest1;
    Text.SplitAtFirst(name, ' ', rest1);
    Text.SplitAtFirst(value, ' ', rest2);
    Text.SplitAtFirst(timestamp, ' ', tail[1..]);
  }
}
