/**
 * The text form of a metric batch in the local buffer (`serialize_batch` and
 * `deserialize_batch` of services/cxx-agent/src/ring_buffer.cpp).
 *
 * Text functions take the text that follows (`rest`), so that a printed field
 * stands directly before it.
 */
module BatchCodec {
  import opened Wrappers
  import opened Decimal
  import opened LineText
  import opened Ordering
  import opened Sequences

  datatype Sample<V> = Sample(name: string, value: V, timestampMs: int64, labels: map<string, string>)

  datatype Batch<V> = Batch(
    agentId: string, hostname: string, cluster: string,
    metrics: seq<Sample<V>>,
    batchSeq: int64, originalTimestampMs: int64, isBacklog: bool)

  /**
   * How a sample value is printed to a stream and read back by `std::stod`.
   * `parse` may fail (`stod` throws on a subnormal number), and need not give
   * the printed value back (six significant digits are printed).
   */
  datatype ValueText<!V> = ValueText(render: V -> string, parse: string -> Option<V>)

  ghost predicate OneLine<V(!new)>(vt: ValueText<V>) {
    forall v :: '\n' !in vt.render(v)
  }

  predicate Readable<V>(vt: ValueText<V>, v: V) {
    vt.parse(vt.render(v)).Some?
  }

  predicate SampleReadable<V>(vt: ValueText<V>, m: Sample<V>) {
    Readable(vt, m.value)
  }

  ghost predicate SamplesReadable<V>(vt: ValueText<V>, ms: seq<Sample<V>>) {
    forall m | m in ms :: SampleReadable(vt, m)
  }

  ghost predicate BatchReadable<V>(vt: ValueText<V>, b: Batch<V>) {
    SamplesReadable(vt, b.metrics)
  }

  /** A sample after one trip through the text: its value is replaced by what its rendering denotes. */
  function RereadSample<V>(vt: ValueText<V>, m: Sample<V>): Sample<V>
    requires SampleReadable(vt, m)
  {
    m.(value := vt.parse(vt.render(m.value)).value)
  }

  function RereadSamples<V>(vt: ValueText<V>, ms: seq<Sample<V>>): (r: seq<Sample<V>>)
    requires SamplesReadable(vt, ms)
    ensures |r| == |ms|
  {
    SplitFirst(vt, ms);
    if ms == [] then [] else [RereadSample(vt, ms[0])] + RereadSamples(vt, ms[1..])
  }

  function Reread<V>(vt: ValueText<V>, b: Batch<V>): Batch<V>
    requires BatchReadable(vt, b)
  {
    b.(metrics := RereadSamples(vt, b.metrics))
  }

  /** Sizes are `size_t` values. */
  ghost predicate SamplesSized<V>(ms: seq<Sample<V>>) {
    forall m | m in ms :: |m.labels| < TWO_64
  }

  ghost predicate Sized<V>(b: Batch<V>) {
    |b.metrics| < TWO_64 && SamplesSized(b.metrics)
  }

  const EMPTY_LABELS: map<string, string> := map[]

  // ---------------------------------------------------------------- printing

  ghost function LabelText(labels: map<string, string>, rest: string): string
    decreases |labels|
  {
    if labels == map[] then rest
    else
      var k := FirstKey(labels.Keys);
      assert (labels - {k}).Keys == labels.Keys - {k};
      assert |labels - {k}| < |labels|;
      Line(Escape(k)) + (Line(Escape(labels[k])) + LabelText(labels - {k}, rest))
  }

  ghost function SampleText<V>(vt: ValueText<V>, m: Sample<V>, rest: string): string {
    Line(Escape(m.name)) + (
      Line(vt.render(m.value)) + (
        Line(ShowInt(m.timestampMs)) + (
          Line(Show(|m.labels|)) +
          LabelText(m.labels, rest))))
  }

  ghost function SamplesText<V>(vt: ValueText<V>, ms: seq<Sample<V>>, rest: string): string {
    if ms == [] then rest else SampleText(vt, ms[0], SamplesText(vt, ms[1..], rest))
  }

  ghost function Serialize<V>(vt: ValueText<V>, b: Batch<V>): string {
    Line(Escape(b.agentId)) + (
      Line(Escape(b.hostname)) + (
        Line(Escape(b.cluster)) + (
          Line(ShowInt(b.batchSeq)) + (
            Line(ShowInt(b.originalTimestampMs)) + (
              Line(if b.isBacklog then "1" else "0") + (
                Line(Show(|b.metrics|)) +
                SamplesText(vt, b.metrics, "")))))))
  }

  // ---------------------------------------------------------------- parsing

  function ParseLabels(s: string, n: nat, labels: map<string, string>): Option<(map<string, string>, string)>
    decreases n
  {
    if n == 0 then Some((labels, s))
    else
      var (k, s1) :- GetLine(s);
      var (v, s2) :- GetLine(s1);
      ParseLabels(s2, n - 1, labels[Unescape(k) := Unescape(v)])
  }

  function ParseSample<V>(vt: ValueText<V>, s: string): Option<(Sample<V>, string)> {
    var (name, s1) :- GetLine(s);
    var (valueText, s2) :- GetLine(s1);
    var value :- vt.parse(valueText);
    var (tsText, s3) :- GetLine(s2);
    var ts :- StoLL(tsText);
    var (countText, s4) :- GetLine(s3);
    var count :- StoUL(countText);
    var (labels, s5) :- ParseLabels(s4, count, map[]);
    Some((Sample(Unescape(name), value, ts, labels), s5))
  }

  /** Complete samples are appended to the target one by one, also when a later one fails. */
  function ParseSamples<V>(vt: ValueText<V>, s: string, n: nat, before: seq<Sample<V>>): (bool, seq<Sample<V>>)
    decreases n
  {
    if n == 0 then (true, before)
    else
      match ParseSample(vt, s)
      case None => (false, before)
      case Some((m, s1)) => ParseSamples(vt, s1, n - 1, before + [m])
  }

  function ParseCounts<V>(vt: ValueText<V>, s: string, b: Batch<V>): (bool, Batch<V>) {
    match GetLine(s)
    case None => (false, b)
    case Some((backlogText, s1)) =>
      var b1 := b.(isBacklog := backlogText == "1");
      match GetLine(s1)
      case None => (false, b1)
      case Some((countText, s2)) =>
        match StoUL(countText)
        case None => (false, b1)
        case Some(count) =>
          var (ok, ms) := ParseSamples(vt, s2, count, b1.metrics);
          (ok, b1.(metrics := ms))
  }

  function ParseNumbers<V>(vt: ValueText<V>, s: string, b: Batch<V>): (bool, Batch<V>) {
    match GetLine(s)
    case None => (false, b)
    case Some((seqText, s1)) =>
      match StoLL(seqText)
      case None => (false, b)
      case Some(batchSeq) =>
        var b1 := b.(batchSeq := batchSeq);
        match GetLine(s1)
        case None => (false, b1)
        case Some((tsText, s2)) =>
          match StoLL(tsText)
          case None => (false, b1)
          case Some(ts) => ParseCounts(vt, s2, b1.(originalTimestampMs := ts))
  }

  /**
   * Reads a batch into `target`. The scalar fields are overwritten; samples are
   * appended to those `target` already has. The flag is the C++ result; when it
   * is false the target keeps what was read before the failure.
   */
  function Deserialize<V>(vt: ValueText<V>, s: string, target: Batch<V>): (bool, Batch<V>) {
    match GetLine(s)
    case None => (false, target)
    case Some((agentId, s1)) =>
      var b1 := target.(agentId := Unescape(agentId));
      match GetLine(s1)
      case None => (false, b1)
      case Some((hostname, s2)) =>
        var b2 := b1.(hostname := Unescape(hostname));
        match GetLine(s2)
        case None => (false, b2)
        case Some((cluster, s3)) => ParseNumbers(vt, s3, b2.(cluster := Unescape(cluster)))
  }

  // ------------------------------------------------------------- any text

  /** The counts after the five leading lines, for any text. */
  lemma CountsByLines<V>(vt: ValueText<V>, s: string, b: Batch<V>)
    ensures var ls, r := LinesOf(s), ParseCounts(vt, s, b);
            && r.1 == b.(isBacklog := if |ls| >= 1 then ls[0] == "1" else b.isBacklog, metrics := r.1.metrics)
            && b.metrics <= r.1.metrics
            && (r.0 ==> |ls| >= 2 && StoUL(ls[1]).Some? && |r.1.metrics| == |b.metrics| + StoUL(ls[1]).value)
  {
    hide StoUL, GetLine, ParseSample;
    NextLine(s);
    if GetLine(s).Some? {
      var s1 := GetLine(s).value.1;
      NextLine(s1);
      if GetLine(s1).Some? && StoUL(GetLine(s1).value.0).Some? {
        SamplesGrow(vt, GetLine(s1).value.1, StoUL(GetLine(s1).value.0).value, b.metrics);
      }
    }
    hide LinesOf, ParseSamples;
  }

  lemma {:induction false} SamplesGrow<V>(vt: ValueText<V>, s: string, n: nat, before: seq<Sample<V>>)
    ensures var (ok, ms) := ParseSamples(vt, s, n, before);
            before <= ms && |ms| <= |before| + n && (ok <==> |ms| == |before| + n)
    decreases n
  {
    hide ParseSample;
    if n > 0 && ParseSample(vt, s).Some? {
      var (m, s1) := ParseSample(vt, s).value;
      SamplesGrow(vt, s1, n - 1, before + [m]);
    }
  }

  lemma NumbersByLines<V>(vt: ValueText<V>, s: string, b: Batch<V>)
    ensures var ls, r := LinesOf(s), ParseNumbers(vt, s, b);
            var first := |ls| >= 1 && StoLL(ls[0]).Some?;
            var second := first && |ls| >= 2 && StoLL(ls[1]).Some?;
            && r.1 == b.(batchSeq := if first then StoLL(ls[0]).value else b.batchSeq,
                         originalTimestampMs := if second then StoLL(ls[1]).value else b.originalTimestampMs,
                         isBacklog := if second && |ls| >= 3 then ls[2] == "1" else b.isBacklog,
                         metrics := r.1.metrics)
            && b.metrics <= r.1.metrics
            && (r.0 ==> second && |ls| >= 4 && StoUL(ls[3]).Some? &&
                        |r.1.metrics| == |b.metrics| + StoUL(ls[3]).value)
  {
    hide StoLL, StoUL, GetLine, ParseCounts;
    NextLine(s);
    if GetLine(s).Some? && StoLL(GetLine(s).value.0).Some? {
      var s1 := GetLine(s).value.1;
      NextLine(s1);
      if GetLine(s1).Some? && StoLL(GetLine(s1).value.0).Some? {
        CountsByLines(vt, GetLine(s1).value.1,
                      b.(batchSeq := StoLL(GetLine(s).value.0).value,
                         originalTimestampMs := StoLL(GetLine(s1).value.0).value));
      }
    }
    hide LinesOf;
  }

  /**
   * What reading any text leaves in the target, line by line: each field is that
   * of its own line, as far as the lines before it were there and readable; the
   * result is true only when the seventh line is a count and that many samples
   * were appended.
   */
  lemma FieldsByLines<V>(vt: ValueText<V>, s: string, target: Batch<V>)
    ensures var ls, r := LinesOf(s), Deserialize(vt, s, target);
            var fourth := |ls| >= 4 && StoLL(ls[3]).Some?;
            var fifth := fourth && |ls| >= 5 && StoLL(ls[4]).Some?;
            && r.1 == Batch(if |ls| >= 1 then Unescape(ls[0]) else target.agentId,
                            if |ls| >= 2 then Unescape(ls[1]) else target.hostname,
                            if |ls| >= 3 then Unescape(ls[2]) else target.cluster,
                            r.1.metrics,
                            if fourth then StoLL(ls[3]).value else target.batchSeq,
                            if fifth then StoLL(ls[4]).value else target.originalTimestampMs,
                            if fifth && |ls| >= 6 then ls[5] == "1" else target.isBacklog)
            && target.metrics <= r.1.metrics
            && (r.0 ==> fifth && |ls| >= 7 && StoUL(ls[6]).Some? &&
                        |r.1.metrics| == |target.metrics| + StoUL(ls[6]).value)
  {
    hide StoLL, StoUL, GetLine, ParseNumbers, Unescape;
    NextLine(s);
    if GetLine(s).Some? {
      var (agentId, s1) := GetLine(s).value;
      NextLine(s1);
      if GetLine(s1).Some? {
        var (hostname, s2) := GetLine(s1).value;
        NextLine(s2);
        if GetLine(s2).Some? {
          var (cluster, s3) := GetLine(s2).value;
          NumbersByLines(vt, s3, target.(agentId := Unescape(agentId), hostname := Unescape(hostname),
                                         cluster := Unescape(cluster)));
        }
      }
    }
    hide LinesOf;
  }

  /** Pairs of lines as a map; of two pairs with one key the later one counts. */
  function LabelsOf(lines: seq<string>): map<string, string> {
    if |lines| < 2 then map[]
    else LabelsOf(lines[..|lines| - 2])[Unescape(lines[|lines| - 2]) := Unescape(lines[|lines| - 1])]
  }
  lemma {:induction false} LabelsFirst(a: string, b: string, rest: seq<string>)
    requires |rest| % 2 == 0
    ensures LabelsOf([a, b] + rest) == map[Unescape(a) := Unescape(b)] + LabelsOf(rest)
    decreases |rest|
  {
    hide Unescape;
    var all := [a, b] + rest;
    if rest == [] {
      assert all[..|all| - 2] == [] && all[|all| - 2] == a && all[|all| - 1] == b;
    } else {
      var cut := rest[..|rest| - 2];
      assert all[..|all| - 2] == [a, b] + cut;
      LabelsFirst(a, b, cut);
    }
  }

  /** Labels are read when two lines are left for each; they are those pairs. */
  lemma {:induction false} LabelsByLines(s: string, n: nat, before: map<string, string>)
    ensures var ls, r := LinesOf(s), ParseLabels(s, n, before);
            && (r.Some? <==> |ls| >= 2 * n)
            && (r.Some? ==> r.value.0 == before + LabelsOf(ls[..2 * n]) && LinesOf(r.value.1) == ls[2 * n..])
    decreases n
  {
    hide GetLine, Unescape;
    if n == 0 {
      assert before + map[] == before;
    } else {
      NextLine(s);
      if GetLine(s).Some? {
        var (k, s1) := GetLine(s).value;
        NextLine(s1);
        if GetLine(s1).Some? {
          var (v, s2) := GetLine(s1).value;
          LabelsByLines(s2, n - 1, before[Unescape(k) := Unescape(v)]);
          hide LinesOf, LabelsOf, ParseLabels;
          PairFirst(LinesOf(s), LinesOf(s2), k, v, n, before);
        }
      }
    }
  }

  lemma PairFirst(ls: seq<string>, rest: seq<string>, k: string, v: string, n: nat, before: map<string, string>)
    requires n > 0 && |ls| >= 2 && ls[0] == k && ls[1] == v && ls[2..] == rest
    ensures |ls| >= 2 * n <==> |rest| >= 2 * (n - 1)
    ensures |ls| >= 2 * n ==>
              && ls[2 * n..] == rest[2 * (n - 1)..]
              && before + LabelsOf(ls[..2 * n]) == before[Unescape(k) := Unescape(v)] + LabelsOf(rest[..2 * (n - 1)])
  {
    hide LabelsOf, Unescape;
    if |ls| >= 2 * n {
      assert ls[..2 * n] == [k, v] + rest[..2 * (n - 1)];
      LabelsFirst(k, v, rest[..2 * (n - 1)]);
    }
  }

  /**
   * A sample is read from its own lines: name, value, time, number of labels,
   * then two lines a label; it fails exactly when one of them is missing or does
   * not read.
   */
  lemma SampleByLines<V>(vt: ValueText<V>, s: string)
    ensures var ls, r := LinesOf(s), ParseSample(vt, s);
            var numbers := |ls| >= 4 && vt.parse(ls[1]).Some? && StoLL(ls[2]).Some? && StoUL(ls[3]).Some?;
            && (r.Some? <==> numbers && |ls| >= 4 + 2 * StoUL(ls[3]).value)
            && (r.Some? ==>
                  var n := StoUL(ls[3]).value;
                  && r.value.0 == Sample(Unescape(ls[0]), vt.parse(ls[1]).value, StoLL(ls[2]).value,
                                         LabelsOf(ls[4..4 + 2 * n]))
                  && LinesOf(r.value.1) == ls[4 + 2 * n..])
  {
    hide StoLL, StoUL, GetLine, Unescape, ParseLabels, LabelsOf, LinesOf;
    var ls := LinesOf(s);
    NextLine(s);
    if |ls| >= 4 {
      var s1 := GetLine(s).value.1;
      NextLine(s1);
      var s2 := GetLine(s1).value.1;
      NextLine(s2);
      var s3 := GetLine(s2).value.1;
      NextLine(s3);
      var s4 := GetLine(s3).value.1;
      assert LinesOf(s4) == ls[4..];
      if StoUL(ls[3]).Some? {
        var n := StoUL(ls[3]).value;
        LabelsByLines(s4, n, map[]);
        LabelLines(ls, n);
      }
    } else {
      TooFewLines(vt, s);
    }
  }

  lemma LabelLines(ls: seq<string>, n: nat)
    requires |ls| >= 4
    ensures |ls| >= 4 + 2 * n ==> ls[4..][..2 * n] == ls[4..4 + 2 * n] && ls[4..][2 * n..] == ls[4 + 2 * n..]
    ensures |ls| >= 4 + 2 * n ==> map[] + LabelsOf(ls[4..4 + 2 * n]) == LabelsOf(ls[4..4 + 2 * n])
  {
    hide LabelsOf;
  }

  lemma TooFewLines<V>(vt: ValueText<V>, s: string)
    requires |LinesOf(s)| < 4
    ensures ParseSample(vt, s).None?
  {
    hide StoLL, StoUL, GetLine, Unescape, ParseLabels, LinesOf;
    NextLine(s);
    if GetLine(s).Some? {
      var s1 := GetLine(s).value.1;
      NextLine(s1);
      if GetLine(s1).Some? {
        var s2 := GetLine(s1).value.1;
        NextLine(s2);
        if GetLine(s2).Some? {
          NextLine(GetLine(s2).value.1);
        }
      }
    }
  }

  // ------------------------------------------------------------- round trip

  lemma GetEscapedLine(field: string, rest: string)
    ensures GetLine(Line(Escape(field)) + rest) == Some((Escape(field), rest))
    ensures Unescape(Escape(field)) == field
  {
    EscapeHasNoLineBreak(field);
    GetLineOfLine(Escape(field), rest);
    UnescapeEscape(field);
  }

  lemma ParseOneLabel(k: string, v: string, n: nat, rest: string, before: map<string, string>)
    ensures ParseLabels(Line(Escape(k)) + (Line(Escape(v)) + rest), n + 1, before) ==
            ParseLabels(rest, n, before[k := v])
  {
    GetEscapedLine(k, Line(Escape(v)) + rest);
    GetEscapedLine(v, rest);
  }

  lemma RemoveLabel(labels: map<string, string>, k: string)
    requires k in labels
    ensures |labels - {k}| == |labels| - 1
  {
    assert (labels - {k}).Keys == labels.Keys - {k};
  }

  lemma AddLabelFirst(labels: map<string, string>, k: string, before: map<string, string>)
    requires k in labels
    ensures before[k := labels[k]] + (labels - {k}) == before + labels
  {
    var left, right := before[k := labels[k]] + (labels - {k}), before + labels;
    assert left.Keys == right.Keys;
    assert forall x | x in right.Keys :: left[x] == right[x];
  }

  /** Printing all labels and reading them back, seen from the first key. */
  lemma FirstLabel(labels: map<string, string>, k: string, rest: string, before: map<string, string>)
    requires labels != map[] && k == FirstKey(labels.Keys)
    ensures k in labels && |labels - {k}| == |labels| - 1
    ensures ParseLabels(LabelText(labels, rest), |labels|, before) ==
            ParseLabels(LabelText(labels - {k}, rest), |labels| - 1, before[k := labels[k]])
  {
    hide Line, Escape, Unescape, GetLine, IsFirst;
    RemoveLabel(labels, k);
    ParseOneLabel(k, labels[k], |labels| - 1, LabelText(labels - {k}, rest), before);
  }

  lemma {:induction false} ParseLabelText(labels: map<string, string>, rest: string, before: map<string, string>)
    ensures ParseLabels(LabelText(labels, rest), |labels|, before) == Some((before + labels, rest))
    decreases |labels|
  {
    hide IsFirst;
    if labels == map[] {
      assert before + labels == before;
    } else {
      hide ParseLabels, LabelText;
      var k := FirstKey(labels.Keys);
      FirstLabel(labels, k, rest, before);
      ParseLabelText(labels - {k}, rest, before[k := labels[k]]);
      AddLabelFirst(labels, k, before);
    }
  }

  lemma ParseSampleText<V(!new)>(vt: ValueText<V>, m: Sample<V>, rest: string)
    requires OneLine(vt) && |m.labels| < TWO_64
    ensures ParseSample(vt, SampleText(vt, m, rest)) ==
            if SampleReadable(vt, m) then Some((RereadSample(vt, m), rest)) else None
  {
    var t4 := LabelText(m.labels, rest);
    var t3 := Line(Show(|m.labels|)) + t4;
    var t2 := Line(ShowInt(m.timestampMs)) + t3;
    GetEscapedLine(m.name, Line(vt.render(m.value)) + t2);
    GetLineOfLine(vt.render(m.value), t2);
    GetLineOfLine(ShowInt(m.timestampMs), t3);
    StoLLOfShow(m.timestampMs);
    GetLineOfLine(Show(|m.labels|), t4);
    StoULOfShow(|m.labels|);
    ParseLabelText(m.labels, rest, map[]);
    assert EMPTY_LABELS + m.labels == m.labels;
  }

  lemma FirstSample<V(!new)>(vt: ValueText<V>, ms: seq<Sample<V>>, before: seq<Sample<V>>)
    requires OneLine(vt) && ms != [] && |ms[0].labels| < TWO_64
    ensures ParseSamples(vt, SamplesText(vt, ms, ""), |ms|, before) ==
            if SampleReadable(vt, ms[0])
            then ParseSamples(vt, SamplesText(vt, ms[1..], ""), |ms| - 1, before + [RereadSample(vt, ms[0])])
            else (false, before)
  {
    hide SampleText, ParseSample, SampleReadable, RereadSample;
    ParseSampleText(vt, ms[0], SamplesText(vt, ms[1..], ""));
  }

  lemma SplitFirst<V>(vt: ValueText<V>, ms: seq<Sample<V>>)
    ensures ms != [] ==>
            (SamplesReadable(vt, ms) <==> SampleReadable(vt, ms[0]) && SamplesReadable(vt, ms[1..]))
    ensures ms != [] ==> (SamplesSized(ms) <==> |ms[0].labels| < TWO_64 && SamplesSized(ms[1..]))
  {
    if ms != [] {
      assert forall m :: m in ms <==> m == ms[0] || m in ms[1..];
    }
  }

  lemma NoSamples<V>(vt: ValueText<V>, before: seq<Sample<V>>)
    ensures SamplesReadable(vt, []) && SamplesSized<V>([])
    ensures before + RereadSamples(vt, []) == before
  {}

  lemma RereadFirst<V>(vt: ValueText<V>, ms: seq<Sample<V>>, before: seq<Sample<V>>)
    requires ms != [] && SamplesReadable(vt, ms)
    ensures SampleReadable(vt, ms[0]) && SamplesReadable(vt, ms[1..])
    ensures before + [RereadSample(vt, ms[0])] + RereadSamples(vt, ms[1..]) == before + RereadSamples(vt, ms)
  {
    hide RereadSample, SamplesReadable, SampleReadable;
    SplitFirst(vt, ms);
    Associative(before, [RereadSample(vt, ms[0])], RereadSamples(vt, ms[1..]));
  }

  lemma {:induction false} ParseSamplesText<V(!new)>(vt: ValueText<V>, ms: seq<Sample<V>>, before: seq<Sample<V>>)
    requires OneLine(vt) && SamplesSized(ms)
    ensures var r := ParseSamples(vt, SamplesText(vt, ms, ""), |ms|, before);
            && (r.0 <==> SamplesReadable(vt, ms))
            && (r.0 ==> r.1 == before + RereadSamples(vt, ms))
  {
    hide SamplesReadable, SamplesSized, SampleReadable, RereadSample;
    if ms == [] {
      NoSamples(vt, before);
    } else {
      hide ParseSamples, SamplesText, RereadSamples;
      SplitFirst(vt, ms);
      FirstSample(vt, ms, before);
      if SampleReadable(vt, ms[0]) {
        ParseSamplesText(vt, ms[1..], before + [RereadSample(vt, ms[0])]);
        if SamplesReadable(vt, ms) {
          RereadFirst(vt, ms, before);
        }
      }
    }
  }

  lemma ParseCountsText<V(!new)>(vt: ValueText<V>, b: Batch<V>, t: Batch<V>, text: string)
    requires |b.metrics| < TWO_64
    ensures ParseCounts(vt, Line(if b.isBacklog then "1" else "0") + (Line(Show(|b.metrics|)) + text), t) ==
            var r := ParseSamples(vt, text, |b.metrics|, t.metrics);
            (r.0, t.(isBacklog := b.isBacklog, metrics := r.1))
  {
    GetLineOfLine(if b.isBacklog then "1" else "0", Line(Show(|b.metrics|)) + text);
    GetLineOfLine(Show(|b.metrics|), text);
    StoULOfShow(|b.metrics|);
  }

  lemma ParseNumbersText<V(!new)>(vt: ValueText<V>, b: Batch<V>, t: Batch<V>, text: string)
    ensures ParseNumbers(vt, Line(ShowInt(b.batchSeq)) + (Line(ShowInt(b.originalTimestampMs)) + text), t) ==
            ParseCounts(vt, text, t.(batchSeq := b.batchSeq, originalTimestampMs := b.originalTimestampMs))
  {
    GetLineOfLine(ShowInt(b.batchSeq), Line(ShowInt(b.originalTimestampMs)) + text);
    StoLLOfShow(b.batchSeq);
    GetLineOfLine(ShowInt(b.originalTimestampMs), text);
    StoLLOfShow(b.originalTimestampMs);
  }

  lemma ParseNamesText<V(!new)>(vt: ValueText<V>, b: Batch<V>, t: Batch<V>, text: string)
    ensures Deserialize(vt, Line(Escape(b.agentId)) + (Line(Escape(b.hostname)) + (Line(Escape(b.cluster)) + text)), t)
         == ParseNumbers(vt, text, t.(agentId := b.agentId, hostname := b.hostname, cluster := b.cluster))
  {
    GetEscapedLine(b.agentId, Line(Escape(b.hostname)) + (Line(Escape(b.cluster)) + text));
    GetEscapedLine(b.hostname, Line(Escape(b.cluster)) + text);
    GetEscapedLine(b.cluster, text);
  }

  /**
   * Reading back a printed batch succeeds exactly when each of its values reads
   * back, and then gives every field, with the samples appended to the target's.
   */
  lemma RoundTrip<V(!new)>(vt: ValueText<V>, b: Batch<V>, target: Batch<V>)
    requires OneLine(vt) && Sized(b)
    ensures var r := Deserialize(vt, Serialize(vt, b), target);
            && (r.0 <==> BatchReadable(vt, b))
            && (r.0 ==> r.1 == Reread(vt, b).(metrics := target.metrics + Reread(vt, b).metrics))
  {
    var samples := SamplesText(vt, b.metrics, "");
    var counts := Line(if b.isBacklog then "1" else "0") + (Line(Show(|b.metrics|)) + samples);
    var numbers := Line(ShowInt(b.batchSeq)) + (Line(ShowInt(b.originalTimestampMs)) + counts);
    var t1 := target.(agentId := b.agentId, hostname := b.hostname, cluster := b.cluster);
    var t2 := t1.(batchSeq := b.batchSeq, originalTimestampMs := b.originalTimestampMs);
    ParseNamesText(vt, b, target, numbers);
    ParseNumbersText(vt, b, t1, counts);
    ParseCountsText(vt, b, t2, samples);
    ParseSamplesText(vt, b.metrics, target.metrics);
  }

  /** The batch itself comes back exactly when the caller's batch had no samples yet. */
  lemma RoundTripExact<V(!new)>(vt: ValueText<V>, b: Batch<V>, target: Batch<V>)
    requires OneLine(vt) && Sized(b) && BatchReadable(vt, b)
    ensures Deserialize(vt, Serialize(vt, b), target) == (true, Reread(vt, b)) <==> target.metrics == []
  {
    RoundTrip(vt, b, target);
    var ms := Reread(vt, b).metrics;
    if target.metrics == [] {
      assert target.metrics + ms == ms;
    } else {
      assert |target.metrics + ms| != |ms|;
    }
  }

  // ---------------------------------------------------------------- methods

  lemma LabelTextFirst(oss: string, labels: map<string, string>, k: string, rest: string)
    requires IsFirst(k, labels.Keys)
    ensures oss + LabelText(labels, rest) ==
            oss + Line(Escape(k)) + Line(Escape(labels[k])) + LabelText(labels - {k}, rest)
    ensures |labels - {k}| == |labels| - 1
  {
    FirstUnique(k, FirstKey(labels.Keys), labels.Keys);
    hide Line, Escape, IsFirst;
    RemoveLabel(labels, k);
    var tail := LabelText(labels - {k}, rest);
    Associative(oss, Line(Escape(k)), Line(Escape(labels[k])) + tail);
    Associative(oss + Line(Escape(k)), Line(Escape(labels[k])), tail);
  }

  /** Prints the labels in key order, each key and value on a line of its own. */
  method WriteLabels(before: string, labels: map<string, string>, ghost rest: string) returns (oss: string)
    ensures oss + rest == before + LabelText(labels, rest)
  {
    hide Line, Escape, IsFirst;
    oss := before;
    var todo := labels;
    while todo != map[]
      invariant oss + LabelText(todo, rest) == before + LabelText(labels, rest)
      decreases |todo|
    {
      FirstExists(todo.Keys);
      var k :| k in todo && IsFirst(k, todo.Keys);
      LabelTextFirst(oss, todo, k, rest);
      var key := EscapeString(k);
      var value := EscapeString(todo[k]);
      oss := oss + Line(key) + Line(value);
      todo := todo - {k};
    }
  }

  method WriteSample<V>(vt: ValueText<V>, before: string, m: Sample<V>, ghost rest: string) returns (oss: string)
    ensures oss + rest == before + SampleText(vt, m, rest)
  {
    hide Line, Escape, LabelText;
    var name := EscapeString(m.name);
    oss := before + Line(name);
    ghost var t3 := Line(Show(|m.labels|)) + LabelText(m.labels, rest);
    ghost var t2 := Line(ShowInt(m.timestampMs)) + t3;
    Associative(before, Line(name), Line(vt.render(m.value)) + t2);
    Associative(oss, Line(vt.render(m.value)), t2);
    oss := oss + Line(vt.render(m.value));
    Associative(oss, Line(ShowInt(m.timestampMs)), t3);
    oss := oss + Line(ShowInt(m.timestampMs));
    Associative(oss, Line(Show(|m.labels|)), LabelText(m.labels, rest));
    oss := oss + Line(Show(|m.labels|));
    oss := WriteLabels(oss, m.labels, rest);
  }

  lemma SamplesTextStep<V>(vt: ValueText<V>, ms: seq<Sample<V>>, i: nat)
    requires i < |ms|
    ensures SamplesText(vt, ms[i..], "") == SampleText(vt, ms[i], SamplesText(vt, ms[i + 1..], ""))
  {
    hide SampleText;
    assert ms[i..][1..] == ms[i + 1..];
  }

  method SerializeBatch<V>(vt: ValueText<V>, b: Batch<V>) returns (out: string)
    ensures out == Serialize(vt, b)
  {
    hide Line, Escape, Show, ShowInt, SampleText;
    ghost var t6 := Line(Show(|b.metrics|)) + SamplesText(vt, b.metrics, "");
    ghost var t5 := Line(if b.isBacklog then "1" else "0") + t6;
    ghost var t4 := Line(ShowInt(b.originalTimestampMs)) + t5;
    ghost var t3 := Line(ShowInt(b.batchSeq)) + t4;
    ghost var t2 := Line(Escape(b.cluster)) + t3;
    ghost var t1 := Line(Escape(b.hostname)) + t2;
    var field := EscapeString(b.agentId);
    var oss := Line(field);
    Associative(oss, Line(Escape(b.hostname)), t2);
    field := EscapeString(b.hostname);
    oss := oss + Line(field);
    Associative(oss, Line(Escape(b.cluster)), t3);
    field := EscapeString(b.cluster);
    oss := oss + Line(field);
    Associative(oss, Line(ShowInt(b.batchSeq)), t4);
    oss := oss + Line(ShowInt(b.batchSeq));
    Associative(oss, Line(ShowInt(b.originalTimestampMs)), t5);
    oss := oss + Line(ShowInt(b.originalTimestampMs));
    Associative(oss, Line(if b.isBacklog then "1" else "0"), t6);
    oss := oss + Line(if b.isBacklog then "1" else "0");
    Associative(oss, Line(Show(|b.metrics|)), SamplesText(vt, b.metrics, ""));
    oss := oss + Line(Show(|b.metrics|));
    out := WriteSamples(vt, oss, b.metrics);
  }

  method WriteSamples<V>(vt: ValueText<V>, before: string, ms: seq<Sample<V>>) returns (oss: string)
    ensures oss == before + SamplesText(vt, ms, "")
  {
    hide SampleText;
    oss := before;
    assert ms[0..] == ms;
    for i := 0 to |ms|
      invariant oss + SamplesText(vt, ms[i..], "") == before + SamplesText(vt, ms, "")
    {
      SamplesTextStep(vt, ms, i);
      oss := WriteSample(vt, oss, ms[i], SamplesText(vt, ms[i + 1..], ""));
    }
    assert oss + "" == oss;
  }

  method ReadLabels(s: string, n: nat) returns (r: Option<(map<string, string>, string)>)
    ensures r == ParseLabels(s, n, map[])
  {
    hide GetLine, Unescape;
    var labels: map<string, string>, iss := map[], s;
    for j := 0 to n
      invariant ParseLabels(s, n, map[]) == ParseLabels(iss, n - j, labels)
    {
      var kLine := GetLine(iss);
      if kLine.None? { return None; }
      var vLine := GetLine(kLine.value.1);
      if vLine.None? { return None; }
      var k := UnescapeString(kLine.value.0);
      var v := UnescapeString(vLine.value.0);
      labels := labels[k := v];
      iss := vLine.value.1;
    }
    r := Some((labels, iss));
  }

  method ReadSample<V>(vt: ValueText<V>, s: string) returns (r: Option<(Sample<V>, string)>)
    ensures r == ParseSample(vt, s)
  {
    hide GetLine, Unescape, StoLL, StoUL, ParseLabels;
    var line := GetLine(s);
    if line.None? { return None; }
    var name := UnescapeString(line.value.0);
    line := GetLine(line.value.1);
    if line.None? { return None; }
    var value := vt.parse(line.value.0);
    if value.None? { return None; }
    line := GetLine(line.value.1);
    if line.None? { return None; }
    var ts := StoLL(line.value.0);
    if ts.None? { return None; }
    line := GetLine(line.value.1);
    if line.None? { return None; }
    var count := StoUL(line.value.0);
    if count.None? { return None; }
    var labels := ReadLabels(line.value.1, count.value);
    if labels.None? { return None; }
    r := Some((Sample(name, value.value, ts.value, labels.value.0), labels.value.1));
  }

  method ReadSamples<V>(vt: ValueText<V>, s: string, n: nat, before: seq<Sample<V>>)
    returns (ok: bool, ms: seq<Sample<V>>)
    ensures (ok, ms) == ParseSamples(vt, s, n, before)
  {
    hide ParseSample;
    var iss := s;
    ms := before;
    for i := 0 to n
      invariant ParseSamples(vt, s, n, before) == ParseSamples(vt, iss, n - i, ms)
    {
      var sample := ReadSample(vt, iss);
      if sample.None? { return false, ms; }
      ms := ms + [sample.value.0];
      iss := sample.value.1;
    }
    ok := true;
  }

  /** Fills the caller's batch field by field; an early return leaves it partly filled. */
  method DeserializeBatch<V>(vt: ValueText<V>, data: string, target: Batch<V>) returns (ok: bool, batch: Batch<V>)
    ensures (ok, batch) == Deserialize(vt, data, target)
  {
    hide GetLine, Unescape, StoLL, StoUL, ParseSamples;
    batch := target;
    var line := GetLine(data);
    if line.None? { return false, batch; }
    var text := UnescapeString(line.value.0);
    batch := batch.(agentId := text);
    line := GetLine(line.value.1);
    if line.None? { return false, batch; }
    text := UnescapeString(line.value.0);
    batch := batch.(hostname := text);
    line := GetLine(line.value.1);
    if line.None? { return false, batch; }
    text := UnescapeString(line.value.0);
    batch := batch.(cluster := text);
    line := GetLine(line.value.1);
    if line.None? { return false, batch; }
    var batchSeq := StoLL(line.value.0);
    if batchSeq.None? { return false, batch; }
    batch := batch.(batchSeq := batchSeq.value);
    line := GetLine(line.value.1);
    if line.None? { return false, batch; }
    var ts := StoLL(line.value.0);
    if ts.None? { return false, batch; }
    batch := batch.(originalTimestampMs := ts.value);
    line := GetLine(line.value.1);
    if line.None? { return false, batch; }
    batch := batch.(isBacklog := line.value.0 == "1");
    line := GetLine(line.value.1);
    if line.None? { return false, batch; }
    var count := StoUL(line.value.0);
    if count.None? { return false, batch; }
    var metrics;
    ok, metrics := ReadSamples(vt, line.value.1, count.value, batch.metrics);
    batch := batch.(metrics := metrics);
  }
}
