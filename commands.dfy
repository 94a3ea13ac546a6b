/**
 * The SCPI commands the scripts write: segment uploads (`data:arb`),
 * sequence uploads (`data:seq`) and fixed settings; how each is rendered as
 * text, and how an instrument reads an upload back out of that text.
 */
module Commands {
  import opened Wrappers
  import opened Decimal
  import opened Fields
  import opened Block
  import opened Sequence

  // Segment uploads.

  /** Each sample formatted to three decimals, as `format(x, '.3f')` does. */
  function ValueStrings(samples: seq<int>): (r: seq<string>)
    ensures |r| == |samples|
    ensures forall i :: 0 <= i < |r| ==> r[i] == FormatMilli(samples[i])
  {
    if samples == [] then [] else ValueStrings(samples[..|samples| - 1]) + [FormatMilli(samples[|samples| - 1])]
  }

  /** `source + 'data:arb ' + name + ',' + ','.join(values)`. */
  function ArbCommand(source: string, name: string, samples: seq<int>): string
  {
    source + "data:arb " + name + "," + Join(ValueStrings(samples), ',')
  }

  datatype Upload = Upload(name: string, samples: seq<int>)

  function ParseValues(fs: seq<string>): Option<seq<int>>
  {
    if fs == [] then Some([])
    else
      match (ParseValues(fs[..|fs| - 1]), ParseMilli(fs[|fs| - 1]))
      case (Some(vs), Some(v)) => Some(vs + [v])
      case _ => None
  }

  /** How an instrument reads a segment upload of the given source back. */
  function ParseArb(cmd: string, source: string): Option<Upload>
  {
    match StripPrefix(cmd, source + "data:arb ")
    case None => None
    case Some(rest) => ParseArbFields(Split(rest, ','))
  }

  /** The segment name, then its values; a bare name followed by a comma has no samples. */
  function ParseArbFields(fs: seq<string>): Option<Upload>
  {
    if |fs| < 2 then None
    else if fs[1..] == [""] then Some(Upload(fs[0], []))
    else
      match ParseValues(fs[1..])
      case Some(vs) => Some(Upload(fs[0], vs))
      case None => None
  }

  lemma ValueStringsCommaFree(samples: seq<int>)
    ensures forall i :: 0 <= i < |samples| ==> ',' !in ValueStrings(samples)[i]
  {
  }

  lemma ParseValueStrings(samples: seq<int>)
    ensures ParseValues(ValueStrings(samples)) == Some(samples)
  {
    var vs := ValueStrings(samples);
    forall i | 0 <= i < |vs|
      ensures ParseMilli(vs[i]) == Some(samples[i])
    {
      MilliRoundTrip(samples[i]);
    }
    ParseEach(vs, samples);
  }

  /** Fields that each read as one value read, together, as those values in order. */
  lemma {:induction false} ParseEach(fs: seq<string>, values: seq<int>)
    requires |fs| == |values|
    requires forall i :: 0 <= i < |fs| ==> ParseMilli(fs[i]) == Some(values[i])
    ensures ParseValues(fs) == Some(values)
  {
    if fs != [] {
      var n := |fs| - 1;
      ParseEach(fs[..n], values[..n]);
      assert values[..n] + [values[n]] == values;
    }
  }

  /**
   * After `data:arb <name>,` come n values joined with exactly n - 1 commas;
   * with no values the command ends at the comma.
   */
  lemma ArbValues(source: string, name: string, samples: seq<int>)
    ensures multiset(Join(ValueStrings(samples), ','))[','] == if samples == [] then 0 else |samples| - 1
    ensures samples == [] <==> ArbCommand(source, name, samples) == source + "data:arb " + name + ","
  {
    ValueStringsCommaFree(samples);
    JoinSeparatorCount(ValueStrings(samples), ',');
    if samples != [] {
      var v := Join(ValueStrings(samples), ',');
      if |samples| == 1 {
        assert v == FormatMilli(samples[0]);
      }
      assert |v| > 0;
    }
  }

  /** An instrument reads back exactly the segment name and the samples that were uploaded. */
  lemma ArbRoundTrip(source: string, name: string, samples: seq<int>)
    requires ',' !in name
    ensures ParseArb(ArbCommand(source, name, samples), source) == Some(Upload(name, samples))
  {
    var v := Join(ValueStrings(samples), ',');
    assert ArbCommand(source, name, samples) == (source + "data:arb ") + (name + [','] + v);
    StripPrefixAppend(source + "data:arb ", name + [','] + v);
    ArbFieldsRoundTrip(name, samples);
  }

  /** What follows `data:arb ` splits into the name and the value strings, and parses back. */
  lemma ArbFieldsRoundTrip(name: string, samples: seq<int>)
    requires ',' !in name
    ensures ParseArbFields(Split(name + [','] + Join(ValueStrings(samples), ','), ',')) == Some(Upload(name, samples))
  {
    var vs := ValueStrings(samples);
    var v := Join(vs, ',');
    SplitAppend(name, v, ',');
    SplitNone(name, ',');
    var fs := Split(name + [','] + v, ',');
    assert fs[1..] == Split(v, ',');
    if samples == [] {
      assert fs[1..] == [""];
    } else {
      ValuesSplit(samples);
      ParseValueStrings(samples);
    }
  }

  /** The joined value strings of a non-empty segment split back into those strings. */
  lemma ValuesSplit(samples: seq<int>)
    requires samples != []
    ensures Split(Join(ValueStrings(samples), ','), ',') == ValueStrings(samples) != [""]
  {
    ValueStringsCommaFree(samples);
    SplitJoin(ValueStrings(samples), ',');
    assert |ValueStrings(samples)[0]| >= 5;
  }

  // Sequence uploads.

  /** `source + 'data:seq #%s%s%s' % (bytesLen, charLen, body)`. */
  function SeqCommand(source: string, body: string): string
  {
    source + "data:seq " + Frame(body)
  }

  /** How an instrument reads a sequence upload of the given source back. */
  function ParseSeqCommand(cmd: string, source: string): Option<Descriptor>
  {
    match StripPrefix(cmd, source + "data:seq ")
    case None => None
    case Some(rest) =>
      match DecodeBlock(rest)
      case Some(body) => ParseDescriptor(body)
      case None => None
  }

  lemma SeqRoundTrip(source: string, body: string)
    requires |body| < MAX_PAYLOAD
    ensures ParseSeqCommand(SeqCommand(source, body), source) == ParseDescriptor(body)
  {
    assert SeqCommand(source, body) == (source + "data:seq ") + Frame(body);
    StripPrefixAppend(source + "data:seq ", Frame(body));
    FrameRoundTrip(body);
  }

  // Command lists.

  /** One write to the generator. */
  datatype Command =
    | Fixed(text: string)
    | ArbData(source: string, name: string, samples: seq<int>)
    | SeqData(source: string, descriptor: Descriptor)

  function Render(c: Command): string
  {
    match c
    case Fixed(text) => text
    case ArbData(source, name, samples) => ArbCommand(source, name, samples)
    case SeqData(source, descriptor) => SeqCommand(source, Serialize(descriptor))
  }

  /** The strings written, in order. */
  function Written(cmds: seq<Command>): (w: seq<string>)
    ensures |w| == |cmds|
  {
    seq(|cmds|, i requires 0 <= i < |cmds| => Render(cmds[i]))
  }

  /** String i is the rendering of command i. */
  lemma WrittenAt(cmds: seq<Command>, i: int)
    requires 0 <= i < |cmds|
    ensures Written(cmds)[i] == Render(cmds[i])
  {
  }

  /** Some string before position q uploads a segment called name for this source. */
  predicate UploadedBefore(w: seq<string>, q: int, source: string, name: string)
  {
    exists j :: 0 <= j < q && j < |w| && ParseArb(w[j], source).Some? && ParseArb(w[j], source).value.name == name
  }

  /** String q uploads a sequence, and every segment it plays was uploaded earlier. */
  predicate ReferencesUploaded(w: seq<string>, q: int, source: string)
  {
    && 0 <= q < |w|
    && ParseSeqCommand(w[q], source).Some?
    && var d := ParseSeqCommand(w[q], source).value;
       forall i :: 0 <= i < |d.steps| ==> UploadedBefore(w, q, source, d.steps[i].segment)
  }

  /** String s is written exactly once, at position k. */
  predicate OnlyAt(w: seq<string>, s: string, k: int)
  {
    && 0 <= k < |w| && w[k] == s
    && forall j :: 0 <= j < |w| && w[j] == s ==> j == k
  }

  /** No command of cs is written as the text t. */
  predicate Avoids(cs: seq<Command>, t: string)
  {
    forall j :: 0 <= j < |cs| ==> Render(cs[j]) != t
  }

  /** Every step of d plays a segment with a comma-free name uploaded to source before command q. */
  predicate SegmentsAhead(cmds: seq<Command>, q: int, source: string, d: Descriptor)
  {
    forall i :: 0 <= i < |d.steps| ==> UploadAhead(cmds, q, source, d.steps[i].segment)
  }

  /** Some command before q uploads a segment with this comma-free name to source. */
  predicate UploadAhead(cmds: seq<Command>, q: int, source: string, name: string)
  {
    exists j :: 0 <= j < q && j < |cmds| && cmds[j].ArbData? && cmds[j].source == source
                && cmds[j].name == name && ',' !in name
  }

  /** A written segment upload reads back as its name and its samples. */
  lemma WrittenUpload(cmds: seq<Command>, j: int)
    requires 0 <= j < |cmds| && cmds[j].ArbData? && ',' !in cmds[j].name
    ensures ParseArb(Written(cmds)[j], cmds[j].source) == Some(Upload(cmds[j].name, cmds[j].samples))
  {
    WrittenAt(cmds, j);
    ArbRoundTrip(cmds[j].source, cmds[j].name, cmds[j].samples);
  }

  /** A written sequence upload reads back as its descriptor. */
  lemma WrittenSequence(cmds: seq<Command>, q: int)
    requires 0 <= q < |cmds| && cmds[q].SeqData?
    requires WellFormed(cmds[q].descriptor) && |Serialize(cmds[q].descriptor)| < MAX_PAYLOAD
    ensures ParseSeqCommand(Written(cmds)[q], cmds[q].source) == Some(cmds[q].descriptor)
  {
    WrittenAt(cmds, q);
    SeqRoundTrip(cmds[q].source, Serialize(cmds[q].descriptor));
    SerializeRoundTrip(cmds[q].descriptor);
  }

  /**
   * When every segment a written sequence plays was uploaded to the same
   * source before it, the instrument has each of them by the time it reads
   * the sequence.
   */
  lemma WrittenReferences(cmds: seq<Command>, q: int)
    requires 0 <= q < |cmds| && cmds[q].SeqData?
    requires WellFormed(cmds[q].descriptor) && |Serialize(cmds[q].descriptor)| < MAX_PAYLOAD
    requires SegmentsAhead(cmds, q, cmds[q].source, cmds[q].descriptor)
    ensures ReferencesUploaded(Written(cmds), q, cmds[q].source)
  {
    var w := Written(cmds);
    var source := cmds[q].source;
    var d := cmds[q].descriptor;
    WrittenSequence(cmds, q);
    forall i | 0 <= i < |d.steps|
      ensures UploadedBefore(w, q, source, d.steps[i].segment)
    {
      var j :| 0 <= j < q && j < |cmds| && cmds[j].ArbData? && cmds[j].source == source
               && cmds[j].name == d.steps[i].segment && ',' !in d.steps[i].segment;
      WrittenUpload(cmds, j);
    }
  }

  /**
   * A fixed command of a list's tail whose text no other command of the
   * list renders to is written exactly once, at its own position.
   */
  lemma TailOnlyAt(pre: seq<Command>, tail: seq<Command>, i: int)
    requires 0 <= i < |tail| && tail[i].Fixed?
    requires Avoids(pre, tail[i].text)
    requires forall j :: 0 <= j < |tail| && j != i ==> Render(tail[j]) != tail[i].text
    ensures OnlyAt(Written(pre + tail), tail[i].text, |pre| + i)
  {
    var cmds := pre + tail;
    forall j | 0 <= j < |cmds| && Written(cmds)[j] == tail[i].text
      ensures j == |pre| + i
    {
      WrittenAt(cmds, j);
    }
    WrittenAt(cmds, |pre| + i);
  }

  /** Two lists that avoid t make a list that avoids t. */
  lemma AvoidsConcat(a: seq<Command>, b: seq<Command>, t: string)
    requires Avoids(a, t) && Avoids(b, t)
    ensures Avoids(a + b, t)
  {
    forall j | 0 <= j < |a + b|
      ensures Render((a + b)[j]) != t
    {
      if j < |a| {
        assert (a + b)[j] == a[j];
      } else {
        assert (a + b)[j] == b[j - |a|];
      }
    }
  }

  /** An upload's text starts with its source and `data:arb ` or `data:seq `. */
  lemma RenderPrefix(c: Command)
    ensures c.ArbData? ==> c.source + "data:arb " <= Render(c)
    ensures c.SeqData? ==> c.source + "data:seq " <= Render(c)
  {
  }

  /** A text that starts with neither upload prefix of a source is no command of that source's channel. */
  lemma ChannelAvoids(source: string, ups: seq<Upload>, d: Descriptor, t: string)
    requires !(source + "data:arb " <= t) && !(source + "data:seq " <= t)
    ensures Avoids(Channel(source, ups, d), t)
  {
    var cmds := Channel(source, ups, d);
    forall j | 0 <= j < |cmds|
      ensures Render(cmds[j]) != t
    {
      RenderPrefix(cmds[j]);
      if j < |ups| {
        assert cmds[j] == ArbData(source, ups[j].name, ups[j].samples);
      } else {
        assert cmds[j] == SeqData(source, d);
      }
    }
  }

  /** Commands from..from+|ups|-1 upload the segments of ups, in order, to one source. */
  predicate UploadRun(cmds: seq<Command>, from: int, source: string, ups: seq<Upload>)
  {
    && 0 <= from && from + |ups| <= |cmds|
    && forall k :: 0 <= k < |ups| ==>
         cmds[from + k] == ArbData(source, ups[k].name, ups[k].samples) && ',' !in ups[k].name
  }

  /** Every step of d plays one of the segments in ups. */
  predicate Covers(ups: seq<Upload>, d: Descriptor)
  {
    forall i :: 0 <= i < |d.steps| ==> d.steps[i].segment in Names(ups)
  }

  /** The names a run of uploads gives its segments. */
  function Names(ups: seq<Upload>): set<string>
  {
    set k | 0 <= k < |ups| :: ups[k].name
  }

  /** Each upload of a run reads back as its segment. */
  lemma RunUploads(cmds: seq<Command>, from: int, source: string, ups: seq<Upload>)
    requires UploadRun(cmds, from, source, ups)
    ensures forall j :: from <= j < from + |ups| ==> ParseArb(Written(cmds)[j], source) == Some(ups[j - from])
  {
    forall j | from <= j < from + |ups|
      ensures ParseArb(Written(cmds)[j], source) == Some(ups[j - from])
    {
      assert cmds[from + (j - from)] == ArbData(source, ups[j - from].name, ups[j - from].samples);
      WrittenUpload(cmds, j);
    }
  }

  /** One `data:arb` command per segment, in order, all to one source. */
  function Uploads(source: string, ups: seq<Upload>): (cmds: seq<Command>)
    ensures |cmds| == |ups|
    ensures forall k :: 0 <= k < |ups| ==> cmds[k] == ArbData(source, ups[k].name, ups[k].samples)
  {
    if ups == [] then []
    else Uploads(source, ups[..|ups| - 1]) + [ArbData(source, ups[|ups| - 1].name, ups[|ups| - 1].samples)]
  }

  /** What the scripts write for one output channel: its segments, then the sequence that plays them. */
  function Channel(source: string, ups: seq<Upload>, d: Descriptor): (cmds: seq<Command>)
    ensures |cmds| == |ups| + 1
  {
    Uploads(source, ups) + [SeqData(source, d)]
  }

  /** Wherever a channel's commands stand, they are a run of uploads followed by the sequence. */
  lemma ChannelAt(pre: seq<Command>, source: string, ups: seq<Upload>, d: Descriptor, post: seq<Command>)
    requires forall k :: 0 <= k < |ups| ==> ',' !in ups[k].name
    ensures var cmds := pre + Channel(source, ups, d) + post;
      && UploadRun(cmds, |pre|, source, ups)
      && cmds[|pre| + |ups|] == SeqData(source, d)
  {
  }

  /** Wherever a channel's commands stand in a list, each of its uploads reads back as its segment. */
  lemma ChannelUploads(pre: seq<Command>, source: string, ups: seq<Upload>, d: Descriptor, post: seq<Command>)
    requires forall k :: 0 <= k < |ups| ==> ',' !in ups[k].name
    ensures var w := Written(pre + Channel(source, ups, d) + post);
      forall j :: |pre| <= j < |pre| + |ups| ==> ParseArb(w[j], source) == Some(ups[j - |pre|])
  {
    ChannelAt(pre, source, ups, d, post);
    RunUploads(pre + Channel(source, ups, d) + post, |pre|, source, ups);
  }

  /**
   * Wherever a channel's commands stand in a list, its sequence reads back
   * as its descriptor and plays only segments uploaded to that channel
   * before it.
   */
  lemma ChannelSequence(pre: seq<Command>, source: string, ups: seq<Upload>, d: Descriptor, post: seq<Command>)
    requires forall k :: 0 <= k < |ups| ==> ',' !in ups[k].name
    requires WellFormed(d) && |Serialize(d)| < MAX_PAYLOAD
    requires Covers(ups, d)
    ensures var w := Written(pre + Channel(source, ups, d) + post);
      && ParseSeqCommand(w[|pre| + |ups|], source) == Some(d)
      && ReferencesUploaded(w, |pre| + |ups|, source)
  {
    var cmds := pre + Channel(source, ups, d) + post;
    ChannelAt(pre, source, ups, d, post);
    WrittenSequence(cmds, |pre| + |ups|);
    RunAhead(cmds, |pre|, source, ups, d);
    WrittenReferences(cmds, |pre| + |ups|);
  }

  /** A run that covers a descriptor puts every segment it plays ahead of the command after the run. */
  lemma RunAhead(cmds: seq<Command>, from: int, source: string, ups: seq<Upload>, d: Descriptor)
    requires UploadRun(cmds, from, source, ups)
    requires Covers(ups, d)
    ensures SegmentsAhead(cmds, from + |ups|, source, d)
  {
    forall i | 0 <= i < |d.steps|
      ensures UploadAhead(cmds, from + |ups|, source, d.steps[i].segment)
    {
      var k :| 0 <= k < |ups| && ups[k].name == d.steps[i].segment;
      assert cmds[from + k] == ArbData(source, ups[k].name, ups[k].samples) && ',' !in ups[k].name;
    }
  }
}
