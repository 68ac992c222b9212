/** The fMP4 recorder on values: tracks with a sample of lookahead, segments and parts. */
module RecordModel {
  import opened Wrappers
  import opened ByteStreams
  import opened Mp4Time

  const TIME_SCALE := 90000

  // A sample pushed to a track: decoding time in nanoseconds, random access or not, and everything else.
  datatype Sample = Sample(dts: nat, sync: bool, media: int)

  // A sample in a part. `until` logs the decoding time of the sample after it.
  datatype Stored = Stored(sample: Sample, duration: uint32, until: nat)

  datatype PartTrack = PartTrack(baseTime: nat, samples: seq<Stored>)

  datatype Part = Part(sequenceNumber: uint32, startDTS: nat, endDTS: nat, tracks: map<nat, PartTrack>)

  // A segment: the parts written to its file and the one being filled.
  datatype Segment = Segment(startDTS: nat, parts: seq<Part>, curPart: Option<Part>)

  // What became of a sample that is not pending any more. A dropped one logs the start of the open segment.
  datatype Fate = Recorded | Dropped(start: nat)

  datatype Settings = Settings(video: seq<bool>, partDuration: int, segmentDuration: int)

  // The recorder. `files` are the closed segments; `pushed` and `fates` are logs of each track.
  datatype Recorder = Recorder(
    pending: seq<Option<Sample>>,
    hasVideo: bool,
    current: Option<Segment>,
    nextSequenceNumber: uint32,
    files: seq<Segment>,
    pushed: seq<seq<Sample>>,
    fates: seq<seq<Fate>>)

  function Ticks(v: nat): nat {
    DurationGoToMp4(v, TIME_SCALE)
  }

  function NewRecorder(c: Settings): Recorder {
    var n := |c.video|;
    Recorder(seq(n, _ => None), false, None, 0, [], seq(n, _ => []), seq(n, _ => []))
  }

  // --- Operations ------------------------------------------------------------------------------

  function PartRecord(p: Part, t: nat, start: nat, x: Stored): Part
    requires start <= x.sample.dts
  {
    var track := if t in p.tracks then p.tracks[t] else PartTrack(Ticks(x.sample.dts - start), []);
    p.(tracks := p.tracks[t := track.(samples := track.samples + [x])], endDTS := x.sample.dts)
  }

  predicate NeedsPart(s: Segment, partDuration: int) {
    s.curPart.None? || s.curPart.value.endDTS - s.curPart.value.startDTS >= partDuration
  }

  function WholeParts(s: Segment): seq<Part> {
    s.parts + if s.curPart.Some? then [s.curPart.value] else []
  }

  function SegmentClose(s: Segment): Segment {
    s.(parts := WholeParts(s), curPart := None)
  }

  function SegmentRecord(s: Segment, partDuration: int, number: uint32, t: nat, x: Stored): Segment
    requires s.startDTS <= x.sample.dts
  {
    if NeedsPart(s, partDuration) then
      var newPart := Part(number, x.sample.dts, 0, map[]);
      SegmentClose(s).(curPart := Some(PartRecord(newPart, t, s.startDTS, x)))
    else
      s.(curPart := Some(PartRecord(s.curPart.value, t, s.startDTS, x)))
  }

  function NumberAfter(s: Segment, partDuration: int, number: uint32): uint32 {
    if NeedsPart(s, partDuration) then Wrap32(number + 1) else number
  }

  ghost predicate Shaped(c: Settings, r: Recorder) {
    |r.pending| == |r.pushed| == |r.fates| == |c.video|
  }

  // Samples of a track come in decoding order.
  predicate InOrder(r: Recorder, t: nat, sample: Sample)
    requires t < |r.pending|
  {
    r.pending[t].Some? ==> r.pending[t].value.dts <= sample.dts
  }

  function Lookahead(c: Settings, r: Recorder, t: nat, sample: Sample): Recorder
    requires Shaped(c, r) && t < |c.video|
  {
    r.(hasVideo := r.hasVideo || c.video[t],
       pending := r.pending[t := Some(sample)],
       pushed := r.pushed[t := r.pushed[t] + [sample]])
  }

  function Store(p: Sample, next: Sample): Stored
    requires p.dts <= next.dts
  {
    Stored(p, Wrap32(Ticks(next.dts - p.dts)), next.dts)
  }

  // The segment a sample is recorded in.
  function OpenSegment(r: Recorder, p: Sample): Segment {
    if r.current.Some? then r.current.value else Segment(p.dts, [], None)
  }

  predicate IsDropped(r: Recorder, p: Sample) {
    r.current.Some? && p.dts < r.current.value.startDTS
  }

  predicate IsCut(c: Settings, r: Recorder, t: nat, start: nat, sample: Sample)
    requires t < |c.video|
  {
    (!r.hasVideo || c.video[t]) && sample.sync && sample.dts - start >= c.segmentDuration
  }

  function Drop(r: Recorder, t: nat): Recorder
    requires t < |r.fates| && r.current.Some?
  {
    r.(fates := r.fates[t := r.fates[t] + [Dropped(r.current.value.startDTS)]])
  }

  function Keep(c: Settings, r: Recorder, t: nat, x: Stored): Recorder
    requires t < |r.fates| && !IsDropped(r, x.sample)
  {
    var seg := OpenSegment(r, x.sample);
    r.(current := Some(SegmentRecord(seg, c.partDuration, r.nextSequenceNumber, t, x)),
       nextSequenceNumber := NumberAfter(seg, c.partDuration, r.nextSequenceNumber),
       fates := r.fates[t := r.fates[t] + [Recorded]])
  }

  function CutAt(r: Recorder, dts: nat): Recorder
    requires r.current.Some?
  {
    r.(files := r.files + [SegmentClose(r.current.value)], current := Some(Segment(dts, [], None)))
  }

  // What becomes of the sample p when the next one has come.
  function Settle(c: Settings, r: Recorder, t: nat, p: Sample, next: Sample): Recorder
    requires Shaped(c, r) && t < |c.video| && p.dts <= next.dts
    ensures Settle(c, r, t, p, next).pending == r.pending
  {
    if IsDropped(r, p) then Drop(r, t)
    else
      var r' := Keep(c, r, t, Store(p, next));
      if IsCut(c, r', t, r'.current.value.startDTS, next) then CutAt(r', next.dts) else r'
  }

  // formatFMP4Track.record
  function Push(c: Settings, r: Recorder, t: nat, sample: Sample): Recorder
    requires Shaped(c, r) && t < |c.video| && InOrder(r, t, sample)
  {
    var r' := Lookahead(c, r, t, sample);
    if r.pending[t].None? then r' else Settle(c, r', t, r.pending[t].value, sample)
  }

  // formatFMP4.close: what is pending is not recorded, and a segment that never got a part makes no file.
  function Close(r: Recorder): Recorder {
    if r.current.Some? && WholeParts(r.current.value) != [] then CutAt(r, 0).(current := None)
    else r.(current := None)
  }

  // --- What the files hold ---------------------------------------------------------------------

  function PartOf(p: Part, t: nat): seq<Stored> {
    if t in p.tracks then p.tracks[t].samples else []
  }

  function PartsOf(parts: seq<Part>, t: nat): seq<Stored> {
    if parts == [] then [] else PartsOf(parts[..|parts| - 1], t) + PartOf(parts[|parts| - 1], t)
  }

  function SegmentOf(s: Segment, t: nat): seq<Stored> {
    PartsOf(WholeParts(s), t)
  }

  function FilesOf(files: seq<Segment>, t: nat): seq<Stored> {
    if files == [] then [] else FilesOf(files[..|files| - 1], t) + SegmentOf(files[|files| - 1], t)
  }

  // Every sample of a track in the files, in file order.
  function AllOf(r: Recorder, t: nat): seq<Stored> {
    FilesOf(r.files, t) + if r.current.Some? then SegmentOf(r.current.value, t) else []
  }

  function FileParts(files: seq<Segment>): seq<Part> {
    if files == [] then [] else FileParts(files[..|files| - 1]) + WholeParts(files[|files| - 1])
  }

  // Every part in the order of writing.
  function AllParts(r: Recorder): seq<Part> {
    FileParts(r.files) + if r.current.Some? then WholeParts(r.current.value) else []
  }

  lemma PartsOfSnoc(parts: seq<Part>, p: Part, t: nat)
    ensures PartsOf(parts + [p], t) == PartsOf(parts, t) + PartOf(p, t)
  {
    assert (parts + [p])[..|parts|] == parts;
  }

  lemma FilesOfSnoc(files: seq<Segment>, s: Segment, t: nat)
    ensures FilesOf(files + [s], t) == FilesOf(files, t) + SegmentOf(s, t)
  {
    assert (files + [s])[..|files|] == files;
  }

  lemma FilePartsSnoc(files: seq<Segment>, s: Segment)
    ensures FileParts(files + [s]) == FileParts(files) + WholeParts(s)
  {
    assert (files + [s])[..|files|] == files;
  }

  // --- How the operations change what the files hold -------------------------------------------

  lemma CloseKeepsParts(s: Segment)
    ensures WholeParts(SegmentClose(s)) == WholeParts(s)
  {
  }

  // The part a sample is recorded in, as it was before.
  function PartBefore(s: Segment, partDuration: int, number: uint32, x: Stored): Part {
    if NeedsPart(s, partDuration) then Part(number, x.sample.dts, 0, map[]) else s.curPart.value
  }

  lemma SegmentRecordParts(s: Segment, partDuration: int, number: uint32, t: nat, x: Stored)
    requires s.startDTS <= x.sample.dts
    ensures SegmentRecord(s, partDuration, number, t, x).startDTS == s.startDTS
    ensures WholeParts(SegmentRecord(s, partDuration, number, t, x)) ==
      (if NeedsPart(s, partDuration) then WholeParts(s) else s.parts)
      + [PartRecord(PartBefore(s, partDuration, number, x), t, s.startDTS, x)]
    ensures !NeedsPart(s, partDuration) ==> WholeParts(s) == s.parts + [PartBefore(s, partDuration, number, x)]
  {
  }

  // Recording adds the sample to its track at the end, in the last part or in a new one.
  lemma SegmentRecordOf(s: Segment, partDuration: int, number: uint32, t: nat, x: Stored, u: nat)
    requires s.startDTS <= x.sample.dts
    ensures SegmentOf(SegmentRecord(s, partDuration, number, t, x), u) == SegmentOf(s, u) + if u == t then [x] else []
  {
    SegmentRecordParts(s, partDuration, number, t, x);
    var p := PartBefore(s, partDuration, number, x);
    var p' := PartRecord(p, t, s.startDTS, x);
    PartsOfSnoc(WholeParts(s), p', u);
    PartsOfSnoc(s.parts, p, u);
    PartsOfSnoc(s.parts, p', u);
  }

  lemma KeepOf(c: Settings, r: Recorder, t: nat, x: Stored, u: nat)
    requires t < |r.fates| && !IsDropped(r, x.sample)
    ensures AllOf(Keep(c, r, t, x), u) == AllOf(r, u) + if u == t then [x] else []
  {
    SegmentRecordOf(OpenSegment(r, x.sample), c.partDuration, r.nextSequenceNumber, t, x, u);
  }

  lemma CutOf(r: Recorder, dts: nat, u: nat)
    requires r.current.Some?
    ensures AllOf(CutAt(r, dts), u) == AllOf(r, u)
    ensures AllParts(CutAt(r, dts)) == AllParts(r)
  {
    CloseKeepsParts(r.current.value);
    FilesOfSnoc(r.files, SegmentClose(r.current.value), u);
    FilePartsSnoc(r.files, SegmentClose(r.current.value));
  }

  // --- Conservation ----------------------------------------------------------------------------

  predicate Sorted(samples: seq<Sample>) {
    forall i, j :: 0 <= i <= j < |samples| ==> samples[i].dts <= samples[j].dts
  }

  // What a track must hold: the samples that were not dropped, in push order, each lasting until the next
  // sample pushed, dropped or not.
  function Expected(pushed: seq<Sample>, fates: seq<Fate>): seq<Stored>
    requires Sorted(pushed) && (fates == [] || |fates| < |pushed|)
  {
    var n := |fates|;
    if n == 0 then []
    else Expected(pushed, fates[..n - 1])
         + if fates[n - 1].Recorded? then [Store(pushed[n - 1], pushed[n])] else []
  }

  ghost predicate Logged(r: Recorder, t: nat)
    requires |r.pending| == |r.pushed| == |r.fates| && t < |r.pending|
  {
    && Sorted(r.pushed[t])
    && |r.fates[t]| == (if r.pushed[t] == [] then 0 else |r.pushed[t]| - 1)
    && r.pending[t] == (if r.pushed[t] == [] then None else Some(r.pushed[t][|r.pushed[t]| - 1]))
  }

  // Every sample pushed to a track is pending, dropped, or stored once, in push order; and what is dropped
  // started before the segment that was open.
  ghost predicate Conserved(r: Recorder, t: nat)
    requires |r.pending| == |r.pushed| == |r.fates| && t < |r.pending|
  {
    && Logged(r, t)
    && AllOf(r, t) == Expected(r.pushed[t], r.fates[t])
    && (forall i :: 0 <= i < |r.fates[t]| && r.fates[t][i].Dropped? ==> r.pushed[t][i].dts < r.fates[t][i].start)
  }

  lemma {:induction false} ExpectedIgnoresLater(pushed: seq<Sample>, fates: seq<Fate>, sample: Sample)
    requires Sorted(pushed) && Sorted(pushed + [sample]) && (fates == [] || |fates| < |pushed|)
    ensures Expected(pushed + [sample], fates) == Expected(pushed, fates)
  {
    if fates != [] {
      ExpectedIgnoresLater(pushed, fates[..|fates| - 1], sample);
    }
  }

  lemma ExpectedSnoc(pushed: seq<Sample>, fates: seq<Fate>, f: Fate, sample: Sample)
    requires Sorted(pushed) && |fates| + 1 == |pushed| && pushed[|fates|].dts <= sample.dts
    ensures Sorted(pushed + [sample])
    ensures Expected(pushed + [sample], fates + [f]) ==
      Expected(pushed, fates) + if f.Recorded? then [Store(pushed[|fates|], sample)] else []
  {
    ExpectedIgnoresLater(pushed, fates, sample);
    assert (fates + [f])[..|fates|] == fates;
  }

  // --- Timeline --------------------------------------------------------------------------------

  // Each sample lasts until the next one of the list.
  ghost predicate Chain(samples: seq<Stored>) {
    && (forall i :: 0 <= i < |samples| ==>
          && samples[i].sample.dts <= samples[i].until
          && samples[i].duration == Wrap32(Ticks(samples[i].until - samples[i].sample.dts)))
    && (forall i :: 0 <= i < |samples| - 1 ==> samples[i].until == samples[i + 1].sample.dts)
  }

  // The base time of a track in a part is that of its first sample, counted from the start of the segment.
  ghost predicate Based(start: nat, track: PartTrack) {
    && track.samples != []
    && start <= track.samples[0].sample.dts
    && track.baseTime == Ticks(track.samples[0].sample.dts - start)
  }

  ghost predicate Timeline(s: Segment, t: nat) {
    && Chain(SegmentOf(s, t))
    && (forall i :: 0 <= i < |WholeParts(s)| && t in WholeParts(s)[i].tracks ==>
          Based(s.startDTS, WholeParts(s)[i].tracks[t]))
  }

  // The next sample of a track in the open segment will be the pending one.
  ghost predicate Continues(s: Segment, t: nat, pending: Option<Sample>) {
    var of := SegmentOf(s, t);
    of != [] ==> pending.Some? && of[|of| - 1].until == pending.value.dts && s.startDTS <= pending.value.dts
  }

  ghost predicate Timelines(r: Recorder, t: nat)
    requires t < |r.pending|
  {
    && (forall i :: 0 <= i < |r.files| ==> Timeline(r.files[i], t))
    && (r.current.Some? ==> Timeline(r.current.value, t) && Continues(r.current.value, t, r.pending[t]))
  }

  // --- Sequence numbers ------------------------------------------------------------------------

  // Parts are numbered 0, 1, 2, ... in the order of writing, in 32 bits.
  ghost predicate Numbered(r: Recorder) {
    && (forall i :: 0 <= i < |AllParts(r)| ==> AllParts(r)[i].sequenceNumber == Wrap32(i))
    && r.nextSequenceNumber == Wrap32(|AllParts(r)|)
  }

  ghost predicate Inv(c: Settings, r: Recorder) {
    && Shaped(c, r)
    && Numbered(r)
    && (forall t :: 0 <= t < |c.video| ==> Conserved(r, t) && Timelines(r, t))
  }
}
