/** What every push keeps: conservation of samples, unbroken timelines, part numbers. */
module RecordInvariant {
  import opened Wrappers
  import opened ByteStreams
  import opened Mp4Time
  import opened RecordModel

  lemma NewRecorderInv(c: Settings)
    ensures Inv(c, NewRecorder(c))
  {
  }

  // --- Taking the sample in --------------------------------------------------------------------

  // Between taking the new sample in and settling the one before it: the fate of one sample is open.
  ghost predicate Unsettled(c: Settings, r: Recorder, t: nat, p: Sample, next: Sample) {
    && Shaped(c, r) && t < |c.video|
    && Numbered(r)
    && p.dts <= next.dts
    && r.pending[t] == Some(next)
    && Sorted(r.pushed[t])
    && |r.pushed[t]| == |r.fates[t]| + 2
    && r.pushed[t][|r.fates[t]|] == p && r.pushed[t][|r.fates[t]| + 1] == next
    && AllOf(r, t) == Expected(r.pushed[t], r.fates[t])
    && (forall i :: 0 <= i < |r.fates[t]| && r.fates[t][i].Dropped? ==> r.pushed[t][i].dts < r.fates[t][i].start)
    && (forall i :: 0 <= i < |r.files| ==> Timeline(r.files[i], t))
    && (r.current.Some? ==> Timeline(r.current.value, t) && Continues(r.current.value, t, Some(p)))
    && (forall u :: 0 <= u < |c.video| && u != t ==> Conserved(r, u) && Timelines(r, u))
  }

  lemma LookaheadOf(c: Settings, r: Recorder, t: nat, sample: Sample, u: nat)
    requires Shaped(c, r) && t < |c.video|
    ensures AllOf(Lookahead(c, r, t, sample), u) == AllOf(r, u)
    ensures AllParts(Lookahead(c, r, t, sample)) == AllParts(r)
  {
  }

  lemma LookaheadOther(c: Settings, r: Recorder, t: nat, sample: Sample, u: nat)
    requires Shaped(c, r) && t < |c.video| && u < |c.video| && u != t
    requires Conserved(r, u) && Timelines(r, u)
    ensures Conserved(Lookahead(c, r, t, sample), u) && Timelines(Lookahead(c, r, t, sample), u)
  {
    hide AllOf, AllParts, Timeline, Continues, Expected, Sorted;
    LookaheadOf(c, r, t, sample, u);
  }

  // A track that nothing is pending for has nothing in the open segment.
  lemma NotStarted(s: Segment, t: nat, pending: Option<Sample>)
    requires Continues(s, t, None)
    ensures SegmentOf(s, t) == [] && Continues(s, t, pending)
  {
  }

  // The same for a track whose pending sample is too early for it.
  lemma TooEarly(s: Segment, t: nat, p: Sample, pending: Option<Sample>)
    requires Continues(s, t, Some(p)) && p.dts < s.startDTS
    ensures Continues(s, t, pending)
  {
  }

  lemma LookaheadFirst(c: Settings, r: Recorder, t: nat, sample: Sample)
    requires Inv(c, r) && t < |c.video| && r.pending[t].None?
    ensures Inv(c, Lookahead(c, r, t, sample))
  {
    hide AllOf, AllParts, Timeline, SegmentOf, Continues, Wrap32;
    var r' := Lookahead(c, r, t, sample);
    assert Conserved(r, t) && Timelines(r, t) && r.pushed[t] == [] && r.fates[t] == [];
    if r.current.Some? {
      NotStarted(r.current.value, t, Some(sample));
    }
    forall u | 0 <= u < |c.video| && u != t
      ensures Conserved(r', u) && Timelines(r', u)
    {
      LookaheadOther(c, r, t, sample, u);
    }
    LookaheadOf(c, r, t, sample, t);
    assert Conserved(r', t) && Timelines(r', t);
  }

  lemma LookaheadNext(c: Settings, r: Recorder, t: nat, sample: Sample)
    requires Inv(c, r) && t < |c.video| && InOrder(r, t, sample) && r.pending[t].Some?
    ensures Unsettled(c, Lookahead(c, r, t, sample), t, r.pending[t].value, sample)
  {
    var r' := Lookahead(c, r, t, sample);
    assert Conserved(r, t) && Timelines(r, t);
    ExpectedIgnoresLater(r.pushed[t], r.fates[t], sample);
    forall u | 0 <= u < |c.video| && u != t
      ensures Conserved(r', u) && Timelines(r', u)
    {
      LookaheadOther(c, r, t, sample, u);
    }
    LookaheadOf(c, r, t, sample, t);
  }

  // --- Dropping --------------------------------------------------------------------------------

  lemma DropOf(r: Recorder, t: nat, u: nat)
    requires t < |r.fates| && r.current.Some?
    ensures AllOf(Drop(r, t), u) == AllOf(r, u) && AllParts(Drop(r, t)) == AllParts(r)
  {
  }

  lemma DropKeeps(c: Settings, r: Recorder, t: nat, p: Sample, next: Sample)
    requires Unsettled(c, r, t, p, next) && IsDropped(r, p)
    ensures Inv(c, Drop(r, t))
  {
    hide Timeline, SegmentOf, AllOf, AllParts, Continues, Expected;
    var r' := Drop(r, t);
    DropOf(r, t, t);
    ExpectedSnoc(r.pushed[t][..|r.fates[t]| + 1], r.fates[t], Dropped(r.current.value.startDTS), next);
    assert r.pushed[t] == r.pushed[t][..|r.fates[t]| + 1] + [next];
    ExpectedIgnoresLater(r.pushed[t][..|r.fates[t]| + 1], r.fates[t], next);
    assert Conserved(r', t);
    TooEarly(r.current.value, t, p, Some(next));
    assert Timelines(r', t);
    forall u | 0 <= u < |c.video| && u != t
      ensures Conserved(r', u) && Timelines(r', u)
    {
      DropOf(r, t, u);
      assert Conserved(r, u) && Timelines(r, u);
    }
  }

  // --- Recording -------------------------------------------------------------------------------

  lemma ChainSnoc(samples: seq<Stored>, p: Sample, next: Sample)
    requires Chain(samples) && p.dts <= next.dts
    requires samples != [] ==> samples[|samples| - 1].until == p.dts
    ensures Chain(samples + [Store(p, next)])
  {
    hide Ticks, Wrap32;
  }

  lemma PartRecordBased(p: Part, t: nat, start: nat, x: Stored, u: nat)
    requires start <= x.sample.dts
    requires u in p.tracks ==> Based(start, p.tracks[u])
    ensures u in PartRecord(p, t, start, x).tracks ==> Based(start, PartRecord(p, t, start, x).tracks[u])
  {
  }

  lemma RecordKeepsTimeline(s: Segment, partDuration: int, number: uint32, t: nat, p: Sample, next: Sample)
    requires s.startDTS <= p.dts <= next.dts
    requires Timeline(s, t) && Continues(s, t, Some(p))
    ensures Timeline(SegmentRecord(s, partDuration, number, t, Store(p, next)), t)
    ensures Continues(SegmentRecord(s, partDuration, number, t, Store(p, next)), t, Some(next))
  {
    var x := Store(p, next);
    SegmentRecordOf(s, partDuration, number, t, x, t);
    ChainSnoc(SegmentOf(s, t), p, next);
    RecordKeepsBases(s, partDuration, number, t, x, t);
  }

  lemma RecordKeepsBases(s: Segment, partDuration: int, number: uint32, t: nat, x: Stored, u: nat)
    requires s.startDTS <= x.sample.dts && Timeline(s, u)
    ensures var ps := WholeParts(SegmentRecord(s, partDuration, number, t, x));
      forall i :: 0 <= i < |ps| && u in ps[i].tracks ==> Based(s.startDTS, ps[i].tracks[u])
  {
    SegmentRecordParts(s, partDuration, number, t, x);
    var p := PartBefore(s, partDuration, number, x);
    if !NeedsPart(s, partDuration) {
      assert WholeParts(s)[|s.parts|] == p;
    }
    PartRecordBased(p, t, s.startDTS, x, u);
  }

  lemma RecordKeepsOthers(s: Segment, partDuration: int, number: uint32, t: nat, x: Stored, u: nat, pending: Option<Sample>)
    requires s.startDTS <= x.sample.dts && u != t
    requires Timeline(s, u) && Continues(s, u, pending)
    ensures Timeline(SegmentRecord(s, partDuration, number, t, x), u)
    ensures Continues(SegmentRecord(s, partDuration, number, t, x), u, pending)
  {
    SegmentRecordOf(s, partDuration, number, t, x, u);
    RecordKeepsBases(s, partDuration, number, t, x, u);
  }

  ghost predicate NumberedParts(ps: seq<Part>) {
    forall i :: 0 <= i < |ps| ==> ps[i].sequenceNumber == Wrap32(i)
  }

  lemma NextNumber(n: nat)
    ensures Wrap32(Wrap32(n) + 1) == Wrap32(n + 1)
  {
  }

  lemma NumberedSnoc(ps: seq<Part>, p: Part)
    requires NumberedParts(ps) && p.sequenceNumber == Wrap32(|ps|)
    ensures NumberedParts(ps + [p])
  {
  }

  lemma NumberedLast(ps: seq<Part>, p: Part)
    requires NumberedParts(ps + [p])
    ensures NumberedParts(ps) && p.sequenceNumber == Wrap32(|ps|)
  {
    assert (ps + [p])[|ps|] == p;
    forall i | 0 <= i < |ps|
      ensures ps[i].sequenceNumber == Wrap32(i)
    {
      assert (ps + [p])[i] == ps[i];
    }
  }

  lemma PartsSoFar(r: Recorder, p: Sample)
    requires Numbered(r)
    ensures NumberedParts(AllParts(r)) && AllParts(r) == FileParts(r.files) + WholeParts(OpenSegment(r, p))
  {
  }

  // The parts that recording leaves alone.
  function PartsBefore(c: Settings, r: Recorder, p: Sample): seq<Part> {
    var s := OpenSegment(r, p);
    FileParts(r.files) + if NeedsPart(s, c.partDuration) then WholeParts(s) else s.parts
  }

  // Recording changes the last part, or adds one.
  lemma KeepParts(c: Settings, r: Recorder, t: nat, x: Stored)
    requires Numbered(r) && t < |r.fates| && !IsDropped(r, x.sample)
    ensures var s, n := OpenSegment(r, x.sample), r.nextSequenceNumber;
      var p, before := PartBefore(s, c.partDuration, n, x), PartsBefore(c, r, x.sample);
      && AllParts(Keep(c, r, t, x)) == before + [PartRecord(p, t, s.startDTS, x)]
      && AllParts(r) == if NeedsPart(s, c.partDuration) then before else before + [p]
  {
    PartsSoFar(r, x.sample);
    hide FileParts, SegmentRecord, WholeParts, PartRecord;
    SegmentRecordParts(OpenSegment(r, x.sample), c.partDuration, r.nextSequenceNumber, t, x);
  }

  lemma NumberOfPart(s: Segment, partDuration: int, number: uint32, t: nat, x: Stored)
    requires s.startDTS <= x.sample.dts
    ensures var p := PartBefore(s, partDuration, number, x);
      && PartRecord(p, t, s.startDTS, x).sequenceNumber == p.sequenceNumber
      && (NeedsPart(s, partDuration) ==> p.sequenceNumber == number)
  {
  }

  lemma KeepNumbers(c: Settings, r: Recorder, t: nat, x: Stored)
    requires Numbered(r) && t < |r.fates| && !IsDropped(r, x.sample)
    ensures Numbered(Keep(c, r, t, x))
  {
    hide Wrap32, AllParts, NumberedParts, PartsBefore, PartRecord, PartBefore, WholeParts;
    var s, n := OpenSegment(r, x.sample), r.nextSequenceNumber;
    var p, before := PartBefore(s, c.partDuration, n, x), PartsBefore(c, r, x.sample);
    var p' := PartRecord(p, t, s.startDTS, x);
    PartsSoFar(r, x.sample);
    KeepParts(c, r, t, x);
    NumberOfPart(s, c.partDuration, n, t, x);
    NextNumber(|before|);
    if !NeedsPart(s, c.partDuration) {
      NumberedLast(before, p);
    }
    NumberedSnoc(before, p');
    NumberedAgain(Keep(c, r, t, x));
  }

  lemma NumberedAgain(r: Recorder)
    requires NumberedParts(AllParts(r)) && r.nextSequenceNumber == Wrap32(|AllParts(r)|)
    ensures Numbered(r)
  {
  }

  lemma KeepKeepsOthers(c: Settings, r: Recorder, t: nat, x: Stored, u: nat)
    requires Shaped(c, r) && t < |c.video| && u < |c.video| && u != t && !IsDropped(r, x.sample)
    requires Conserved(r, u) && Timelines(r, u)
    ensures Conserved(Keep(c, r, t, x), u) && Timelines(Keep(c, r, t, x), u)
  {
    hide PartsOf, Timeline, SegmentOf, AllOf, SegmentRecord, Continues, Expected, Sorted;
    KeepOf(c, r, t, x, u);
    NewSegmentTimeline(x.sample.dts, u, r.pending[u]);
    RecordKeepsOthers(OpenSegment(r, x.sample), c.partDuration, r.nextSequenceNumber, t, x, u, r.pending[u]);
  }

  lemma KeepKeeps(c: Settings, r: Recorder, t: nat, p: Sample, next: Sample)
    requires Unsettled(c, r, t, p, next) && !IsDropped(r, p)
    ensures Inv(c, Keep(c, r, t, Store(p, next)))
  {
    hide PartsOf, FilesOf, FileParts, Timeline, SegmentOf, AllOf, AllParts, SegmentRecord, Continues, Expected;
    var x := Store(p, next);
    var r' := Keep(c, r, t, x);
    KeepNumbers(c, r, t, x);
    forall u | 0 <= u < |c.video| && u != t
      ensures Conserved(r', u) && Timelines(r', u)
    {
      KeepKeepsOthers(c, r, t, x, u);
    }
    KeepOf(c, r, t, x, t);
    var before := r.pushed[t][..|r.fates[t]| + 1];
    assert r.pushed[t] == before + [next];
    ExpectedSnoc(before, r.fates[t], Recorded, next);
    ExpectedIgnoresLater(before, r.fates[t], next);
    assert Conserved(r', t);
    NewSegmentTimeline(p.dts, t, Some(p));
    RecordKeepsTimeline(OpenSegment(r, p), c.partDuration, r.nextSequenceNumber, t, p, next);
    assert Timelines(r', t);
  }

  lemma NewSegmentTimeline(dts: nat, t: nat, pending: Option<Sample>)
    ensures Timeline(Segment(dts, [], None), t) && Continues(Segment(dts, [], None), t, pending)
  {
  }

  // --- Cutting ---------------------------------------------------------------------------------

  lemma CloseKeepsTimeline(s: Segment, t: nat)
    requires Timeline(s, t)
    ensures Timeline(SegmentClose(s), t)
  {
    CloseKeepsParts(s);
  }

  lemma CutKeeps(c: Settings, r: Recorder, dts: nat)
    requires Inv(c, r) && r.current.Some?
    ensures Inv(c, CutAt(r, dts))
  {
    var r' := CutAt(r, dts);
    forall u | 0 <= u < |c.video|
      ensures Conserved(r', u) && Timelines(r', u)
    {
      assert Conserved(r, u) && Timelines(r, u);
      CutOf(r, dts, u);
      CloseKeepsTimeline(r.current.value, u);
    }
    CutOf(r, dts, 0);
  }

  // --- The main step ---------------------------------------------------------------------------

  lemma PushKeeps(c: Settings, r: Recorder, t: nat, sample: Sample)
    requires Inv(c, r) && t < |c.video| && InOrder(r, t, sample)
    ensures Inv(c, Push(c, r, t, sample))
  {
    var r1 := Lookahead(c, r, t, sample);
    if r.pending[t].None? {
      LookaheadFirst(c, r, t, sample);
    } else {
      hide Numbered, Conserved, Timelines, Sorted, AllOf, Expected, Timeline, Continues;
      var p := r.pending[t].value;
      LookaheadNext(c, r, t, sample);
      if IsDropped(r1, p) {
        DropKeeps(c, r1, t, p, sample);
      } else {
        KeepKeeps(c, r1, t, p, sample);
        var r2 := Keep(c, r1, t, Store(p, sample));
        if IsCut(c, r2, t, r2.current.value.startDTS, sample) {
          CutKeeps(c, r2, sample.dts);
        }
      }
    }
  }

  lemma EmptyOf(dts: nat, t: nat)
    ensures SegmentOf(Segment(dts, [], None), t) == []
  {
  }

  // A segment without parts holds nothing.
  lemma EmptySegmentGone(c: Settings, r: Recorder)
    requires Inv(c, r) && (r.current.Some? ==> WholeParts(r.current.value) == [])
    ensures Inv(c, r.(current := None))
    ensures forall t :: AllOf(r.(current := None), t) == AllOf(r, t)
    ensures AllParts(r.(current := None)) == AllParts(r)
  {
    hide FilesOf, FileParts, Timeline, Continues, Expected, Sorted, Wrap32;
    var r' := r.(current := None);
    forall t
      ensures AllOf(r', t) == AllOf(r, t)
    {
    }
    forall t | 0 <= t < |c.video|
      ensures Conserved(r', t) && Timelines(r', t)
    {
      assert Conserved(r, t) && Timelines(r, t);
    }
    assert AllParts(r') == AllParts(r);
  }

  lemma CloseKeeps(c: Settings, r: Recorder)
    requires Inv(c, r)
    ensures Inv(c, Close(r)) && Close(r).current.None?
    ensures forall t :: AllOf(Close(r), t) == AllOf(r, t)
    ensures AllParts(Close(r)) == AllParts(r)
  {
    hide Inv, AllOf, AllParts;
    if r.current.Some? && WholeParts(r.current.value) != [] {
      CutKeeps(c, r, 0);
      EmptySegmentGone(c, CutAt(r, 0));
      forall t
        ensures AllOf(Close(r), t) == AllOf(r, t)
      {
        CutOf(r, 0, t);
      }
      CutOf(r, 0, 0);
    } else {
      EmptySegmentGone(c, r);
    }
  }

  // Every file has a part.
  ghost predicate FilesHaveParts(r: Recorder) {
    forall i :: 0 <= i < |r.files| ==> r.files[i].parts != []
  }

  lemma PushMakesNoEmptyFile(c: Settings, r: Recorder, t: nat, sample: Sample)
    requires Shaped(c, r) && t < |c.video| && InOrder(r, t, sample) && FilesHaveParts(r)
    ensures FilesHaveParts(Push(c, r, t, sample))
  {
    hide SegmentRecord;
    var r1 := Lookahead(c, r, t, sample);
    if r.pending[t].Some? && !IsDropped(r1, r.pending[t].value) {
      var x := Store(r.pending[t].value, sample);
      SegmentRecordParts(OpenSegment(r1, x.sample), c.partDuration, r1.nextSequenceNumber, t, x);
    }
  }

  // --- Runs ------------------------------------------------------------------------------------

  datatype Event = Event(track: nat, sample: Sample)

  // Events on existing tracks, in decoding order on each.
  predicate Legal(c: Settings, r: Recorder, events: seq<Event>)
    requires Shaped(c, r)
    decreases |events|
  {
    events == [] || (
      && events[0].track < |c.video|
      && InOrder(r, events[0].track, events[0].sample)
      && Legal(c, Push(c, r, events[0].track, events[0].sample), events[1..]))
  }

  function After(c: Settings, r: Recorder, events: seq<Event>): Recorder
    requires Shaped(c, r) && Legal(c, r, events)
    decreases |events|
  {
    if events == [] then r else After(c, Push(c, r, events[0].track, events[0].sample), events[1..])
  }

  // The samples of one track among the events.
  function Of(events: seq<Event>, t: nat): seq<Sample> {
    if events == [] then [] else (if events[0].track == t then [events[0].sample] else []) + Of(events[1..], t)
  }

  lemma {:induction false} RunKeeps(c: Settings, r: Recorder, events: seq<Event>)
    requires Inv(c, r) && Legal(c, r, events)
    ensures Inv(c, After(c, r, events))
    ensures forall t :: 0 <= t < |c.video| ==> After(c, r, events).pushed[t] == r.pushed[t] + Of(events, t)
    ensures FilesHaveParts(r) ==> FilesHaveParts(After(c, r, events))
    decreases |events|
  {
    hide Numbered, Conserved, Timelines, FilesHaveParts;
    if events != [] {
      var e := events[0];
      PushKeeps(c, r, e.track, e.sample);
      if FilesHaveParts(r) {
        PushMakesNoEmptyFile(c, r, e.track, e.sample);
      }
      RunKeeps(c, Push(c, r, e.track, e.sample), events[1..]);
    }
  }

  // Conservation over a whole recording: in the closed files every track holds the pushed samples that were
  // not dropped, in push order, each once; only the last one, still pending, is missing.
  lemma RecordingConserves(c: Settings, events: seq<Event>, t: nat)
    requires Legal(c, NewRecorder(c), events) && t < |c.video|
    ensures var r := Close(After(c, NewRecorder(c), events));
      && |r.pushed| == |r.fates| == |c.video| && r.pushed[t] == Of(events, t)
      && Sorted(r.pushed[t]) && |r.fates[t]| == (if r.pushed[t] == [] then 0 else |r.pushed[t]| - 1)
      && FilesOf(r.files, t) == Expected(Of(events, t), r.fates[t])
      && (forall i :: 0 <= i < |r.fates[t]| && r.fates[t][i].Dropped? ==> Of(events, t)[i].dts < r.fates[t][i].start)
      && (forall i :: 0 <= i < |FileParts(r.files)| ==> FileParts(r.files)[i].sequenceNumber == Wrap32(i))
      && FilesHaveParts(r)
  {
    hide NewRecorder, Close, After, Legal, Timelines, Wrap32, Expected, Sorted, FilesHaveParts, FilesOf, FileParts, Inv;
    NewRecorderInv(c);
    NewRecorderIsEmpty(c);
    RunKeeps(c, NewRecorder(c), events);
    var r0 := After(c, NewRecorder(c), events);
    CloseKeeps(c, r0);
    CloseMakesNoEmptyFile(r0);
    assert Of(events, t) == [] + Of(events, t);
    InvGives(c, Close(r0), t);
  }

  lemma NewRecorderIsEmpty(c: Settings)
    ensures FilesHaveParts(NewRecorder(c)) && |NewRecorder(c).pushed| == |c.video|
    ensures forall t :: 0 <= t < |c.video| ==> NewRecorder(c).pushed[t] == []
  {
  }

  lemma CloseMakesNoEmptyFile(r: Recorder)
    ensures FilesHaveParts(r) ==> FilesHaveParts(Close(r))
    ensures Close(r).pushed == r.pushed
  {
  }

  // What the invariant says when no segment is open.
  lemma InvGives(c: Settings, r: Recorder, t: nat)
    requires Inv(c, r) && t < |c.video| && r.current.None?
    ensures |r.pushed| == |r.fates| == |c.video|
    ensures Sorted(r.pushed[t]) && |r.fates[t]| == (if r.pushed[t] == [] then 0 else |r.pushed[t]| - 1)
    ensures FilesOf(r.files, t) == Expected(r.pushed[t], r.fates[t])
    ensures forall i :: 0 <= i < |r.fates[t]| && r.fates[t][i].Dropped? ==> r.pushed[t][i].dts < r.fates[t][i].start
    ensures forall i :: 0 <= i < |FileParts(r.files)| ==> FileParts(r.files)[i].sequenceNumber == Wrap32(i)
  {
    hide FilesOf, FileParts, Expected, Wrap32;
    assert Conserved(r, t) && Numbered(r);
    assert FilesOf(r.files, t) == AllOf(r, t) && FileParts(r.files) == AllParts(r);
  }
}
