/** Where a recording with one video track is cut, whichever track opened the segment. */
module RecordCuts {
  import opened Wrappers
  import opened RecordModel
  import opened RecordInvariant
  import opened RecordTimeline

  // A segment is open and the video track has been seen.
  ghost predicate Open(c: Settings, r: Recorder, v: nat) {
    SingleVideo(c, v) && Shaped(c, r) && r.hasVideo && r.current.Some?
  }

  // A video sample that comes after `pending` cuts the segment that started at `start`: it is a random access
  // point late enough, and the sample before it is recorded and not dropped.
  predicate CutsOpen(c: Settings, start: nat, pending: Option<Sample>, sample: Sample) {
    pending.Some? && start <= pending.value.dts && CutsAt(c, start, sample)
  }

  // Other tracks never cut.
  lemma OthersNeverCut(c: Settings, r: Recorder, v: nat, t: nat, sample: Sample)
    requires Open(c, r, v) && t < |c.video| && t != v && InOrder(r, t, sample)
    ensures var r' := Push(c, r, t, sample);
      && Open(c, r', v)
      && r'.files == r.files && r'.current.value.startDTS == r.current.value.startDTS
      && r'.pending[v] == r.pending[v]
  {
    hide SegmentRecord;
    var r1 := Lookahead(c, r, t, sample);
    if r.pending[t].Some? && !IsDropped(r1, r.pending[t].value) {
      SegmentRecordParts(r.current.value, c.partDuration, r1.nextSequenceNumber, t, Store(r.pending[t].value, sample));
    }
  }

  // The video track cuts exactly at those samples, and the next segment starts there.
  lemma VideoCutsOpen(c: Settings, r: Recorder, v: nat, sample: Sample)
    requires Open(c, r, v) && InOrder(r, v, sample)
    ensures var r', start := Push(c, r, v, sample), r.current.value.startDTS;
      && Open(c, r', v) && r'.pending[v] == Some(sample)
      && (CutsOpen(c, start, r.pending[v], sample) ==>
            && |r'.files| == |r.files| + 1 && r'.files[..|r.files|] == r.files
            && r'.files[|r.files|].startDTS == start && r'.current.value.startDTS == sample.dts)
      && (!CutsOpen(c, start, r.pending[v], sample) ==>
            r'.files == r.files && r'.current.value.startDTS == start)
  {
    hide SegmentRecord, WholeParts;
    var r1 := Lookahead(c, r, v, sample);
    if r.pending[v].Some? && !IsDropped(r1, r.pending[v].value) {
      SegmentRecordParts(r.current.value, c.partDuration, r1.nextSequenceNumber, v, Store(r.pending[v].value, sample));
    }
  }

  // Where a reader of the video samples alone would cut.
  function Cuts(c: Settings, start: nat, samples: seq<Sample>): seq<nat>
    decreases |samples|
  {
    if samples == [] then []
    else if CutsAt(c, start, samples[0]) then [samples[0].dts] + Cuts(c, samples[0].dts, samples[1..])
    else Cuts(c, start, samples[1..])
  }

  // Where the files start.
  function FileStarts(files: seq<Segment>): seq<nat> {
    seq(|files|, i requires 0 <= i < |files| => files[i].startDTS)
  }

  // The starts of the segments to come, from the video samples alone.
  function OpenCuts(c: Settings, start: nat, pending: Option<Sample>, samples: seq<Sample>): seq<nat>
    decreases |samples|
  {
    if samples == [] then []
    else if CutsOpen(c, start, pending, samples[0]) then
      [samples[0].dts] + OpenCuts(c, samples[0].dts, Some(samples[0]), samples[1..])
    else OpenCuts(c, start, Some(samples[0]), samples[1..])
  }

  ghost predicate OpenStep(c: Settings, r: Recorder, v: nat, e: Event, r': Recorder)
    requires v < |r.pending| && v < |r'.pending|
  {
    && r.current.Some? && r'.current.Some?
    && r'.pending[v] == (if e.track == v then Some(e.sample) else r.pending[v])
    && if e.track == v && CutsOpen(c, r.current.value.startDTS, r.pending[v], e.sample) then
      && |r'.files| == |r.files| + 1 && r'.files[..|r.files|] == r.files
      && r'.files[|r.files|].startDTS == r.current.value.startDTS
      && r'.current.value.startDTS == e.sample.dts
    else
      r'.files == r.files && r'.current.value.startDTS == r.current.value.startDTS
  }

  lemma PushIsOpenStep(c: Settings, r: Recorder, v: nat, e: Event)
    requires Open(c, r, v) && e.track < |c.video| && InOrder(r, e.track, e.sample)
    ensures Open(c, Push(c, r, e.track, e.sample), v)
    ensures OpenStep(c, r, v, e, Push(c, r, e.track, e.sample))
  {
    hide Push, CutsOpen;
    if e.track == v {
      VideoCutsOpen(c, r, v, e.sample);
    } else {
      OthersNeverCut(c, r, v, e.track, e.sample);
    }
  }

  lemma OpenStepStarts(c: Settings, r: Recorder, v: nat, e: Event, r1: Recorder, events: seq<Event>)
    requires v < |r.pending| && v < |r1.pending|
    requires events != [] && events[0] == e && OpenStep(c, r, v, e, r1)
    ensures FileStarts(r1.files) + [r1.current.value.startDTS]
         + OpenCuts(c, r1.current.value.startDTS, r1.pending[v], Of(events[1..], v))
         == FileStarts(r.files) + [r.current.value.startDTS]
         + OpenCuts(c, r.current.value.startDTS, r.pending[v], Of(events, v))
  {
    hide CutsOpen;
    var rest := Of(events[1..], v);
    if e.track == v {
      assert Of(events, v) == [e.sample] + rest;
      assert ([e.sample] + rest)[1..] == rest;
      if CutsOpen(c, r.current.value.startDTS, r.pending[v], e.sample) {
        assert FileStarts(r1.files) == FileStarts(r.files) + [r.current.value.startDTS];
      }
    } else {
      assert Of(events, v) == rest;
    }
  }

  // Over any run, whichever track opened the segment and whatever the other tracks do: the segments start
  // exactly at the video samples that cut, each decided by the samples of the video track alone.
  lemma {:induction false} SegmentsFollowCuts(c: Settings, r: Recorder, v: nat, events: seq<Event>)
    requires Open(c, r, v) && Legal(c, r, events)
    ensures var r' := After(c, r, events);
      && Open(c, r', v)
      && FileStarts(r'.files) + [r'.current.value.startDTS]
         == FileStarts(r.files) + [r.current.value.startDTS]
            + OpenCuts(c, r.current.value.startDTS, r.pending[v], Of(events, v))
    decreases |events|
  {
    hide Push, InOrder, CutsOpen, OpenStep, FileStarts;
    if events != [] {
      var e := events[0];
      var r1 := Push(c, r, e.track, e.sample);
      PushIsOpenStep(c, r, v, e);
      SegmentsFollowCuts(c, r1, v, events[1..]);
      OpenStepStarts(c, r, v, e, r1, events);
    }
  }

  // --- When nothing is dropped -----------------------------------------------------------------

  // Samples in decoding order after a given one.
  predicate Follow(p: Sample, samples: seq<Sample>)
    decreases |samples|
  {
    samples == [] || (p.dts <= samples[0].dts && Follow(samples[0], samples[1..]))
  }

  lemma {:induction false} LegalFollows(c: Settings, r: Recorder, v: nat, events: seq<Event>, p: Sample)
    requires Shaped(c, r) && v < |c.video| && Legal(c, r, events) && r.pending[v] == Some(p)
    ensures Follow(p, Of(events, v))
    decreases |events|
  {
    if events != [] {
      var e := events[0];
      var r1 := Push(c, r, e.track, e.sample);
      var rest := Of(events[1..], v);
      assert r1.pending == r.pending[e.track := Some(e.sample)];
      hide Push;
      LegalFollows(c, r1, v, events[1..], if e.track == v then e.sample else p);
      assert Of(events, v) == if e.track == v then [e.sample] + rest else rest;
      assert ([e.sample] + rest)[1..] == rest;
    }
  }

  // From a video sample that is not before the start on, none is dropped, and every random access point late
  // enough cuts.
  lemma {:induction false} CutsWithoutDrops(c: Settings, start: nat, p: Sample, samples: seq<Sample>)
    requires start <= p.dts && Follow(p, samples)
    ensures OpenCuts(c, start, Some(p), samples) == Cuts(c, start, samples)
    decreases |samples|
  {
    if samples != [] {
      var s := samples[0];
      CutsWithoutDrops(c, if CutsAt(c, start, s) then s.dts else start, s, samples[1..]);
    }
  }

  // So once a segment starts with video, the segments start where a reader of the video samples alone would
  // cut, and each file made starts with its video sample.
  lemma SegmentsFollowVideo(c: Settings, r: Recorder, v: nat, events: seq<Event>)
    requires SingleVideo(c, v) && Led(c, r, v) && Legal(c, r, events)
    ensures var r' := After(c, r, events);
      && Led(c, r', v)
      && |r.files| <= |r'.files| && r'.files[..|r.files|] == r.files
      && FileStarts(r'.files) + [r'.current.value.startDTS]
         == FileStarts(r.files) + [r.current.value.startDTS] + Cuts(c, r.current.value.startDTS, Of(events, v))
      && forall i :: |r.files| <= i < |r'.files| ==>
           SegmentOf(r'.files[i], v) != [] && SegmentOf(r'.files[i], v)[0].sample.dts == r'.files[i].startDTS
  {
    hide SegmentOf, FileStarts;
    FilesStartWithVideo(c, r, v, events);
    SegmentsFollowCuts(c, r, v, events);
    LegalFollows(c, r, v, events, r.pending[v].value);
    CutsWithoutDrops(c, r.current.value.startDTS, r.pending[v].value, Of(events, v));
  }
}
