/** Timing of a recording: drift inside a part, parts that never overlap, and where segments are cut. */
module RecordTimeline {
  import opened Wrappers
  import opened ByteStreams
  import opened Mp4Time
  import opened RecordModel
  import opened RecordInvariant

  // --- Drift -----------------------------------------------------------------------------------

  function Sum(samples: seq<Stored>): nat {
    if samples == [] then 0 else Sum(samples[..|samples| - 1]) + samples[|samples| - 1].duration
  }

  // A gap that does not fit the 32 bits of a duration: more than thirteen hours at 90 kHz.
  ghost predicate Wide(x: Stored) {
    x.sample.dts <= x.until && Ticks(x.until - x.sample.dts) >= 0x1_0000_0000
  }

  // The ticks lost by cutting durations to 32 bits.
  ghost function Lost(samples: seq<Stored>): int {
    if samples == [] then 0
    else
      var x := samples[|samples| - 1];
      Lost(samples[..|samples| - 1]) + (if x.sample.dts <= x.until then Ticks(x.until - x.sample.dts) - x.duration else 0)
  }

  lemma WrapLoses(n: nat)
    ensures Wrap32(n) <= n
    ensures Wrap32(n) == n <==> n < 0x1_0000_0000
    ensures n >= 0x1_0000_0000 ==> n - Wrap32(n) >= 0x1_0000_0000
  {
  }

  lemma ChainSplit(a: seq<Stored>, b: seq<Stored>)
    requires Chain(a + b)
    ensures Chain(a) && Chain(b)
    ensures a != [] && b != [] ==> a[|a| - 1].until == b[0].sample.dts
  {
    hide Ticks, Wrap32;
    var s := a + b;
    assert forall i :: 0 <= i < |a| ==> s[i] == a[i];
    assert forall i :: 0 <= i < |b| ==> s[|a| + i] == b[i];
    forall i | 0 <= i < |b| - 1
      ensures b[i].until == b[i + 1].sample.dts
    {
      assert s[|a| + i].until == s[|a| + i + 1].sample.dts;
    }
  }

  lemma ChainLast(samples: seq<Stored>)
    requires Chain(samples) && samples != []
    ensures var front, x := samples[..|samples| - 1], samples[|samples| - 1];
      && Chain(front)
      && (front != [] ==> front[|front| - 1].until == x.sample.dts && front[0] == samples[0])
      && x.sample.dts <= x.until
      && x.duration == Wrap32(Ticks(x.until - x.sample.dts))
  {
    hide Ticks, Wrap32;
    var front, x := samples[..|samples| - 1], samples[|samples| - 1];
    assert samples == front + [x];
    ChainSplit(front, [x]);
  }

  lemma {:induction false} LostExactly(samples: seq<Stored>)
    requires Chain(samples)
    ensures Lost(samples) == 0 <==> forall i :: 0 <= i < |samples| ==> !Wide(samples[i])
    ensures Lost(samples) == 0 || Lost(samples) >= 0x1_0000_0000
  {
    hide Ticks, Chain, Wrap32;
    if samples != [] {
      var front, x := samples[..|samples| - 1], samples[|samples| - 1];
      ChainLast(samples);
      LostExactly(front);
      WrapLoses(Ticks(x.until - x.sample.dts));
      assert forall i :: 0 <= i < |front| ==> front[i] == samples[i];
    }
  }

  // Each sample rounds down its duration, so the recorded timeline falls behind by at most a tick a sample.
  lemma {:induction false} DriftIsRounding(start: nat, samples: seq<Stored>)
    requires Chain(samples) && samples != [] && start <= samples[0].sample.dts
    ensures samples[|samples| - 1].until >= start
    ensures 0 <= Ticks(samples[|samples| - 1].until - start)
                 - (Ticks(samples[0].sample.dts - start) + Sum(samples)) - Lost(samples) <= |samples|
  {
    hide Ticks, Chain, Wrap32;
    var front, x := samples[..|samples| - 1], samples[|samples| - 1];
    ChainLast(samples);
    if front != [] {
      DriftIsRounding(start, front);
    } else {
      assert Sum(front) == 0 && Lost(front) == 0;
    }
    assert (x.sample.dts - start) + (x.until - x.sample.dts) == x.until - start;
    TicksSum(x.sample.dts - start, x.until - x.sample.dts);
  }

  lemma TicksSum(a: nat, b: nat)
    ensures 0 <= Ticks(a + b) - Ticks(a) - Ticks(b) <= 1
  {
    TicksAdd(a, b, TIME_SCALE);
  }

  ghost function Drift(start: nat, track: PartTrack): int
    requires track.samples != [] && start <= track.samples[|track.samples| - 1].until
  {
    Ticks(track.samples[|track.samples| - 1].until - start) - (track.baseTime + Sum(track.samples))
  }

  // The timeline of a track in a part never overruns the next sample; and it falls behind by at most one
  // tick a sample exactly when no gap is too wide for a duration.
  lemma DriftIsBounded(start: nat, track: PartTrack)
    requires Based(start, track) && Chain(track.samples)
    ensures start <= track.samples[|track.samples| - 1].until
    ensures 0 <= Drift(start, track)
    ensures |track.samples| < 0x1_0000_0000 ==>
      (Drift(start, track) <= |track.samples| <==> forall x :: x in track.samples ==> !Wide(x))
  {
    hide Ticks;
    DriftIsRounding(start, track.samples);
    LostExactly(track.samples);
  }

  // --- Parts do not overlap --------------------------------------------------------------------

  lemma {:induction false} ChainSpan(samples: seq<Stored>)
    requires Chain(samples) && samples != []
    ensures samples[0].sample.dts <= samples[|samples| - 1].until
  {
    hide Ticks, Chain, Wrap32;
    ChainLast(samples);
    if |samples| > 1 {
      ChainSpan(samples[..|samples| - 1]);
    }
  }

  // A list of samples that comes to an end no later than another one does.
  ghost predicate EndsBy(a: seq<Stored>, b: seq<Stored>) {
    a != [] ==> b != [] && a[|a| - 1].until <= b[|b| - 1].until
  }

  lemma EndsBySum(a: seq<Stored>, b: seq<Stored>)
    requires Chain(a + b)
    ensures EndsBy(a, a + b) && EndsBy(b, a + b)
  {
    ChainSplit(a, b);
    if b != [] {
      ChainSpan(b);
    }
  }

  lemma {:induction false} PartInChain(ps: seq<Part>, t: nat, i: nat)
    requires Chain(PartsOf(ps, t)) && i < |ps|
    ensures Chain(PartOf(ps[i], t)) && EndsBy(PartOf(ps[i], t), PartsOf(ps, t))
  {
    hide Chain, PartOf;
    var n := |ps| - 1;
    var front, last := PartsOf(ps[..n], t), PartOf(ps[n], t);
    ChainSplit(front, last);
    EndsBySum(front, last);
    if i < n {
      PartInChain(ps[..n], t, i);
    }
  }

  lemma {:induction false} ChainOfPrefix(ps: seq<Part>, t: nat, k: nat)
    requires Chain(PartsOf(ps, t)) && k <= |ps|
    ensures Chain(PartsOf(ps[..k], t))
  {
    hide Chain, PartOf;
    if k < |ps| {
      var n := |ps| - 1;
      ChainSplit(PartsOf(ps[..n], t), PartOf(ps[n], t));
      ChainOfPrefix(ps[..n], t, k);
      assert ps[..n][..k] == ps[..k];
    } else {
      assert ps[..k] == ps;
    }
  }

  function EndOf(track: PartTrack): nat {
    track.baseTime + Sum(track.samples)
  }

  // In a segment, a part of a track ends before any later part of it begins.
  lemma PartsDoNotOverlap(s: Segment, t: nat, i: nat, j: nat)
    requires Timeline(s, t) && i < j < |WholeParts(s)|
    requires t in WholeParts(s)[i].tracks && t in WholeParts(s)[j].tracks
    ensures EndOf(WholeParts(s)[i].tracks[t]) <= WholeParts(s)[j].tracks[t].baseTime
  {
    hide Ticks, Chain, PartsOf;
    var ps := WholeParts(s);
    var a, b := ps[i].tracks[t], ps[j].tracks[t];
    ChainOfPrefix(ps, t, j + 1);
    assert ps[..j + 1] == ps[..j] + [ps[j]];
    PartsOfSnoc(ps[..j], ps[j], t);
    ChainSplit(PartsOf(ps[..j], t), PartOf(ps[j], t));
    PartInChain(ps[..j], t, i);
    assert a.samples[|a.samples| - 1].until <= b.samples[0].sample.dts;
    DriftIsBounded(s.startDTS, a);
    TicksOrder(a.samples[|a.samples| - 1].until - s.startDTS, b.samples[0].sample.dts - s.startDTS);
  }

  lemma TicksOrder(a: nat, b: nat)
    requires a <= b
    ensures Ticks(a) <= Ticks(b)
  {
    TicksMonotone(a, b, TIME_SCALE);
  }

  // A segment that starts at the first sample of a track gives it the offset zero.
  lemma FirstOffsetIsZero(s: Segment, t: nat, i: nat)
    requires Timeline(s, t) && i < |WholeParts(s)| && t in WholeParts(s)[i].tracks
    requires forall k :: 0 <= k < i ==> t !in WholeParts(s)[k].tracks
    requires SegmentOf(s, t) != [] && SegmentOf(s, t)[0].sample.dts == s.startDTS
    ensures WholeParts(s)[i].tracks[t].baseTime == 0
  {
    var ps := WholeParts(s);
    NothingBefore(ps[..i], t);
    FirstOfParts(ps, t, i);
  }

  lemma {:induction false} NothingBefore(ps: seq<Part>, t: nat)
    requires forall p :: p in ps ==> t !in p.tracks
    ensures PartsOf(ps, t) == []
  {
    if ps != [] {
      NothingBefore(ps[..|ps| - 1], t);
    }
  }

  lemma {:induction false} FirstOfParts(ps: seq<Part>, t: nat, i: nat)
    requires i < |ps| && PartsOf(ps[..i], t) == [] && PartOf(ps[i], t) != []
    ensures PartsOf(ps, t) != [] && PartsOf(ps, t)[0] == PartOf(ps[i], t)[0]
  {
    hide PartOf;
    var n := |ps| - 1;
    if i < n {
      assert ps[..n][..i] == ps[..i];
      FirstOfParts(ps[..n], t, i);
    } else {
      assert PartsOf(ps, t) == PartOf(ps[i], t);
    }
  }

  // --- Segments of a recording with one video track --------------------------------------------

  predicate SingleVideo(c: Settings, v: nat) {
    v < |c.video| && forall u :: 0 <= u < |c.video| ==> (c.video[u] <==> u == v)
  }

  // The open segment starts with a video sample: the one pending, or the first one it holds.
  ghost predicate Led(c: Settings, r: Recorder, v: nat) {
    && Shaped(c, r) && v < |c.video|
    && r.hasVideo && r.current.Some? && r.pending[v].Some?
    && r.current.value.startDTS <= r.pending[v].value.dts
    && Starts(r.current.value, v, r.pending[v].value.dts)
  }

  // The first sample of a track in a segment, or the one to come, is at the start of the segment.
  ghost predicate Starts(s: Segment, v: nat, next: nat) {
    s.startDTS == if SegmentOf(s, v) == [] then next else SegmentOf(s, v)[0].sample.dts
  }

  // A video sample that is a random access point at least a segment duration after the start.
  predicate CutsAt(c: Settings, start: nat, sample: Sample) {
    sample.sync && sample.dts - start >= c.segmentDuration
  }

  lemma LedKeep(c: Settings, r: Recorder, v: nat, t: nat, x: Stored, next: nat)
    requires r.current.Some? && t < |r.fates| && !IsDropped(r, x.sample)
    requires Starts(r.current.value, v, if t == v then x.sample.dts else next)
    ensures Keep(c, r, t, x).current.Some?
    ensures Starts(Keep(c, r, t, x).current.value, v, next)
    ensures Keep(c, r, t, x).current.value.startDTS == r.current.value.startDTS
    ensures t == v ==> SegmentOf(Keep(c, r, t, x).current.value, v) != []
  {
    SegmentRecordOf(r.current.value, c.partDuration, r.nextSequenceNumber, t, x, v);
    SegmentRecordParts(r.current.value, c.partDuration, r.nextSequenceNumber, t, x);
  }

  // Other tracks neither cut the segment nor lose its lead.
  lemma OthersKeepLead(c: Settings, r: Recorder, v: nat, t: nat, sample: Sample)
    requires SingleVideo(c, v) && Led(c, r, v) && t < |c.video| && t != v && InOrder(r, t, sample)
    ensures var r' := Push(c, r, t, sample);
      Led(c, r', v) && r'.files == r.files && r'.current.value.startDTS == r.current.value.startDTS
  {
    hide SegmentRecord, SegmentOf;
    var r1 := Lookahead(c, r, t, sample);
    if r.pending[t].Some? {
      var x := Store(r.pending[t].value, sample);
      if !IsDropped(r1, x.sample) {
        LedKeep(c, r1, v, t, x, r.pending[v].value.dts);
      }
    }
  }

  lemma CloseKeepsOf(s: Segment, v: nat)
    ensures SegmentOf(SegmentClose(s), v) == SegmentOf(s, v)
  {
    CloseKeepsParts(s);
  }

  // The video track cuts it exactly at a random access point far enough from the start. The file it closes
  // starts with a video sample, and the next segment starts with the new one.
  lemma VideoCutsExactly(c: Settings, r: Recorder, v: nat, sample: Sample)
    requires SingleVideo(c, v) && Led(c, r, v) && InOrder(r, v, sample)
    ensures var r', start := Push(c, r, v, sample), r.current.value.startDTS;
      && Led(c, r', v)
      && (CutsAt(c, start, sample) ==>
            && |r'.files| == |r.files| + 1 && r'.files[..|r.files|] == r.files
            && r'.files[|r.files|].startDTS == start
            && SegmentOf(r'.files[|r.files|], v) != []
            && SegmentOf(r'.files[|r.files|], v)[0].sample.dts == start
            && r'.current.value.startDTS == sample.dts)
      && (!CutsAt(c, start, sample) ==> r'.files == r.files && r'.current.value.startDTS == start)
  {
    var r1 := Lookahead(c, r, v, sample);
    var x := Store(r.pending[v].value, sample);
    LedKeep(c, r1, v, v, x, sample.dts);
    var r2 := Keep(c, r1, v, x);
    CloseKeepsOf(r2.current.value, v);
    EmptyOf(sample.dts, v);
    hide SegmentRecord, SegmentOf;
  }

  // Over any run, whatever the other tracks do: the lead is kept, and each file made starts with its video
  // sample.
  lemma {:induction false} FilesStartWithVideo(c: Settings, r: Recorder, v: nat, events: seq<Event>)
    requires SingleVideo(c, v) && Led(c, r, v) && Legal(c, r, events)
    ensures var r' := After(c, r, events);
      && Led(c, r', v)
      && |r.files| <= |r'.files| && r'.files[..|r.files|] == r.files
      && forall i :: |r.files| <= i < |r'.files| ==>
           SegmentOf(r'.files[i], v) != [] && SegmentOf(r'.files[i], v)[0].sample.dts == r'.files[i].startDTS
    decreases |events|
  {
    hide Push, SegmentOf, Led, InOrder, CutsAt;
    LedHasSegment(c, r, v);
    if events != [] {
      var e := events[0];
      var r1 := Push(c, r, e.track, e.sample);
      LedStep(c, r, v, e);
      LedHasSegment(c, r1, v);
      FilesStartWithVideo(c, r1, v, events[1..]);
      assert After(c, r, events) == After(c, r1, events[1..]);
    }
  }

  lemma LedHasSegment(c: Settings, r: Recorder, v: nat)
    requires Led(c, r, v)
    ensures Shaped(c, r) && r.current.Some?
  {
  }

  lemma LedStep(c: Settings, r: Recorder, v: nat, e: Event)
    requires SingleVideo(c, v) && Led(c, r, v) && e.track < |c.video| && InOrder(r, e.track, e.sample)
    ensures Led(c, Push(c, r, e.track, e.sample), v) && LedOutcome(c, r, v, e, Push(c, r, e.track, e.sample))
  {
    if e.track == v {
      VideoCutsExactly(c, r, v, e.sample);
    } else {
      OthersKeepLead(c, r, v, e.track, e.sample);
    }
    hide Push, SegmentOf, CutsAt;
  }

  ghost predicate LedOutcome(c: Settings, r: Recorder, v: nat, e: Event, r': Recorder) {
    && r.current.Some? && r'.current.Some?
    && if e.track == v && CutsAt(c, r.current.value.startDTS, e.sample) then
      && |r'.files| == |r.files| + 1 && r'.files[..|r.files|] == r.files
      && r'.files[|r.files|].startDTS == r.current.value.startDTS
      && SegmentOf(r'.files[|r.files|], v) != []
      && SegmentOf(r'.files[|r.files|], v)[0].sample.dts == r.current.value.startDTS
      && r'.current.value.startDTS == e.sample.dts
    else
      r'.files == r.files && r'.current.value.startDTS == r.current.value.startDTS
  }

  // The lead begins when the video track opens the first segment, or cuts one.
  lemma LeadBegins(c: Settings, r: Recorder, v: nat, sample: Sample)
    requires SingleVideo(c, v) && Shaped(c, r) && r.hasVideo && r.pending[v].Some? && InOrder(r, v, sample)
    ensures r.current.None? || |Push(c, r, v, sample).files| > |r.files| ==> Led(c, Push(c, r, v, sample), v)
  {
    hide SegmentRecord, SegmentOf, WholeParts, CutsAt;
    var r1 := Lookahead(c, r, v, sample);
    var x := Store(r.pending[v].value, sample);
    EmptyOf(sample.dts, v);
    EmptyOf(x.sample.dts, v);
    if !IsDropped(r1, x.sample) {
      var r2 := r1.(current := Some(OpenSegment(r1, x.sample)));
      assert Keep(c, r1, v, x) == Keep(c, r2, v, x);
      if r.current.None? {
        LedKeep(c, r2, v, v, x, sample.dts);
      }
    }
  }

  // In a segment another track opened, the video track still cuts at such a point, unless the sample before
  // it was dropped: the check is made only after recording a sample.
  lemma CutUnlessDropped(c: Settings, r: Recorder, v: nat, sample: Sample)
    requires SingleVideo(c, v) && Shaped(c, r) && r.hasVideo && r.current.Some? && InOrder(r, v, sample)
    ensures |Push(c, r, v, sample).files| == |r.files| + 1
       <==> r.pending[v].Some? && CutsAt(c, r.current.value.startDTS, sample)
            && r.current.value.startDTS <= r.pending[v].value.dts
  {
    hide SegmentRecord;
    if r.pending[v].Some? && !IsDropped(r, r.pending[v].value) {
      var r1 := Lookahead(c, r, v, sample);
      SegmentRecordParts(r.current.value, c.partDuration, r1.nextSequenceNumber, v,
                         Store(r.pending[v].value, sample));
    }
  }

  // Such a recording: audio opens the segment at 100; video at 50 is dropped when video at 150 arrives, and
  // that random access point, past the segment duration of 10, does not cut.
  lemma LateVideoMissesCut()
    ensures
      var c := Settings([false, true], 1000, 10);
      var events := [Event(0, Sample(100, true, 0)), Event(0, Sample(105, true, 1)), Event(1, Sample(50, true, 2)),
                     Event(1, Sample(150, true, 3))];
      && Legal(c, NewRecorder(c), events)
      && After(c, NewRecorder(c), events).files == []
      && After(c, NewRecorder(c), events).current.Some?
      && CutsAt(c, After(c, NewRecorder(c), events).current.value.startDTS, events[3].sample)
  {
    hide Ticks, Wrap32, PartRecord;
    var c := Settings([false, true], 1000, 10);
    var e0, e1 := Event(0, Sample(100, true, 0)), Event(0, Sample(105, true, 1));
    var e2, e3 := Event(1, Sample(50, true, 2)), Event(1, Sample(150, true, 3));
    var r0 := NewRecorder(c);
    var r1 := Push(c, r0, 0, e0.sample);
    var r2 := Push(c, r1, 0, e1.sample);
    assert r2.current.Some? && r2.current.value.startDTS == 100 && r2.files == [] && Shaped(c, r2) && r2.pending[1] == None;
    var r3 := Push(c, r2, 1, e2.sample);
    var r4 := Push(c, r3, 1, e3.sample);
    assert r4.files == [] && r4.current == r2.current;
    assert Legal(c, r4, []) && After(c, r4, []) == r4;
    assert [e0, e1, e2, e3][1..] == [e1, e2, e3] && [e1, e2, e3][1..] == [e2, e3] && [e2, e3][1..] == [e3] && [e3][1..] == [];
    assert Legal(c, r3, [e3]) && After(c, r3, [e3]) == r4;
    assert Legal(c, r2, [e2, e3]) && After(c, r2, [e2, e3]) == r4;
    assert Legal(c, r1, [e1, e2, e3]) && After(c, r1, [e1, e2, e3]) == r4;
  }
}
