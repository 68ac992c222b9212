/** The fMP4 recorder as the server runs it: tracks, segments and parts updated in place. */
module Recorder {
  import opened Wrappers
  import opened ByteStreams
  import opened RecordModel
  import opened RecordInvariant

  class PartWriter {
    const sequenceNumber: uint32
    const startDTS: nat
    var endDTS: nat
    var partTracks: map<nat, PartTrack>

    function View(): Part
      reads this
    {
      Part(sequenceNumber, startDTS, endDTS, partTracks)
    }

    constructor (sequenceNumber: uint32, startDTS: nat)
      ensures View() == Part(sequenceNumber, startDTS, 0, map[])
    {
      this.sequenceNumber, this.startDTS, endDTS, partTracks := sequenceNumber, startDTS, 0, map[];
    }

    method Record(track: nat, segmentStart: nat, x: Stored)
      requires segmentStart <= x.sample.dts
      modifies this
      ensures View() == PartRecord(old(View()), track, segmentStart, x)
    {
      if track !in partTracks {
        partTracks := partTracks[track := PartTrack(Ticks(x.sample.dts - segmentStart), [])];
      }
      var partTrack := partTracks[track];
      partTracks := partTracks[track := partTrack.(samples := partTrack.samples + [x])];
      endDTS := x.sample.dts;
    }

    function Duration(): int
      reads this
    {
      endDTS - startDTS
    }
  }

  class SegmentWriter {
    const f: Format
    const startDTS: nat
    var curPart: PartWriter?
    // the parts in the file
    var written: seq<Part>

    function View(): Segment
      reads this, curPart
    {
      Segment(startDTS, written, if curPart == null then None else Some(curPart.View()))
    }

    constructor (f: Format, startDTS: nat)
      ensures this.f == f && View() == Segment(startDTS, [], None) && curPart == null
    {
      this.f, this.startDTS, curPart, written := f, startDTS, null, [];
    }

    method Close()
      modifies this
      ensures View() == SegmentClose(old(View()))
    {
      if curPart != null {
        written := written + [curPart.View()];
        curPart := null;
      }
    }

    method Record(track: nat, x: Stored)
      requires startDTS <= x.sample.dts
      modifies this, curPart, f`nextSequenceNumber
      ensures fresh(curPart) || curPart == old(curPart)
      ensures View() == SegmentRecord(old(View()), f.settings.partDuration, old(f.nextSequenceNumber), track, x)
      ensures f.nextSequenceNumber == NumberAfter(old(View()), f.settings.partDuration, old(f.nextSequenceNumber))
    {
      if curPart == null {
        curPart := new PartWriter(f.nextSequenceNumber, x.sample.dts);
        f.nextSequenceNumber := Wrap32(f.nextSequenceNumber + 1);
      } else if curPart.Duration() >= f.settings.partDuration {
        written := written + [curPart.View()];
        curPart := new PartWriter(f.nextSequenceNumber, x.sample.dts);
        f.nextSequenceNumber := Wrap32(f.nextSequenceNumber + 1);
      }
      curPart.Record(track, startDTS, x);
    }
  }

  class Format {
    const settings: Settings
    var tracks: seq<Track>
    var hasVideo: bool
    var currentSegment: SegmentWriter?
    var nextSequenceNumber: uint32
    // the closed segments
    var files: seq<Segment>
    ghost var model: RecordModel.Recorder

    ghost function Current(): Option<Segment>
      reads `currentSegment, currentSegment, if currentSegment == null then {} else {currentSegment.curPart}
    {
      if currentSegment == null then None else Some(currentSegment.View())
    }

    // The fields besides the samples waiting in the tracks.
    ghost predicate Agrees(m: RecordModel.Recorder)
      reads `hasVideo, `nextSequenceNumber, `files, `currentSegment, currentSegment, if currentSegment == null then {} else {currentSegment.curPart}
    {
      && hasVideo == m.hasVideo && nextSequenceNumber == m.nextSequenceNumber && files == m.files
      && (currentSegment != null ==> currentSegment.f == this)
      && Current() == m.current
    }

    ghost predicate TracksAgree(m: RecordModel.Recorder)
      reads `tracks, tracks
    {
      && |tracks| == |settings.video| == |m.pending|
      && forall i :: 0 <= i < |tracks| ==>
           tracks[i].id == i && tracks[i].f == this && tracks[i].nextSample == m.pending[i]
    }

    ghost predicate Valid()
      reads this, tracks, currentSegment, if currentSegment == null then {} else {currentSegment.curPart}
    {
      Inv(settings, model) && Agrees(model) && TracksAgree(model)
    }

    constructor (settings: Settings)
      ensures this.settings == settings && Valid() && model == NewRecorder(settings)
      ensures fresh(tracks) && currentSegment == null
    {
      this.settings := settings;
      tracks, hasVideo, currentSegment, nextSequenceNumber, files := [], false, null, 0, [];
      model := NewRecorder(settings);
      new;
      while |tracks| < |settings.video|
        invariant |tracks| <= |settings.video| && fresh(tracks)
        invariant model == NewRecorder(settings) && Agrees(model) && currentSegment == null
        invariant forall i :: 0 <= i < |tracks| ==>
          tracks[i].id == i && tracks[i].f == this && tracks[i].nextSample == None
      {
        var track := new Track(this, |tracks|);
        tracks := tracks + [track];
      }
      NewRecorderInv(settings);
    }

    // The sample goes to the open segment, or to a new one that starts with it. m is the state so far.
    method Keep(ghost m: RecordModel.Recorder, track: nat, x: Stored)
      requires Agrees(m) && track < |m.fates| && !IsDropped(m, x.sample)
      modifies `currentSegment, `nextSequenceNumber
      modifies currentSegment, if currentSegment == null then {} else {currentSegment.curPart}
      ensures Agrees(RecordModel.Keep(settings, m, track, x))
      ensures currentSegment != null
      ensures fresh(currentSegment) || currentSegment == old(currentSegment)
    {
      hide SegmentRecord, NumberAfter;
      if currentSegment == null {
        currentSegment := new SegmentWriter(this, x.sample.dts);
      }
      assert currentSegment.View() == OpenSegment(m, x.sample);
      currentSegment.Record(track, x);
    }

    method Cut(ghost m: RecordModel.Recorder, dts: nat)
      requires Agrees(m) && currentSegment != null
      modifies `currentSegment, `files, currentSegment
      ensures Agrees(CutAt(m, dts))
    {
      currentSegment.Close();
      files := files + [currentSegment.View()];
      currentSegment := new SegmentWriter(this, dts);
    }

    // The sample p of a track is dropped or recorded now that the next one has come.
    method Settle(ghost m: RecordModel.Recorder, track: nat, p: Sample, next: Sample)
      requires Agrees(m) && Shaped(settings, m) && track < |settings.video| && p.dts <= next.dts
      modifies `currentSegment, `nextSequenceNumber, `files
      modifies currentSegment, if currentSegment == null then {} else {currentSegment.curPart}
      ensures Agrees(RecordModel.Settle(settings, m, track, p, next))
    {
      hide SegmentRecord, NumberAfter;
      if currentSegment != null && p.dts < currentSegment.startDTS {
        return;
      }
      Keep(m, track, Store(p, next));
      if (!hasVideo || settings.video[track])
         && next.sync
         && next.dts - currentSegment.startDTS >= settings.segmentDuration {
        Cut(RecordModel.Keep(settings, m, track, Store(p, next)), next.dts);
      }
    }

    method Close()
      requires Valid()
      modifies this, currentSegment
      ensures Valid() && model == RecordModel.Close(old(model)) && tracks == old(tracks) && currentSegment == null
    {
      CloseKeeps(settings, model);
      if currentSegment != null {
        currentSegment.Close();
        // the file is created with its first part
        if currentSegment.written != [] {
          files := files + [currentSegment.View()];
        }
        currentSegment := null;
      }
      model := RecordModel.Close(model);
    }
  }

  class Track {
    const f: Format
    const id: nat
    var nextSample: Option<Sample>

    constructor (f: Format, id: nat)
      ensures this.f == f && this.id == id && nextSample == None
    {
      this.f, this.id, nextSample := f, id, None;
    }

    // The sample becomes the one waiting; the one before it comes out.
    method Swap(ghost m: RecordModel.Recorder, sample: Sample) returns (previous: Option<Sample>)
      requires f.Agrees(m) && f.TracksAgree(m) && Shaped(f.settings, m)
      requires id < |f.tracks| && f.tracks[id] == this
      modifies `nextSample, f`hasVideo
      ensures previous == m.pending[id]
      ensures f.Agrees(Lookahead(f.settings, m, id, sample))
      ensures f.TracksAgree(Lookahead(f.settings, m, id, sample))
    {
      if f.settings.video[id] {
        f.hasVideo := true;
      }
      previous := nextSample;
      nextSample := Some(sample);
    }

    method Record(sample: Sample)
      requires f.Valid() && id < |f.tracks| && f.tracks[id] == this
      requires nextSample.Some? ==> nextSample.value.dts <= sample.dts
      modifies this, f, f.currentSegment, if f.currentSegment == null then {} else {f.currentSegment.curPart}
      ensures f.Valid() && f.tracks == old(f.tracks)
      ensures f.model == Push(f.settings, old(f.model), id, sample)
    {
      ghost var c, m := f.settings, f.model;
      PushKeeps(c, m, id, sample);
      assert Shaped(c, m) && f.Agrees(m) && f.TracksAgree(m);
      f.model := Push(c, m, id, sample);
      assert f.Agrees(m) && f.TracksAgree(m);
      hide Inv, RecordModel.Settle, Format.Agrees;
      var previous := Swap(m, sample);
      assert f.TracksAgree(f.model);
      assert Shaped(c, Lookahead(c, m, id, sample));
      hide Format.TracksAgree, Lookahead;
      if previous != None {
        f.Settle(Lookahead(c, m, id, sample), id, previous.value, sample);
      }
      assert f.Agrees(f.model);
    }
  }
}
