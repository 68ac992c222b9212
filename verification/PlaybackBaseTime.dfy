/** The base times a seek writes: those of the last samples, not of the first ones. */
module PlaybackBaseTime {
  import opened Wrappers
  import opened Mp4Time
  import opened PlaybackModel
  import opened PlaybackWindow

  // The samples of a part that are in the window.
  function Seen(t: Traf, min: nat, max: nat): seq<Timed> {
    Inside(Before(t.base, t.samples, max), min)
  }

  // The parts that have any.
  function Emitting(ts: seq<Traf>, min: nat, max: nat): (r: seq<Traf>)
    ensures forall t :: t in r ==> Seen(t, min, max) != []
  {
    if ts == [] then []
    else
      var t := ts[|ts| - 1];
      Emitting(ts[..|ts| - 1], min, max) + if Seen(t, min, max) != [] then [t] else []
  }

  // A part of the output made of these samples of the window.
  ghost predicate MadeOf(part: seq<OutTrack>, seen: seq<Timed>, min: nat) {
    seen != [] && |part| == 1 && BasedOnLast(part[0], seen, min)
  }

  ghost predicate AllMadeOf(written: seq<seq<OutTrack>>, ts: seq<Traf>, min: nat, max: nat) {
    && |written| == |ts|
    && forall i :: 0 <= i < |ts| ==> MadeOf(written[i], Seen(ts[i], min, max), min)
  }

  lemma OnePart(c: Scan, min: nat, max: nat, t: Traf)
    requires !c.done && t.samples != []
    ensures var c' := OnPart(c, min, max, [t]);
      && (t.base >= max ==> c'.done && c'.written == c.written)
      && (t.base < max ==> !c'.done)
      && (t.base < max && Seen(t, min, max) == [] ==> c'.written == c.written)
      && (t.base < max && Seen(t, min, max) != [] ==>
            |c'.written| == |c.written| + 1 && c'.written[..|c.written|] == c.written
            && MadeOf(c'.written[|c.written|], Seen(t, min, max), min))
  {
    var c0 := c.(outPart := []);
    assert [t][..0] == [];
    assert OnTrafs(c0, min, max, [t]) == OnTraf(c0, min, max, t);
    RunIsBasedOnLast(Run(t.base, false, OutTrack(t.id, 0, []), c.gop, c.started), min, max, t.samples);
    hide OnSamples, Inside, Before;
  }

  // After the part that ended the scan nothing is in the window any more.
  lemma NothingAfterEnd(ts: seq<Traf>, id: nat, min: nat, max: nat)
    requires SingleTrack(ts, id) && ts != [] && Scanned(Parts(ts[..|ts| - 1]), max) < |ts| - 1
    ensures Seen(ts[|ts| - 1], min, max) == []
  {
    hide Scanned;
    var front, t := ts[..|ts| - 1], ts[|ts| - 1];
    ScannedIs(front, max);
    var k := Scanned(Parts(front), max);
    SortedSplit(All(front), Timeline(t.base, t.samples));
    InAll(front, k);
    var x :| x in All(front) && x.time == front[k].base;
    assert Timeline(t.base, t.samples)[0].time == t.base;
  }

  lemma FrontIsSingle(ts: seq<Traf>, id: nat)
    requires SingleTrack(ts, id) && ts != []
    ensures SingleTrack(ts[..|ts| - 1], id)
  {
    var t := ts[|ts| - 1];
    SortedSplit(All(ts[..|ts| - 1]), Timeline(t.base, t.samples));
  }

  // The last part of a file adds a part to the output exactly when it has samples in the window.
  lemma LastPartWritten(ts: seq<Traf>, id: nat, min: nat, max: nat)
    requires SingleTrack(ts, id) && ts != []
    ensures var t := ts[|ts| - 1];
      var before, after := OnParts(Start, min, max, Parts(ts[..|ts| - 1])).written, OnParts(Start, min, max, Parts(ts)).written;
      if Seen(t, min, max) == [] then after == before
      else |after| == |before| + 1 && after[..|before|] == before && MadeOf(after[|before|], Seen(t, min, max), min)
  {
    hide OnPart, OnParts, Parts, Seen, MadeOf, Scanned;
    var front, t := ts[..|ts| - 1], ts[|ts| - 1];
    SingleTrackGives(ts, id);
    hide SingleTrack;
    FileIsTracked(Parts(front), min, max, id);
    OnLastPart(ts, min, max);
    var c := OnParts(Start, min, max, Parts(front));
    if c.done {
      NothingAfterEnd(ts, id, min, max);
      DoneDoesNothing(c, min, max, [t]);
    } else {
      OnePart(c, min, max, t);
      NothingPastEnd(t, min, max);
    }
  }

  lemma DoneDoesNothing(c: Scan, min: nat, max: nat, p: seq<Traf>)
    requires c.done
    ensures OnPart(c, min, max, p) == c
  {
  }

  lemma MadeOfOneMore(written: seq<seq<OutTrack>>, ts: seq<Traf>, min: nat, max: nat, written': seq<seq<OutTrack>>, t: Traf)
    requires AllMadeOf(written, ts, min, max)
    requires |written'| == |written| + 1 && written'[..|written|] == written
    requires MadeOf(written'[|written|], Seen(t, min, max), min)
    ensures AllMadeOf(written', ts + [t], min, max)
  {
    hide MadeOf, Seen;
    forall i | 0 <= i < |ts + [t]|
      ensures MadeOf(written'[i], Seen((ts + [t])[i], min, max), min)
    {
      if i < |ts| {
        assert written'[i] == written[i] && (ts + [t])[i] == ts[i];
      }
    }
  }

  // There is one written part for each part with samples in the window, with the base time of the last of them.
  lemma {:induction false} WrittenIsBasedOnLast(ts: seq<Traf>, id: nat, min: nat, max: nat)
    requires SingleTrack(ts, id)
    ensures AllMadeOf(OnParts(Start, min, max, Parts(ts)).written, Emitting(ts, min, max), min, max)
  {
    if ts != [] {
      hide OnParts, Parts, Seen, MadeOf, AllMadeOf, SingleTrack;
      var front, t := ts[..|ts| - 1], ts[|ts| - 1];
      FrontIsSingle(ts, id);
      WrittenIsBasedOnLast(front, id, min, max);
      LastPartWritten(ts, id, min, max);
      var before, after := OnParts(Start, min, max, Parts(front)).written, OnParts(Start, min, max, Parts(ts)).written;
      if Seen(t, min, max) != [] {
        MadeOfOneMore(before, Emitting(front, min, max), min, max, after, t);
      } else {
        assert Emitting(front, min, max) + [] == Emitting(front, min, max);
      }
    }
  }

  lemma NothingPastEnd(t: Traf, min: nat, max: nat)
    ensures t.base >= max ==> Seen(t, min, max) == []
  {
  }

  // The base time of each part a seek writes, for one track whose parts do not overlap: it is that of the last
  // sample of the part in the window, because the flag that should keep the first one is never set. It is that
  // of the first one exactly when both start together.
  lemma BaseTimesOfSeek(ts: seq<Traf>, id: nat, minTime: nat, maxTime: nat)
    requires SingleTrack(ts, id)
    ensures var min, max := DurationGoToMp4(minTime, TIME_SCALE), DurationGoToMp4(maxTime, TIME_SCALE);
      var out, from := SeekAndMux(Parts(ts), minTime, maxTime), Emitting(ts, min, max);
      && (out.Ok? <==> from != [])
      && (out.Ok? ==>
            && |out.value.1| == |from|
            && forall i :: 0 <= i < |from| ==>
                 var part, seen := out.value.1[i], Seen(from[i], min, max);
                 && |part| == 1 && seen != [] && seen[0].time >= min && seen[|seen| - 1].time >= min
                 && part[0].baseTime == seen[|seen| - 1].time - min
                 && (part[0].baseTime == seen[0].time - min <==> seen[|seen| - 1].time == seen[0].time))
  {
    hide DurationGoToMp4, DurationMp4ToGo, OnParts, SingleTrack, Inside, Emitting;
    var min, max := DurationGoToMp4(minTime, TIME_SCALE), DurationGoToMp4(maxTime, TIME_SCALE);
    WrittenIsBasedOnLast(ts, id, min, max);
    var from, written := Emitting(ts, min, max), OnParts(Start, min, max, Parts(ts)).written;
    forall i | 0 <= i < |from|
      ensures var seen := Seen(from[i], min, max);
        seen != [] && seen[0].time >= min && seen[|seen| - 1].time >= min
    {
      assert from[i] in from;
      InsideIsInside(Before(from[i].base, from[i].samples, max), min);
    }
    assert forall i :: 0 <= i < |from| ==> MadeOf(written[i], Seen(from[i], min, max), min);
  }

  // A file of two samples, at 0 and 10, with the whole file in the window: the base time written is 10.
  lemma BaseTimeOfSecondSample(a: Sample, b: Sample)
    requires a.sync && b.sync && a.duration == b.duration == 10
    ensures var ts := [Traf(1, 0, [a, b])];
      && SingleTrack(ts, 1) && All(ts) == [Timed(0, a), Timed(10, b)]
      && SeekAndMux(Parts(ts), 0, SECOND).Ok?
      && SeekAndMux(Parts(ts), 0, SECOND).value.1 == [[OutTrack(1, 10, [a, b])]]
  {
    hide OnParts, Parts, All, SingleTrack, DurationGoToMp4, DurationMp4ToGo;
    TwoSamplesTimeline(a, b);
    TwoSamplesWritten(a, b, TIME_SCALE);
    TicksOfSecond();
  }

  lemma TicksOfSecond()
    ensures DurationGoToMp4(0, TIME_SCALE) == 0 && DurationGoToMp4(SECOND, TIME_SCALE) == TIME_SCALE
  {
    assert SECOND / SECOND == 1 && SECOND % SECOND == 0;
    assert 0 / SECOND == 0 && 0 % SECOND == 0;
  }

  lemma TwoSamplesTimeline(a: Sample, b: Sample)
    requires a.duration == 10 && b.duration == 10
    ensures var ts := [Traf(1, 0, [a, b])];
      SingleTrack(ts, 1) && All(ts) == [Timed(0, a), Timed(10, b)]
  {
    var t := Traf(1, 0, [a, b]);
    assert [a, b][1..] == [b] && [b][1..] == [];
    assert Timeline(20, []) == [];
    assert Timeline(10, [b]) == [Timed(10, b)];
    assert Timeline(0, [a, b]) == [Timed(0, a), Timed(10, b)];
    assert [t][..0] == [];
    assert All([t]) == [Timed(0, a), Timed(10, b)];
  }

  lemma TwoSamplesWritten(a: Sample, b: Sample, max: nat)
    requires a.sync && b.sync && a.duration == 10 && max > 10
    ensures OnParts(Start, 0, max, Parts([Traf(1, 0, [a, b])])).written == [[OutTrack(1, 10, [a, b])]]
  {
    var t := Traf(1, 0, [a, b]);
    TwoSamples(t, a, b, max);
    hide OnSamples, RunOf;
    assert Start.(outPart := []) == Start;
    assert Parts([t]) == [[t]];
    assert [[t]][..0] == [] && [t][..0] == [];
    assert OnParts(Start, 0, max, []) == Start;
    assert OnParts(Start, 0, max, [[t]]) == OnPart(Start, 0, max, [t]);
    assert OnTrafs(Start, 0, max, [t]) == OnTraf(Start, 0, max, t);
    assert OnTraf(Start, 0, max, t).outPart == [OutTrack(1, 10, [a, b])];
    assert Start.written + [[OutTrack(1, 10, [a, b])]] == [[OutTrack(1, 10, [a, b])]];
  }

  lemma TwoSamples(t: Traf, a: Sample, b: Sample, max: nat)
    requires a.sync && b.sync && a.duration == 10 && max > 10 && t == Traf(1, 0, [a, b])
    ensures RunOf(Start, 0, max, t).out == OutTrack(1, 10, [a, b])
  {
    var r0 := Run(0, false, OutTrack(1, 0, []), map[], {});
    assert [a, b][..1] == [a] && [a][..0] == [];
    assert OnSamples(r0, 0, max, [a]) == OnSample(r0, 0, max, a);
    assert OnSamples(r0, 0, max, [a, b]) == OnSample(OnSample(r0, 0, max, a), 0, max, b);
  }
}
