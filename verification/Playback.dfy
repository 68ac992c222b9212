/** The seek as the server does it: handlers for the boxes of the file, over variables they share. */
module Playback {
  import opened Wrappers
  import opened Mp4Time
  import opened PlaybackModel

  // Past the end of the window nothing changes any more.
  lemma {:induction false} FullStays(r: Run, min: nat, max: nat, a: seq<Sample>, b: seq<Sample>)
    requires OnSamples(r, min, max, a).full
    ensures OnSamples(r, min, max, a + b) == OnSamples(r, min, max, a)
  {
    if b == [] {
      assert a + b == a;
    } else {
      FullStays(r, min, max, a, b[..|b| - 1]);
      assert (a + b)[..|a + b| - 1] == a + b[..|b| - 1];
    }
  }

  lemma OnNextSample(r: Run, min: nat, max: nat, ss: seq<Sample>, i: nat)
    requires i < |ss|
    ensures OnSamples(r, min, max, ss[..i + 1]) == OnSample(OnSamples(r, min, max, ss[..i]), min, max, ss[i])
  {
    assert ss[..i + 1][..i] == ss[..i];
  }

  class Seeker {
    const min: nat
    const max: nat
    var elapsed: nat
    var terminated: bool
    var outPart: seq<OutTrack>
    var gop: map<nat, seq<Sample>>
    var firstSampleWritten: set<nat>
    var written: seq<seq<OutTrack>>

    function State(): Scan
      reads this
    {
      Scan(elapsed, terminated, outPart, gop, firstSampleWritten, written)
    }

    constructor (min: nat, max: nat)
      ensures this.min == min && this.max == max && State() == Start
    {
      this.min, this.max := min, max;
      elapsed, terminated, outPart, gop, firstSampleWritten, written := 0, false, [], map[], {}, [];
    }

    // The samples kept for a track whose window has not begun.
    method KeepGop(id: nat, sa: Sample)
      modifies `gop
      ensures gop == old(gop)[id := if sa.sync then [sa] else GopOf(old(gop), id) + [sa]]
    {
      if sa.sync {
        gop := gop[id := [sa]];
      } else {
        gop := gop[id := GopOf(gop, id) + [sa]];
      }
    }

    // One entry of a trun. r is the scan so far.
    method Entry(ghost r: Run, outTrack: OutTrack, sa: Sample) returns (out: OutTrack)
      requires r == Run(elapsed, false, outTrack, gop, firstSampleWritten) && elapsed < max
      modifies `elapsed, `gop, `firstSampleWritten
      ensures Run(elapsed, false, out, gop, firstSampleWritten) == OnSample(r, min, max, sa)
    {
      hide MuteAll;
      var id := outTrack.id;
      var fsw := id in firstSampleWritten;
      var samples := outTrack.samples;
      if !fsw {
        KeepGop(id, sa);
      }
      out := outTrack;
      if elapsed >= min {
        if !fsw {
          if !sa.sync {
            var before := gop[id][..|gop[id]| - 1];
            assert before == GopOf(r.gop, id);
            samples := samples + MuteAll(before);
          }
          gop := gop - {id};
          firstSampleWritten := firstSampleWritten + {id};
        }
        assert firstSampleWritten == r.started + {id};
        out := OutTrack(id, elapsed - min, samples + [sa]);
        assert out.samples == OnSample(r, min, max, sa).out.samples;
      }
      elapsed := elapsed + sa.duration;
    }

    // tfhd, tfdt and trun
    method OnTraf(t: Traf)
      requires !terminated
      modifies this
      ensures State() == PlaybackModel.OnTraf(old(State()), min, max, t)
    {
      if t.base >= max {
        terminated := true;
        return;
      }
      ghost var c := State();
      ghost var r0 := Run(t.base, false, OutTrack(t.id, 0, []), gop, firstSampleWritten);
      var outTrack := OutTrack(t.id, 0, []);
      elapsed := t.base;
      var i := 0;
      while i < |t.samples|
        invariant i <= |t.samples|
        invariant Run(elapsed, false, outTrack, gop, firstSampleWritten) == OnSamples(r0, min, max, t.samples[..i])
        invariant !terminated && outPart == c.outPart && written == c.written
      {
        OnNextSample(r0, min, max, t.samples, i);
        if elapsed >= max {
          FullStays(r0, min, max, t.samples[..i + 1], t.samples[i + 1..]);
          assert t.samples[..i + 1] + t.samples[i + 1..] == t.samples;
          break;
        }
        outTrack := Entry(OnSamples(r0, min, max, t.samples[..i]), outTrack, t.samples[i]);
        i := i + 1;
      }
      assert t.samples[..|t.samples|] == t.samples;
      if outTrack.samples != [] {
        outPart := outPart + [outTrack];
      }
    }

    method OnMdat()
      requires !terminated
      modifies this
      ensures State() == PlaybackModel.OnMdat(old(State()))
    {
      if outPart != [] {
        written := written + [outPart];
      }
    }

    method OnPart(p: seq<Traf>)
      requires !terminated
      modifies this
      ensures State() == PlaybackModel.OnPart(old(State()), min, max, p)
    {
      outPart := [];
      ghost var c := State();
      var i := 0;
      assert p[..0] == [];
      while i < |p| && !terminated
        invariant i <= |p| && State() == OnTrafs(c, min, max, p[..i])
      {
        OnTraf(p[i]);
        assert p[..i + 1][..i] == p[..i];
        i := i + 1;
      }
      if terminated {
        DoneStays(c, min, max, p[..i], p[i..]);
        assert p[..i] + p[i..] == p;
        return;
      }
      assert p[..i] == p;
      OnMdat();
    }
  }

  lemma {:induction false} DoneStays(c: Scan, min: nat, max: nat, a: seq<Traf>, b: seq<Traf>)
    requires OnTrafs(c, min, max, a).done
    ensures OnTrafs(c, min, max, a + b) == OnTrafs(c, min, max, a)
  {
    if b == [] {
      assert a + b == a;
    } else {
      DoneStays(c, min, max, a, b[..|b| - 1]);
      assert (a + b)[..|a + b| - 1] == a + b[..|b| - 1];
    }
  }

  lemma {:induction false} DonePartsStay(c: Scan, min: nat, max: nat, a: seq<seq<Traf>>, b: seq<seq<Traf>>)
    requires OnParts(c, min, max, a).done
    ensures OnParts(c, min, max, a + b) == OnParts(c, min, max, a)
  {
    if b == [] {
      assert a + b == a;
    } else {
      DonePartsStay(c, min, max, a, b[..|b| - 1]);
      assert (a + b)[..|a + b| - 1] == a + b[..|b| - 1];
    }
  }

  method SeekAndMuxParts(ps: seq<seq<Traf>>, minTime: nat, maxTime: nat)
    returns (r: Result<(nat, seq<seq<OutTrack>>), Error>)
    ensures r == SeekAndMux(ps, minTime, maxTime)
  {
    hide OnPart, DurationGoToMp4, DurationMp4ToGo;
    var min, max := DurationGoToMp4(minTime, TIME_SCALE), DurationGoToMp4(maxTime, TIME_SCALE);
    var seeker := new Seeker(min, max);
    var i := 0;
    assert ps[..0] == [];
    while i < |ps| && !seeker.terminated
      invariant i <= |ps| && seeker.State() == OnParts(Start, min, max, ps[..i])
    {
      seeker.OnPart(ps[i]);
      assert ps[..i + 1][..i] == ps[..i];
      i := i + 1;
    }
    if seeker.terminated {
      DonePartsStay(Start, min, max, ps[..i], ps[i..]);
    }
    assert ps[..i] + ps[i..] == ps;
    assert i == |ps| ==> ps[..i] == ps;
    if seeker.written == [] {
      r := Err(NoSegmentsFound);
    } else {
      r := Ok((DurationMp4ToGo(SinceStart(seeker.elapsed, min), TIME_SCALE), seeker.written));
    }
  }
}
