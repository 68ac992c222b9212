/** Seeking in a fragmented MP4 file: the scan over its parts, and the window of samples it should give. */
module PlaybackModel {
  import opened Wrappers
  import opened Mp4Time

  const TIME_SCALE := 90000

  // An entry of a trun box, with its payload.
  datatype Sample = Sample(duration: nat, sync: bool, offset: int, payload: int)

  // A traf box: tfhd, tfdt and one trun. A part of a file is a moof box with its traf boxes, and an mdat box.
  datatype Traf = Traf(id: nat, base: nat, samples: seq<Sample>)

  datatype OutTrack = OutTrack(id: nat, baseTime: nat, samples: seq<Sample>)

  // The scan inside a trun. `full` is the break at the end of the window.
  datatype Run = Run(elapsed: nat, full: bool, out: OutTrack, gop: map<nat, seq<Sample>>, started: set<nat>)

  datatype Scan = Scan(
    elapsed: nat,
    done: bool,
    outPart: seq<OutTrack>,
    gop: map<nat, seq<Sample>>,
    started: set<nat>,
    written: seq<seq<OutTrack>>)

  const Start := Scan(0, false, [], map[], {}, [])

  // --- The scan --------------------------------------------------------------------------------

  function Mute(s: Sample): Sample {
    s.(duration := 0, offset := 0)
  }

  function MuteAll(ss: seq<Sample>): (r: seq<Sample>)
    ensures |r| == |ss|
  {
    seq(|ss|, i requires 0 <= i < |ss| => Mute(ss[i]))
  }

  function GopOf(gop: map<nat, seq<Sample>>, id: nat): seq<Sample> {
    if id in gop then gop[id] else []
  }

  function OnSample(r: Run, min: nat, max: nat, s: Sample): Run {
    if r.full || r.elapsed >= max then r.(full := true)
    else
      var id := r.out.id;
      var gop := if id in r.started then r.gop
                 else r.gop[id := if s.sync then [s] else GopOf(r.gop, id) + [s]];
      var r' := r.(elapsed := r.elapsed + s.duration, gop := gop);
      if r.elapsed < min then r'
      else
        var before := if id in r.started || s.sync then [] else MuteAll(GopOf(r.gop, id));
        r'.(out := OutTrack(id, r.elapsed - min, r.out.samples + before + [s]),
            gop := if id in r.started then gop else gop - {id},
            started := r.started + {id})
  }

  function OnSamples(r: Run, min: nat, max: nat, ss: seq<Sample>): Run {
    if ss == [] then r else OnSample(OnSamples(r, min, max, ss[..|ss| - 1]), min, max, ss[|ss| - 1])
  }

  function RunOf(c: Scan, min: nat, max: nat, t: Traf): Run {
    OnSamples(Run(t.base, false, OutTrack(t.id, 0, []), c.gop, c.started), min, max, t.samples)
  }

  function OnTraf(c: Scan, min: nat, max: nat, t: Traf): Scan {
    if c.done || t.base >= max then c.(done := true)
    else
      var r := RunOf(c, min, max, t);
      c.(elapsed := r.elapsed, gop := r.gop, started := r.started,
         outPart := c.outPart + if r.out.samples != [] then [r.out] else [])
  }

  function OnTrafs(c: Scan, min: nat, max: nat, ts: seq<Traf>): Scan {
    if ts == [] then c else OnTraf(OnTrafs(c, min, max, ts[..|ts| - 1]), min, max, ts[|ts| - 1])
  }

  function OnMdat(c: Scan): Scan {
    if c.done || c.outPart == [] then c else c.(written := c.written + [c.outPart])
  }

  function OnPart(c: Scan, min: nat, max: nat, p: seq<Traf>): Scan {
    if c.done then c else OnMdat(OnTrafs(c.(outPart := []), min, max, p))
  }

  function OnParts(c: Scan, min: nat, max: nat, ps: seq<seq<Traf>>): Scan {
    if ps == [] then c else OnPart(OnParts(c, min, max, ps[..|ps| - 1]), min, max, ps[|ps| - 1])
  }

  datatype Error = NoSegmentsFound

  // The difference of two unsigned 64-bit numbers.
  function SinceStart(elapsed: nat, min: nat): nat {
    if elapsed >= min then elapsed - min else (elapsed - min) % UINT64
  }

  // What the caller gets: the parts written, and the time from the start of the window to the end.
  function SeekAndMux(ps: seq<seq<Traf>>, minTime: nat, maxTime: nat): Result<(nat, seq<seq<OutTrack>>), Error> {
    var min, max := DurationGoToMp4(minTime, TIME_SCALE), DurationGoToMp4(maxTime, TIME_SCALE);
    var c := OnParts(Start, min, max, ps);
    if c.written == [] then Err(NoSegmentsFound)
    else Ok((DurationMp4ToGo(SinceStart(c.elapsed, min), TIME_SCALE), c.written))
  }

  // --- What it should give ---------------------------------------------------------------------

  datatype Timed = Timed(time: nat, sample: Sample)

  // The samples of a trun that start before the end of the window, up to the first one that does not.
  function Before(base: nat, ss: seq<Sample>, max: nat): seq<Timed>
    decreases |ss|
  {
    if ss == [] || base >= max then []
    else [Timed(base, ss[0])] + Before(base + ss[0].duration, ss[1..], max)
  }

  function Of(ts: seq<Traf>, id: nat, max: nat): seq<Timed> {
    if ts == [] then []
    else
      var t := ts[|ts| - 1];
      Of(ts[..|ts| - 1], id, max) + if t.id == id then Before(t.base, t.samples, max) else []
  }

  // The samples of a track in some parts, in file order.
  function AllOf(ps: seq<seq<Traf>>, id: nat, max: nat): seq<Timed> {
    if ps == [] then [] else AllOf(ps[..|ps| - 1], id, max) + Of(ps[|ps| - 1], id, max)
  }

  function Samples(ts: seq<Timed>): (r: seq<Sample>)
    ensures |r| == |ts|
  {
    seq(|ts|, i requires 0 <= i < |ts| => ts[i].sample)
  }

  // The first sample in the window, or the number of samples when there is none.
  function First(ts: seq<Timed>, min: nat): (k: nat)
    ensures k <= |ts|
    ensures forall i :: 0 <= i < k ==> ts[i].time < min
    ensures k < |ts| ==> ts[k].time >= min
  {
    if ts == [] then 0
    else
      var k := First(ts[..|ts| - 1], min);
      if k < |ts| - 1 || ts[|ts| - 1].time >= min then k else |ts|
  }

  // The last random access point up to k, or the first sample when there is none.
  function LastSync(ts: seq<Timed>, k: nat): (j: nat)
    requires k < |ts|
    ensures j <= k
    ensures forall i :: j < i <= k ==> !ts[i].sample.sync
    ensures ts[j].sample.sync || j == 0
  {
    if k == 0 || ts[k].sample.sync then k else LastSync(ts, k - 1)
  }

  function Inside(ts: seq<Timed>, min: nat): seq<Timed> {
    if ts == [] then []
    else Inside(ts[..|ts| - 1], min) + if ts[|ts| - 1].time >= min then [ts[|ts| - 1]] else []
  }

  // From the random access point before the window: samples before the window last no time, the others are as
  // they were.
  function Window(ts: seq<Timed>, min: nat): seq<Sample> {
    var k := First(ts, min);
    if k == |ts| then [] else MuteAll(Samples(ts[LastSync(ts, k)..k])) + Samples(Inside(ts[k..], min))
  }

  // --- What was written ------------------------------------------------------------------------

  function PartOf(p: seq<OutTrack>, id: nat): seq<Sample> {
    if p == [] then []
    else
      var t := p[|p| - 1];
      PartOf(p[..|p| - 1], id) + if t.id == id then t.samples else []
  }

  function WrittenOf(ps: seq<seq<OutTrack>>, id: nat): seq<Sample> {
    if ps == [] then [] else WrittenOf(ps[..|ps| - 1], id) + PartOf(ps[|ps| - 1], id)
  }

  lemma PartOfSnoc(p: seq<OutTrack>, t: OutTrack, id: nat)
    ensures PartOf(p + [t], id) == PartOf(p, id) + if t.id == id then t.samples else []
  {
    assert (p + [t])[..|p|] == p;
  }

  lemma WrittenOfSnoc(ps: seq<seq<OutTrack>>, p: seq<OutTrack>, id: nat)
    ensures WrittenOf(ps + [p], id) == WrittenOf(ps, id) + PartOf(p, id)
  {
    assert (ps + [p])[..|ps|] == ps;
  }

  // --- The window, one sample at a time --------------------------------------------------------

  lemma {:induction false} LastSyncPrefix(ts: seq<Timed>, x: Timed, k: nat)
    requires k < |ts|
    ensures LastSync(ts + [x], k) == LastSync(ts, k)
  {
    if k > 0 && !ts[k].sample.sync {
      LastSyncPrefix(ts, x, k - 1);
    }
  }

  lemma FirstSnoc(ts: seq<Timed>, x: Timed, min: nat)
    ensures First(ts + [x], min) ==
      if First(ts, min) < |ts| || x.time >= min then First(ts, min) else |ts| + 1
  {
    assert (ts + [x])[..|ts|] == ts;
  }

  lemma InsideSnoc(ts: seq<Timed>, x: Timed, min: nat)
    ensures Inside(ts + [x], min) == Inside(ts, min) + if x.time >= min then [x] else []
  {
    assert (ts + [x])[..|ts|] == ts;
  }

  lemma SamplesSnoc(ts: seq<Timed>, x: Timed)
    ensures Samples(ts + [x]) == Samples(ts) + [x.sample]
  {
  }

  // Once in the window, samples are added as they come.
  lemma WindowGrows(ts: seq<Timed>, x: Timed, min: nat)
    requires First(ts, min) < |ts|
    ensures First(ts + [x], min) < |ts + [x]|
    ensures Window(ts + [x], min) == Window(ts, min) + if x.time >= min then [x.sample] else []
  {
    hide First, LastSync, Inside, MuteAll, Samples;
    var k := First(ts, min);
    FirstSnoc(ts, x, min);
    LastSyncPrefix(ts, x, k);
    var j := LastSync(ts, k);
    assert (ts + [x])[j..k] == ts[j..k];
    assert (ts + [x])[k..] == ts[k..] + [x];
    InsideSnoc(ts[k..], x, min);
    SamplesSnoc(Inside(ts[k..], min), x);
    assert Inside(ts[k..], min) + [] == Inside(ts[k..], min);
  }

  // The samples since the last random access point, kept until the window begins.
  function Kept(ts: seq<Timed>): seq<Sample> {
    if ts == [] then [] else Samples(ts[LastSync(ts, |ts| - 1)..])
  }

  lemma KeptGrows(ts: seq<Timed>, x: Timed)
    ensures Kept(ts + [x]) == if x.sample.sync then [x.sample] else Kept(ts) + [x.sample]
  {
    var ts' := ts + [x];
    if x.sample.sync {
      assert LastSync(ts', |ts|) == |ts|;
      assert Samples(ts'[|ts|..]) == [x.sample];
    } else if ts == [] {
      assert Samples(ts'[0..]) == [x.sample];
    } else {
      LastSyncPrefix(ts, x, |ts| - 1);
      var j := LastSync(ts, |ts| - 1);
      assert LastSync(ts', |ts|) == j;
      assert Samples(ts'[j..]) == Samples(ts[j..]) + [x.sample];
    }
  }

  // The window begins with what was kept, muted, unless the sample is a random access point itself.
  lemma WindowBegins(ts: seq<Timed>, x: Timed, min: nat)
    requires First(ts, min) == |ts| && x.time >= min
    ensures First(ts + [x], min) == |ts|
    ensures Window(ts + [x], min) == (if x.sample.sync then [] else MuteAll(Kept(ts))) + [x.sample]
  {
    var ts' := ts + [x];
    FirstSnoc(ts, x, min);
    var j := LastSync(ts', |ts|);
    assert ts'[|ts|..] == [x];
    InsideSnoc([], x, min);
    assert Samples(Inside([x], min)) == [x.sample];
    if x.sample.sync || ts == [] {
      assert j == |ts|;
      assert MuteAll(Samples(ts'[j..|ts|])) == [];
      assert ts == [] ==> MuteAll(Kept(ts)) == [];
    } else {
      LastSyncPrefix(ts, x, |ts| - 1);
      assert j == LastSync(ts, |ts| - 1);
      assert ts'[j..|ts|] == ts[j..];
    }
  }
}
