/** The scan gives the window. */
module PlaybackWindow {
  import opened Wrappers
  import opened Mp4Time
  import opened PlaybackModel

  // What the scan knows of a track whose samples so far are ts, `given` being what it has given of them.
  ghost predicate Tracked(gop: map<nat, seq<Sample>>, started: set<nat>, id: nat, ts: seq<Timed>, min: nat,
                          given: seq<Sample>) {
    if First(ts, min) == |ts| then id !in started && given == [] && GopOf(gop, id) == Kept(ts)
    else id in started && given == Window(ts, min)
  }

  // --- One trun --------------------------------------------------------------------------------

  lemma SampleIsTracked(r: Run, min: nat, max: nat, s: Sample, ts: seq<Timed>, given: seq<Sample>)
    requires !r.full && r.elapsed < max
    requires Tracked(r.gop, r.started, r.out.id, ts, min, given + r.out.samples)
    ensures var r' := OnSample(r, min, max, s);
      Tracked(r'.gop, r'.started, r.out.id, ts + [Timed(r.elapsed, s)], min, given + r'.out.samples)
  {
    hide First, LastSync, Window, Kept, Inside, MuteAll;
    var x := Timed(r.elapsed, s);
    var r' := OnSample(r, min, max, s);
    FirstSnoc(ts, x, min);
    if First(ts, min) < |ts| {
      WindowGrows(ts, x, min);
      assert given + r'.out.samples == given + r.out.samples + if x.time >= min then [s] else [];
    } else if r.elapsed >= min {
      WindowBegins(ts, x, min);
      assert given == [] && r.out.samples == [];
    } else {
      KeptGrows(ts, x);
    }
  }

  lemma OthersUntouched(r: Run, min: nat, max: nat, s: Sample, u: nat)
    requires u != r.out.id
    ensures var r' := OnSample(r, min, max, s);
      && r'.out.id == r.out.id
      && GopOf(r'.gop, u) == GopOf(r.gop, u) && (u in r'.started <==> u in r.started)
  {
  }

  function Length(ss: seq<Sample>): nat {
    if ss == [] then 0 else Length(ss[..|ss| - 1]) + ss[|ss| - 1].duration
  }

  lemma {:induction false} LengthCons(s: Sample, ss: seq<Sample>)
    ensures Length([s] + ss) == s.duration + Length(ss)
  {
    if ss == [] {
      assert [s] + ss == [s];
      assert [s][..0] == [];
    } else {
      var n := |ss| - 1;
      LengthCons(s, ss[..n]);
      assert ([s] + ss)[..n + 1] == [s] + ss[..n];
    }
  }

  // Adding a sample at the end of a trun.
  lemma {:induction false} BeforeSnoc(base: nat, ss: seq<Sample>, s: Sample, max: nat)
    ensures |Before(base, ss, max)| <= |ss|
    ensures Before(base, ss + [s], max) == Before(base, ss, max) +
      if |Before(base, ss, max)| == |ss| && base + Length(ss) < max then [Timed(base + Length(ss), s)] else []
    decreases |ss|
  {
    if ss == [] {
      assert ss + [s] == [s];
      assert Before(base + s.duration, [s][1..], max) == [];
    } else {
      assert ss == [ss[0]] + ss[1..];
      LengthCons(ss[0], ss[1..]);
      BeforeSnoc(base + ss[0].duration, ss[1..], s, max);
      assert (ss + [s])[1..] == ss[1..] + [s];
    }
  }

  // A trun gives its samples up to the end of the window, and remembers where it stopped.
  lemma {:induction false} RunIsTracked(r0: Run, min: nat, max: nat, ss: seq<Sample>, ts: seq<Timed>, given: seq<Sample>)
    requires !r0.full && Tracked(r0.gop, r0.started, r0.out.id, ts, min, given + r0.out.samples)
    ensures var r, b := OnSamples(r0, min, max, ss), Before(r0.elapsed, ss, max);
      && r.out.id == r0.out.id
      && |b| <= |ss| && (r.full <==> |b| < |ss|)
      && (!r.full ==> r.elapsed == r0.elapsed + Length(ss))
      && Tracked(r.gop, r.started, r0.out.id, ts + b, min, given + r.out.samples)
  {
    hide Tracked;
    if ss == [] {
      assert ts + [] == ts;
    } else {
      var front, s := ss[..|ss| - 1], ss[|ss| - 1];
      assert ss == front + [s];
      RunIsTracked(r0, min, max, front, ts, given);
      BeforeSnoc(r0.elapsed, front, s, max);
      var r, b := OnSamples(r0, min, max, front), Before(r0.elapsed, front, max);
      if !r.full && r.elapsed < max {
        SampleIsTracked(r, min, max, s, ts + b, given);
        assert ts + b + [Timed(r.elapsed, s)] == ts + Before(r0.elapsed, ss, max);
      } else {
        assert Before(r0.elapsed, ss, max) == b;
      }
    }
  }

  lemma {:induction false} RunLeavesOthers(r0: Run, min: nat, max: nat, ss: seq<Sample>, u: nat)
    requires u != r0.out.id
    ensures var r := OnSamples(r0, min, max, ss);
      && r.out.id == r0.out.id
      && GopOf(r.gop, u) == GopOf(r0.gop, u) && (u in r.started <==> u in r0.started)
  {
    if ss != [] {
      RunLeavesOthers(r0, min, max, ss[..|ss| - 1], u);
      OthersUntouched(OnSamples(r0, min, max, ss[..|ss| - 1]), min, max, ss[|ss| - 1], u);
    }
  }

  // --- One part --------------------------------------------------------------------------------

  // All that the scan has given of a track, with the part it is making.
  function Given(c: Scan, id: nat): seq<Sample> {
    WrittenOf(c.written, id) + PartOf(c.outPart, id)
  }

  ghost predicate ScanOf(c: Scan, id: nat, ts: seq<Timed>, min: nat) {
    Tracked(c.gop, c.started, id, ts, min, Given(c, id))
  }

  lemma GivenAfter(c: Scan, t: OutTrack, id: nat)
    ensures Given(c.(outPart := c.outPart + [t]), id) == Given(c, id) + if t.id == id then t.samples else []
  {
    PartOfSnoc(c.outPart, t, id);
  }

  lemma TrafIsTracked(c: Scan, min: nat, max: nat, t: Traf, id: nat, ts: seq<Timed>)
    requires !c.done && t.base < max && ScanOf(c, id, ts, min)
    ensures ScanOf(OnTraf(c, min, max, t), id, ts + if t.id == id then Before(t.base, t.samples, max) else [], min)
    ensures !OnTraf(c, min, max, t).done
  {
    hide OnSamples, Before, WrittenOf, PartOf, First, Window, Kept;
    var r0 := Run(t.base, false, OutTrack(t.id, 0, []), c.gop, c.started);
    var r := RunOf(c, min, max, t);
    GivenAfter(c, r.out, id);
    assert c.outPart + [] == c.outPart;
    if t.id == id {
      assert Given(c, id) + [] == Given(c, id);
      RunIsTracked(r0, min, max, t.samples, ts, Given(c, id));
      assert Given(c, id) + r.out.samples == Given(OnTraf(c, min, max, t), id);
    } else {
      RunLeavesOthers(r0, min, max, t.samples, id);
      assert Given(c, id) == Given(OnTraf(c, min, max, t), id);
      assert ts + [] == ts;
    }
  }

  // A part with a track that starts at the end of the window or later ends the scan.
  predicate Ending(p: seq<Traf>, max: nat) {
    exists i :: 0 <= i < |p| && p[i].base >= max
  }

  lemma {:induction false} TrafsAreTracked(c: Scan, min: nat, max: nat, p: seq<Traf>, id: nat, ts: seq<Timed>)
    requires !c.done && ScanOf(c, id, ts, min)
    ensures var c' := OnTrafs(c, min, max, p);
      && (c'.done <==> Ending(p, max))
      && c'.written == c.written
      && (!c'.done ==> ScanOf(c', id, ts + Of(p, id, max), min))
  {
    hide ScanOf, RunOf, Before;
    if p == [] {
      assert ts + [] == ts;
    } else {
      var front, t := p[..|p| - 1], p[|p| - 1];
      TrafsAreTracked(c, min, max, front, id, ts);
      assert Ending(front, max) || t.base >= max <==> Ending(p, max);
      var c1 := OnTrafs(c, min, max, front);
      if !c1.done && t.base < max {
        TrafIsTracked(c1, min, max, t, id, ts + Of(front, id, max));
        assert ts + Of(p, id, max) ==
          ts + Of(front, id, max) + if t.id == id then Before(t.base, t.samples, max) else [];
      }
    }
  }

  lemma PartIsTracked(c: Scan, min: nat, max: nat, p: seq<Traf>, id: nat, ts: seq<Timed>)
    requires !c.done && Tracked(c.gop, c.started, id, ts, min, WrittenOf(c.written, id))
    ensures var c' := OnPart(c, min, max, p);
      && (c'.done <==> Ending(p, max))
      && (c'.done ==> c'.written == c.written)
      && (!c'.done ==> Tracked(c'.gop, c'.started, id, ts + Of(p, id, max), min, WrittenOf(c'.written, id)))
  {
    hide Tracked, WrittenOf, Ending, Of;
    var c0 := c.(outPart := []);
    assert Given(c0, id) == WrittenOf(c.written, id);
    TrafsAreTracked(c0, min, max, p, id, ts);
    var c1 := OnTrafs(c0, min, max, p);
    WrittenOfSnoc(c1.written, c1.outPart, id);
  }

  // --- The whole file --------------------------------------------------------------------------

  // The parts up to the first one that ends the scan.
  function Scanned(ps: seq<seq<Traf>>, max: nat): (k: nat)
    ensures k <= |ps|
    ensures forall i :: 0 <= i < k ==> !Ending(ps[i], max)
    ensures k < |ps| ==> Ending(ps[k], max)
  {
    if ps == [] then 0
    else
      var k := Scanned(ps[..|ps| - 1], max);
      if k < |ps| - 1 || Ending(ps[|ps| - 1], max) then k else |ps|
  }

  lemma StartIsTracked(min: nat, id: nat)
    ensures Tracked(Start.gop, Start.started, id, [], min, []) && Window([], min) == []
  {
  }

  lemma WindowOfTracked(c: Scan, min: nat, id: nat, ts: seq<Timed>)
    requires Tracked(c.gop, c.started, id, ts, min, WrittenOf(c.written, id))
    ensures WrittenOf(c.written, id) == Window(ts, min)
  {
  }

  lemma {:induction false} FileIsTracked(ps: seq<seq<Traf>>, min: nat, max: nat, id: nat)
    ensures var c, k := OnParts(Start, min, max, ps), Scanned(ps, max);
      && (c.done <==> k < |ps|)
      && WrittenOf(c.written, id) == Window(AllOf(ps[..k], id, max), min)
      && (!c.done ==> Tracked(c.gop, c.started, id, AllOf(ps, id, max), min, WrittenOf(c.written, id)))
  {
    hide Ending, Of, PartOf, Tracked, Window, OnTrafs, OnMdat;
    if ps == [] {
      assert ps[..0] == [];
      StartIsTracked(min, id);
    } else {
      var front, p := ps[..|ps| - 1], ps[|ps| - 1];
      FileIsTracked(front, min, max, id);
      var c, k := OnParts(Start, min, max, front), Scanned(front, max);
      assert front[..k] == ps[..k];
      if !c.done {
        PartIsTracked(c, min, max, p, id, AllOf(front, id, max));
        assert ps[..|ps|] == ps && front[..|front|] == front;
        var c' := OnPart(c, min, max, p);
        if !c'.done {
          WindowOfTracked(c', min, id, AllOf(ps, id, max));
        }
      }
    }
  }

  // For any file and any track: what is written is the window over the parts before the one that ends the
  // scan. Samples in that part are lost, even those of a track that had not reached the end.
  lemma WrittenIsWindow(ps: seq<seq<Traf>>, min: nat, max: nat, id: nat)
    ensures WrittenOf(OnParts(Start, min, max, ps).written, id) ==
      Window(AllOf(ps[..Scanned(ps, max)], id, max), min)
  {
    FileIsTracked(ps, min, max, id);
  }

  // --- Files with one track --------------------------------------------------------------------

  // The samples of a trun with their times.
  function Timeline(base: nat, ss: seq<Sample>): (r: seq<Timed>)
    ensures |r| == |ss|
    ensures ss != [] ==> r[0].time == base
    decreases |ss|
  {
    if ss == [] then [] else [Timed(base, ss[0])] + Timeline(base + ss[0].duration, ss[1..])
  }

  // The file of one track: a list of trafs, one in each part.
  function Parts(ts: seq<Traf>): (r: seq<seq<Traf>>)
    ensures |r| == |ts|
  {
    seq(|ts|, i requires 0 <= i < |ts| => [ts[i]])
  }

  function All(ts: seq<Traf>): seq<Timed> {
    if ts == [] then [] else All(ts[..|ts| - 1]) + Timeline(ts[|ts| - 1].base, ts[|ts| - 1].samples)
  }

  ghost predicate Sorted(s: seq<Timed>) {
    forall i, j :: 0 <= i <= j < |s| ==> s[i].time <= s[j].time
  }

  // One track, no empty part, no overlap in time.
  ghost predicate SingleTrack(ts: seq<Traf>, id: nat) {
    && (forall i :: 0 <= i < |ts| ==> ts[i].id == id && ts[i].samples != [])
    && Sorted(All(ts))
  }

  lemma FirstIs(s: seq<Timed>, t: nat, n: nat)
    requires n <= |s| && forall i :: 0 <= i < n ==> s[i].time < t
    requires n < |s| ==> s[n].time >= t
    ensures First(s, t) == n
  {
  }

  // The first sample from a time on, in a list of two parts of which the first is all before it.
  lemma FirstOfSum(a: seq<Timed>, b: seq<Timed>, t: nat)
    requires forall i :: 0 <= i < |a| ==> a[i].time < t
    ensures First(a + b, t) == |a| + First(b, t)
  {
    var s, n := a + b, First(b, t);
    hide First;
    forall i | 0 <= i < |a| + n
      ensures s[i].time < t
    {
      if i >= |a| {
        assert s[i] == b[i - |a|];
      }
    }
    if n < |b| {
      assert s[|a| + n] == b[n];
    }
    FirstIs(s, t, |a| + n);
  }

  lemma FirstInPrefix(a: seq<Timed>, b: seq<Timed>, t: nat)
    requires First(a, t) < |a|
    ensures First(a + b, t) == First(a, t)
  {
    var n := First(a, t);
    hide First;
    assert forall i :: 0 <= i < |a| ==> (a + b)[i] == a[i];
    FirstIs(a + b, t, n);
  }

  lemma {:induction false} BeforeIsPrefix(base: nat, ss: seq<Sample>, max: nat)
    requires Sorted(Timeline(base, ss))
    ensures Before(base, ss, max) == Timeline(base, ss)[..First(Timeline(base, ss), max)]
    decreases |ss|
  {
    hide First, Sorted;
    var s := Timeline(base, ss);
    if ss == [] {
    } else if base >= max {
      FirstIs(s, max, 0);
    } else {
      var x, rest := Timed(base, ss[0]), Timeline(base + ss[0].duration, ss[1..]);
      assert s == [x] + rest;
      SortedSplit([x], rest);
      BeforeIsPrefix(base + ss[0].duration, ss[1..], max);
      FirstOfSum([x], rest, max);
      assert ([x] + rest)[..First(rest, max) + 1] == [x] + rest[..First(rest, max)];
    }
  }

  lemma SortedSplit(a: seq<Timed>, b: seq<Timed>)
    requires Sorted(a + b)
    ensures Sorted(a) && Sorted(b)
    ensures forall i, j :: 0 <= i < |a| && 0 <= j < |b| ==> a[i].time <= b[j].time
  {
    var s := a + b;
    assert forall i :: 0 <= i < |a| ==> s[i] == a[i];
    assert forall j :: 0 <= j < |b| ==> s[|a| + j] == b[j];
  }

  lemma SeenOfSum(a: seq<Timed>, b: seq<Timed>, max: nat)
    requires forall i, j :: 0 <= i < |a| && 0 <= j < |b| ==> a[i].time <= b[j].time
    ensures a[..First(a, max)] + b[..First(b, max)] == (a + b)[..First(a + b, max)]
  {
    if First(a, max) < |a| {
      FirstInPrefix(a, b, max);
      if b != [] {
        assert a[First(a, max)].time <= b[0].time;
      }
      FirstIs(b, max, 0);
    } else {
      FirstOfSum(a, b, max);
    }
  }

  lemma AllOfParts(ts: seq<Traf>, id: nat, max: nat)
    requires ts != [] && ts[|ts| - 1].id == id
    ensures var front, t := ts[..|ts| - 1], ts[|ts| - 1];
      AllOf(Parts(ts), id, max) == AllOf(Parts(front), id, max) + Before(t.base, t.samples, max)
  {
    var front, t := ts[..|ts| - 1], ts[|ts| - 1];
    assert Parts(ts)[..|ts| - 1] == Parts(front);
    assert [t][..0] == [];
    assert Of([t], id, max) == Before(t.base, t.samples, max);
  }

  // The samples the scan can see are those before the end of the window.
  lemma {:induction false} SeenIsPrefix(ts: seq<Traf>, id: nat, max: nat)
    requires SingleTrack(ts, id)
    ensures AllOf(Parts(ts), id, max) == All(ts)[..First(All(ts), max)]
  {
    if ts != [] {
      var front, t := ts[..|ts| - 1], ts[|ts| - 1];
      var a, b := All(front), Timeline(t.base, t.samples);
      SortedSplit(a, b);
      assert SingleTrack(front, id);
      SeenIsPrefix(front, id, max);
      AllOfParts(ts, id, max);
      BeforeIsPrefix(t.base, t.samples, max);
      assert All(ts) == a + b;
      hide First, Sorted, All, AllOf, Before, Timeline;
      SeenOfSum(a, b, max);
    }
  }

  // The part that ends the scan starts at the end of the window, and so does every later one.
  lemma {:induction false} NothingIsLost(ts: seq<Traf>, id: nat, max: nat, k: nat)
    requires SingleTrack(ts, id) && k <= |ts| && (k < |ts| ==> ts[k].base >= max)
    ensures AllOf(Parts(ts), id, max) == AllOf(Parts(ts[..k]), id, max)
    decreases |ts|
  {
    if k < |ts| {
      var front, t := ts[..|ts| - 1], ts[|ts| - 1];
      SortedSplit(All(front), Timeline(t.base, t.samples));
      NothingIsLost(front, id, max, k);
      assert front[..k] == ts[..k];
      AllOfParts(ts, id, max);
      if k < |front| {
        InAll(front, k);
      }
      assert t.base >= max;
    } else {
      assert ts[..k] == ts;
    }
  }

  lemma {:induction false} InAll(ts: seq<Traf>, k: nat)
    requires k < |ts| && ts[k].samples != []
    ensures exists x :: x in All(ts) && x.time == ts[k].base
  {
    var front, t := ts[..|ts| - 1], ts[|ts| - 1];
    if k < |front| {
      InAll(front, k);
      var x :| x in All(front) && x.time == ts[k].base;
      assert x in All(ts);
    } else {
      var b := Timeline(t.base, t.samples);
      assert b[0] in All(ts);
    }
  }

  lemma {:induction false} SortedIsInside(s: seq<Timed>, min: nat)
    requires forall i :: 0 <= i < |s| ==> s[i].time >= min
    ensures Inside(s, min) == s
  {
    if s != [] {
      var front, x := s[..|s| - 1], s[|s| - 1];
      SortedIsInside(front, min);
      assert s == front + [x] && x.time >= min;
    }
  }

  // The run of samples to give: from the random access point before the window to the end of the window.
  function Wanted(s: seq<Timed>, min: nat, max: nat): seq<Sample> {
    var k, n := First(s, min), First(s, max);
    if k >= n then [] else MuteAll(Samples(s[LastSync(s, k)..k])) + Samples(s[k..n])
  }

  lemma WindowIsRun(s: seq<Timed>, min: nat, max: nat)
    requires Sorted(s)
    ensures Window(s[..First(s, max)], min) == Wanted(s, min, max)
  {
    hide First, LastSync, Inside, MuteAll, Samples;
    var k, n := First(s, min), First(s, max);
    var a := s[..n];
    if k >= n {
      FirstIs(a, min, n);
    } else {
      FirstIs(a, min, k);
      LastSyncOfPrefix(s, n, k);
      SortedIsInside(a[k..], min);
      assert a[LastSync(s, k)..k] == s[LastSync(s, k)..k];
      assert a[k..] == s[k..n];
    }
  }

  lemma {:induction false} LastSyncOfPrefix(s: seq<Timed>, n: nat, k: nat)
    requires k < n <= |s|
    ensures LastSync(s[..n], k) == LastSync(s, k)
  {
    if k > 0 && !s[k].sample.sync {
      LastSyncOfPrefix(s, n, k - 1);
    }
  }

  lemma ScannedIs(ts: seq<Traf>, max: nat)
    ensures var k := Scanned(Parts(ts), max); k <= |ts| && (k < |ts| ==> ts[k].base >= max)
    ensures forall i :: 0 <= i < Scanned(Parts(ts), max) ==> ts[i].base < max
    ensures Parts(ts)[..Scanned(Parts(ts), max)] == Parts(ts[..Scanned(Parts(ts), max)])
  {
    var k := Scanned(Parts(ts), max);
    forall i | 0 <= i < k
      ensures ts[i].base < max
    {
      assert !Ending(Parts(ts)[i], max) && Parts(ts)[i][0] == ts[i];
    }
  }

  // --- What is in the output parts -------------------------------------------------------------

  // No part is written empty.
  ghost predicate Filled(ps: seq<seq<OutTrack>>, id: nat) {
    forall p :: p in ps ==> FilledPart(p, id) && p != []
  }

  ghost predicate FilledPart(p: seq<OutTrack>, id: nat) {
    forall t :: t in p ==> t.id == id && t.samples != []
  }

  lemma {:induction false} FilledIsSomething(ps: seq<seq<OutTrack>>, id: nat)
    requires Filled(ps, id) && ps != []
    ensures WrittenOf(ps, id) != []
  {
    var p := ps[|ps| - 1];
    assert p in ps;
    assert p[|p| - 1] in p;
    assert PartOf(p, id) != [];
  }

  lemma {:induction false} RunKeepsId(r: Run, min: nat, max: nat, ss: seq<Sample>)
    ensures OnSamples(r, min, max, ss).out.id == r.out.id
  {
    if ss != [] {
      RunKeepsId(r, min, max, ss[..|ss| - 1]);
    }
  }

  lemma {:induction false} OutputIsFilled(ts: seq<Traf>, id: nat, min: nat, max: nat)
    requires forall i :: 0 <= i < |ts| ==> ts[i].id == id
    ensures Filled(OnParts(Start, min, max, Parts(ts)).written, id)
  {
    if ts != [] {
      var front, t := ts[..|ts| - 1], ts[|ts| - 1];
      OutputIsFilled(front, id, min, max);
      assert Parts(ts)[..|ts| - 1] == Parts(front);
      var c := OnParts(Start, min, max, Parts(front));
      var c0 := c.(outPart := []);
      RunKeepsId(Run(t.base, false, OutTrack(t.id, 0, []), c.gop, c.started), min, max, t.samples);
      assert [t][..0] == [];
      assert OnTrafs(c0, min, max, [t]) == OnTraf(c0, min, max, t);
      assert FilledPart(OnTraf(c0, min, max, t).outPart, id);
    }
  }

  lemma SampleEnds(r: Run, min: nat, max: nat, s: Sample)
    ensures var r' := OnSample(r, min, max, s);
      && r'.full == (r.full || r.elapsed >= max)
      && r'.elapsed == (if r'.full then r.elapsed else r.elapsed + s.duration)
      && (r'.full || r.elapsed < min ==> r'.out == r.out)
      && (!r'.full && r.elapsed >= min ==> r'.out.baseTime == r.elapsed - min && r'.out.samples != [])
  {
  }

  // A trun leaves the scan at the end of the last sample it has seen.
  lemma {:induction false} RunEnds(r0: Run, min: nat, max: nat, ss: seq<Sample>)
    requires !r0.full
    ensures var r, b := OnSamples(r0, min, max, ss), Before(r0.elapsed, ss, max);
      && |b| <= |ss| && (r.full <==> |b| < |ss|)
      && (!r.full ==> r.elapsed == r0.elapsed + Length(ss))
      && r.elapsed == if b == [] then r0.elapsed else b[|b| - 1].time + b[|b| - 1].sample.duration
  {
    hide OnSample;
    if ss != [] {
      var front, s := ss[..|ss| - 1], ss[|ss| - 1];
      assert ss == front + [s];
      RunEnds(r0, min, max, front);
      BeforeSnoc(r0.elapsed, front, s, max);
      SampleEnds(OnSamples(r0, min, max, front), min, max, s);
    }
  }

  lemma PartEnds(c: Scan, min: nat, max: nat, t: Traf)
    requires !c.done && t.samples != []
    ensures var c' := OnPart(c, min, max, [t]);
      && (c'.done <==> t.base >= max) && (c'.done <==> Ending([t], max))
      && c'.elapsed == if c'.done then c.elapsed else EndOf(Before(t.base, t.samples, max))
    ensures t.base < max ==> Before(t.base, t.samples, max) != []
  {
    var c0 := c.(outPart := []);
    assert [t][..0] == [];
    assert OnTrafs(c0, min, max, [t]) == OnTraf(c0, min, max, t);
    assert Ending([t], max) <==> t.base >= max by { assert [t][0] == t; }
    RunEnds(Run(t.base, false, OutTrack(t.id, 0, []), c.gop, c.started), min, max, t.samples);
  }

  lemma OnLastPart(ts: seq<Traf>, min: nat, max: nat)
    requires ts != []
    ensures var front, last := ts[..|ts| - 1], [ts[|ts| - 1]];
      && OnParts(Start, min, max, Parts(ts)) == OnPart(OnParts(Start, min, max, Parts(front)), min, max, last)
      && Scanned(Parts(ts), max) ==
           if Scanned(Parts(front), max) < |front| || Ending(last, max) then Scanned(Parts(front), max) else |ts|
  {
    hide OnPart, Ending;
    assert Parts(ts)[..|ts| - 1] == Parts(ts[..|ts| - 1]) && Parts(ts)[|ts| - 1] == [ts[|ts| - 1]];
  }

  lemma {:induction false} ScanEnds(ts: seq<Traf>, id: nat, min: nat, max: nat)
    requires forall i :: 0 <= i < |ts| ==> ts[i].id == id && ts[i].samples != []
    ensures var c, k := OnParts(Start, min, max, Parts(ts)), Scanned(Parts(ts), max);
      && k <= |ts| && (c.done <==> k < |ts|)
      && c.elapsed == EndOf(AllOf(Parts(ts[..k]), id, max))
  {
    if ts == [] {
      assert Parts(ts[..0]) == [];
    } else {
      var front, t := ts[..|ts| - 1], ts[|ts| - 1];
      hide OnParts, OnTrafs, OnMdat, Before, AllOf, Ending, Scanned, Parts;
      ScanEnds(front, id, min, max);
      OnLastPart(ts, min, max);
      var c, k := OnParts(Start, min, max, Parts(front)), Scanned(Parts(front), max);
      assert front[..k] == ts[..k];
      if k == |front| {
        PartEnds(c, min, max, t);
        AllOfParts(ts, id, max);
        assert ts[..|ts|] == ts && front[..k] == front;
      }
    }
  }

  function EndOf(s: seq<Timed>): nat {
    if s == [] then 0 else s[|s| - 1].time + s[|s| - 1].sample.duration
  }

  // An output track made of these samples of the window: it has the base time of the last one.
  ghost predicate BasedOnLast(out: OutTrack, inside: seq<Timed>, min: nat) {
    if inside == [] then out.samples == []
    else
      && out.samples != []
      && inside[|inside| - 1].time >= min && out.baseTime == inside[|inside| - 1].time - min
  }

  lemma BasedOnNext(out: OutTrack, s: seq<Timed>, x: Timed, min: nat, out': OutTrack)
    requires BasedOnLast(out, Inside(s, min), min)
    requires x.time < min ==> out' == out
    requires x.time >= min ==> out'.samples != [] && out'.baseTime == x.time - min
    ensures BasedOnLast(out', Inside(s + [x], min), min)
  {
    hide Inside;
    InsideSnoc(s, x, min);
    assert Inside(s, min) + [] == Inside(s, min);
  }

  lemma {:induction false} RunIsBasedOnLast(r0: Run, min: nat, max: nat, ss: seq<Sample>)
    requires !r0.full && r0.out.samples == []
    ensures BasedOnLast(OnSamples(r0, min, max, ss).out, Inside(Before(r0.elapsed, ss, max), min), min)
  {
    if ss == [] {
      assert Before(r0.elapsed, ss, max) == [];
    } else {
      var front, s := ss[..|ss| - 1], ss[|ss| - 1];
      assert ss == front + [s];
      RunIsBasedOnLast(r0, min, max, front);
      RunEnds(r0, min, max, front);
      BeforeSnoc(r0.elapsed, front, s, max);
      var r, b := OnSamples(r0, min, max, front), Before(r0.elapsed, front, max);
      hide OnSample, Before, Inside, BasedOnLast;
      SampleEnds(r, min, max, s);
      if !r.full && r.elapsed < max {
        BasedOnNext(r.out, b, Timed(r.elapsed, s), min, OnSample(r, min, max, s).out);
      } else {
        assert Before(r0.elapsed, ss, max) == b;
      }
    }
  }

  // The base time of an output track is that of its last sample in the window, because the flag that should
  // keep the first one is never set. It is that of the first one exactly when both start together.
  lemma BaseTimeIsOfLast(c: Scan, min: nat, max: nat, t: Traf)
    ensures var out, inside := RunOf(c, min, max, t).out, Inside(Before(t.base, t.samples, max), min);
      && (out.samples == [] <==> inside == [])
      && (inside != [] ==>
            && inside[0].time >= min && inside[|inside| - 1].time >= min
            && out.baseTime == inside[|inside| - 1].time - min
            && (out.baseTime == inside[0].time - min <==> inside[|inside| - 1].time == inside[0].time))
  {
    RunIsBasedOnLast(Run(t.base, false, OutTrack(t.id, 0, []), c.gop, c.started), min, max, t.samples);
    InsideIsInside(Before(t.base, t.samples, max), min);
  }

  lemma {:induction false} InsideIsInside(s: seq<Timed>, min: nat)
    ensures forall x :: x in Inside(s, min) ==> x.time >= min
  {
    if s != [] {
      InsideIsInside(s[..|s| - 1], min);
    }
  }

  // --- The main result -------------------------------------------------------------------------

  // A seek in a file of one track gives exactly the wanted run of samples, and the time from the start of the
  // window to the end of the last one. It fails exactly when no sample is in the window.
  lemma SeekGivesWanted(ts: seq<Traf>, id: nat, minTime: nat, maxTime: nat)
    requires SingleTrack(ts, id)
    ensures var min, max := DurationGoToMp4(minTime, TIME_SCALE), DurationGoToMp4(maxTime, TIME_SCALE);
      var out, s := SeekAndMux(Parts(ts), minTime, maxTime), All(ts);
      && (out.Err? <==> First(s, min) >= First(s, max))
      && (out.Ok? ==>
            && WrittenOf(out.value.1, id) == Wanted(s, min, max)
            && EndOf(s[..First(s, max)]) >= min
            && out.value.0 == DurationMp4ToGo(EndOf(s[..First(s, max)]) - min, TIME_SCALE))
  {
    hide DurationGoToMp4, DurationMp4ToGo, OnParts, Window, Wanted, All, AllOf, SingleTrack, First, Sorted;
    SingleTrackGives(ts, id);
    var min, max := DurationGoToMp4(minTime, TIME_SCALE), DurationGoToMp4(maxTime, TIME_SCALE);
    var k := Scanned(Parts(ts), max);
    var c := OnParts(Start, min, max, Parts(ts));
    WrittenIsWindow(Parts(ts), min, max, id);
    ScannedIs(ts, max);
    NothingIsLost(ts, id, max, k);
    SeenIsPrefix(ts, id, max);
    WindowIsRun(All(ts), min, max);
    ScanEnds(ts, id, min, max);
    OutputIsFilled(ts, id, min, max);
    if c.written != [] {
      FilledIsSomething(c.written, id);
    }
    assert WrittenOf(c.written, id) == Wanted(All(ts), min, max);
    WantedNothing(All(ts), min, max);
    EndsAfterStart(All(ts), min, max);
  }

  // The last sample before the end of the window is not before its start, when any sample is in the window.
  lemma EndsAfterStart(s: seq<Timed>, min: nat, max: nat)
    requires Sorted(s)
    ensures First(s, min) < First(s, max) ==> EndOf(s[..First(s, max)]) >= min
  {
    var k, n := First(s, min), First(s, max);
    if k < n {
      assert s[k].time <= s[n - 1].time;
    }
  }

  lemma SingleTrackGives(ts: seq<Traf>, id: nat)
    requires SingleTrack(ts, id)
    ensures Sorted(All(ts)) && forall i :: 0 <= i < |ts| ==> ts[i].id == id && ts[i].samples != []
  {
  }

  lemma WantedNothing(s: seq<Timed>, min: nat, max: nat)
    ensures Wanted(s, min, max) == [] <==> First(s, min) >= First(s, max)
  {
  }
}
