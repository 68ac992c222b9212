/** What the recorder writes, the player can seek in. */
module RecordedPlayback {
  import opened Wrappers
  import R = RecordModel
  import T = RecordTimeline
  import opened PlaybackModel
  import opened PlaybackWindow

  function Read(x: R.Stored): Sample {
    Sample(x.duration, x.sample.sync, 0, x.sample.media)
  }

  function ReadAll(xs: seq<R.Stored>): (r: seq<Sample>)
    ensures |r| == |xs|
  {
    seq(|xs|, i requires 0 <= i < |xs| => Read(xs[i]))
  }

  // A track in some parts, as the player reads it.
  function Trafs(ps: seq<R.Part>, t: nat): seq<Traf> {
    if ps == [] then []
    else
      var p := ps[|ps| - 1];
      Trafs(ps[..|ps| - 1], t)
      + if t in p.tracks then [Traf(t, p.tracks[t].baseTime, ReadAll(p.tracks[t].samples))] else []
  }

  lemma {:induction false} SameLength(xs: seq<R.Stored>)
    ensures Length(ReadAll(xs)) == T.Sum(xs)
  {
    if xs != [] {
      SameLength(xs[..|xs| - 1]);
      assert ReadAll(xs)[..|xs| - 1] == ReadAll(xs[..|xs| - 1]);
    }
  }

  // The samples of a trun start in order, between its base time and its end.
  lemma {:induction false} TrunIsSorted(base: nat, ss: seq<Sample>)
    ensures Sorted(Timeline(base, ss))
    ensures forall x :: x in Timeline(base, ss) ==> base <= x.time <= base + Length(ss)
    decreases |ss|
  {
    if ss != [] {
      var rest := Timeline(base + ss[0].duration, ss[1..]);
      TrunIsSorted(base + ss[0].duration, ss[1..]);
      assert ss == [ss[0]] + ss[1..];
      LengthCons(ss[0], ss[1..]);
      assert Timeline(base, ss) == [Timed(base, ss[0])] + rest;
      assert forall i :: 0 <= i < |rest| ==> rest[i] in rest;
    }
  }

  // Parts that come one after the other in time.
  ghost predicate InTurn(ps: seq<R.Part>, t: nat) {
    && (forall i :: 0 <= i < |ps| && t in ps[i].tracks ==> ps[i].tracks[t].samples != [])
    && (forall i, j :: 0 <= i < j < |ps| && t in ps[i].tracks && t in ps[j].tracks ==>
          T.EndOf(ps[i].tracks[t]) <= ps[j].tracks[t].baseTime)
  }

  // Every sample starts by the end of its part.
  lemma {:induction false} EndsInPart(ps: seq<R.Part>, t: nat, limit: nat)
    requires forall i :: 0 <= i < |ps| && t in ps[i].tracks ==> T.EndOf(ps[i].tracks[t]) <= limit
    ensures forall x :: x in All(Trafs(ps, t)) ==> x.time <= limit
  {
    if ps != [] {
      var front, p := ps[..|ps| - 1], ps[|ps| - 1];
      EndsInPart(front, t, limit);
      assert Trafs(front, t) + [] == Trafs(front, t);
      if t in p.tracks {
        AllSnoc(Trafs(front, t), Traf(t, p.tracks[t].baseTime, ReadAll(p.tracks[t].samples)));
        TrunIsSorted(p.tracks[t].baseTime, ReadAll(p.tracks[t].samples));
        SameLength(p.tracks[t].samples);
      }
    }
  }

  lemma AllSnoc(ts: seq<Traf>, x: Traf)
    ensures All(ts + [x]) == All(ts) + Timeline(x.base, x.samples)
  {
    assert (ts + [x])[..|ts|] == ts;
  }

  lemma SortedSum(a: seq<Timed>, b: seq<Timed>)
    requires Sorted(a) && Sorted(b)
    requires forall x, y :: x in a && y in b ==> x.time <= y.time
    ensures Sorted(a + b)
  {
    var s := a + b;
    forall i, j | 0 <= i <= j < |s|
      ensures s[i].time <= s[j].time
    {
      assert i < |a| ==> s[i] == a[i] && s[i] in a;
      assert j >= |a| ==> s[j] == b[j - |a|] && s[j] in b;
      if i >= |a| {
        assert s[i] == b[i - |a|];
      } else if j < |a| {
        assert s[j] == a[j];
      }
    }
  }

  lemma {:induction false} TurnsAreSorted(ps: seq<R.Part>, t: nat)
    requires InTurn(ps, t)
    ensures SingleTrack(Trafs(ps, t), t)
  {
    if ps != [] {
      var front, p := ps[..|ps| - 1], ps[|ps| - 1];
      TurnsAreSorted(front, t);
      assert Trafs(front, t) + [] == Trafs(front, t);
      if t in p.tracks {
        var track := p.tracks[t];
        var x := Traf(t, track.baseTime, ReadAll(track.samples));
        EndsInPart(front, t, track.baseTime);
        OneMore(Trafs(front, t), x, t);
      }
    }
  }

  lemma OneMore(ts: seq<Traf>, x: Traf, id: nat)
    requires SingleTrack(ts, id) && x.id == id && x.samples != []
    requires forall y :: y in All(ts) ==> y.time <= x.base
    ensures SingleTrack(ts + [x], id)
  {
    hide Sorted, All;
    AllSnoc(ts, x);
    TrunIsSorted(x.base, x.samples);
    SortedSum(All(ts), Timeline(x.base, x.samples));
  }

  // A track of a recorded segment meets what the player needs: no empty part, and no part that starts before
  // the end of an earlier one.
  lemma RecordedIsSeekable(s: R.Segment, t: nat)
    requires R.Timeline(s, t)
    ensures SingleTrack(Trafs(R.WholeParts(s), t), t)
  {
    var ps := R.WholeParts(s);
    forall i, j | 0 <= i < j < |ps| && t in ps[i].tracks && t in ps[j].tracks
      ensures T.EndOf(ps[i].tracks[t]) <= ps[j].tracks[t].baseTime
    {
      T.PartsDoNotOverlap(s, t, i, j);
    }
    TurnsAreSorted(ps, t);
  }
}
