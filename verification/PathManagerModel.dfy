/** The path manager on values: two maps over the same paths, and what a reload makes of them. */
module PathManagerModel {
  type Name = string

  // A configuration: is its name a regular expression, the fields a running path can be told to change,
  // and all the others.
  datatype PathConf = PathConf(regexp: bool, updatable: int, fixed: int)

  predicate CanBeUpdated(oldConf: PathConf, newConf: PathConf) {
    newConf == oldConf.(updatable := newConf.updatable)
  }

  // A path object: its identity, and the two names it is filed under.
  datatype Path = Path(id: nat, name: Name, confName: Name)

  datatype Manager = Manager(
    pathConfs: map<Name, PathConf>,
    paths: map<Name, Path>,
    pathsByConf: map<Name, set<Path>>,
    told: map<Path, PathConf>,
    nextId: nat)
  {
    ghost predicate Live(p: Path) {
      p.name in paths && paths[p.name] == p
    }
  }

  // The two maps hold the same paths, each under its own names, and no bucket is empty.
  ghost predicate Agree(m: Manager) {
    && (forall n :: n in m.paths ==>
          && m.paths[n].name == n
          && m.paths[n].id < m.nextId
          && m.paths[n].confName in m.pathsByConf
          && m.paths[n] in m.pathsByConf[m.paths[n].confName])
    && (forall c :: c in m.pathsByConf ==> m.pathsByConf[c] != {})
    && (forall c, p :: c in m.pathsByConf && p in m.pathsByConf[c] ==> p.confName == c && m.Live(p))
  }

  // No live path belongs to a deleted configuration, and each was created with the present version of its
  // configuration or sent it since.
  ghost predicate UpToDate(m: Manager) {
    forall n :: n in m.paths ==>
      && m.paths[n].confName in m.pathConfs
      && m.paths[n] in m.told
      && m.told[m.paths[n]] == m.pathConfs[m.paths[n].confName]
  }

  ghost predicate Inv(m: Manager) {
    Agree(m) && UpToDate(m)
  }

  // Every configuration that is not a regular expression has a live path of that name.
  ghost predicate AllLive(m: Manager) {
    forall c :: c in m.pathConfs && !m.pathConfs[c].regexp ==> c in m.paths
  }

  // ... and the path is filed under that configuration.
  ghost predicate AllOwn(m: Manager) {
    forall c :: c in m.pathConfs && !m.pathConfs[c].regexp ==> c in m.paths && m.paths[c].confName == c
  }

  // --- Removing and creating a path ------------------------------------------------------------

  function RemovePath(m: Manager, p: Path): Manager
    requires p.confName in m.pathsByConf
  {
    var bucket := m.pathsByConf[p.confName] - {p};
    m.(pathsByConf := if bucket == {} then m.pathsByConf - {p.confName} else m.pathsByConf[p.confName := bucket],
       paths := m.paths - {p.name})
  }

  function CreatePath(m: Manager, confName: Name, conf: PathConf, name: Name): Manager {
    var p := Path(m.nextId, name, confName);
    var bucket := (if confName in m.pathsByConf then m.pathsByConf[confName] else {}) + {p};
    m.(paths := m.paths[name := p],
       pathsByConf := m.pathsByConf[confName := bucket],
       told := m.told[p := conf],
       nextId := m.nextId + 1)
  }

  lemma RemovePathAgrees(m: Manager, p: Path)
    requires Agree(m) && m.Live(p)
    ensures Agree(RemovePath(m, p))
    ensures UpToDate(m) ==> UpToDate(RemovePath(m, p))
    ensures forall q :: RemovePath(m, p).Live(q) <==> m.Live(q) && q != p
    ensures RemovePath(m, p).paths.Keys == m.paths.Keys - {p.name}
  {
    var m' := RemovePath(m, p);
    forall n | n in m'.paths
      ensures m'.paths[n].confName in m'.pathsByConf && m'.paths[n] in m'.pathsByConf[m'.paths[n].confName]
    {
      var q := m.paths[n];
      assert q in m.pathsByConf[q.confName] - {p};
    }
    forall c, q | c in m'.pathsByConf && q in m'.pathsByConf[c]
      ensures q.confName == c && m'.Live(q)
    {
      assert q in m.pathsByConf[c] && q != p;
    }
  }

  lemma CreatePathAgrees(m: Manager, confName: Name, conf: PathConf, name: Name)
    requires Agree(m) && name !in m.paths
    ensures Agree(CreatePath(m, confName, conf, name))
    ensures UpToDate(m) && confName in m.pathConfs && m.pathConfs[confName] == conf
            ==> UpToDate(CreatePath(m, confName, conf, name))
  {
    var m' := CreatePath(m, confName, conf, name);
    forall c, q | c in m'.pathsByConf && q in m'.pathsByConf[c]
      ensures q.confName == c && m'.Live(q)
    {
      if q != Path(m.nextId, name, confName) {
        assert c in m.pathsByConf && q in m.pathsByConf[c];
      }
    }
  }

  // doClosePath: only the path that is still filed under its name is removed.
  function DoClosePath(m: Manager, p: Path): Manager
    requires Agree(m)
  {
    if p.name !in m.paths || m.paths[p.name] != p then m else RemovePath(m, p)
  }

  // Closing keeps the maps in agreement and removes at most the path it names. A late close of a path that has
  // been replaced changes nothing, so its successor stays.
  lemma CloseKeepsInv(m: Manager, p: Path)
    requires Inv(m)
    ensures Inv(DoClosePath(m, p))
    ensures forall q :: DoClosePath(m, p).Live(q) <==> m.Live(q) && q != p
    ensures forall successor :: m.Live(successor) && successor.name == p.name && successor != p ==> DoClosePath(m, p) == m
  {
    if m.Live(p) {
      RemovePathAgrees(m, p);
    }
  }

  // It leaves a configuration without a path exactly when the path served the name of one. That takes a
  // path of a regular expression whose name has got a configuration of its own since.
  lemma CloseKeepsAllLive(m: Manager, p: Path)
    requires Inv(m) && AllLive(m)
    ensures AllLive(DoClosePath(m, p))
       <==> !(m.Live(p) && p.name in m.pathConfs && !m.pathConfs[p.name].regexp)
  {
  }

  // doDescribe, doAddReader, doAddPublisher: the path of a name, created when there is none.
  function DoAccess(m: Manager, confName: Name, name: Name): Manager
    requires confName in m.pathConfs
  {
    if name in m.paths then m else CreatePath(m, confName, m.pathConfs[confName], name)
  }

  lemma AccessKeepsInv(m: Manager, confName: Name, name: Name)
    requires Inv(m) && confName in m.pathConfs
    ensures Inv(DoAccess(m, confName, name)) && name in DoAccess(m, confName, name).paths
    ensures forall q :: m.Live(q) ==> DoAccess(m, confName, name).Live(q)
    ensures AllLive(m) ==> AllLive(DoAccess(m, confName, name))
  {
    if name !in m.paths {
      CreatePathAgrees(m, confName, m.pathConfs[confName], name);
    }
  }

  // --- Reload ----------------------------------------------------------------------------------

  // The configurations whose paths have to go.
  predicate Dropped(m: Manager, newConfs: map<Name, PathConf>, c: Name) {
    c in m.pathConfs && (c !in newConfs || (newConfs[c] != m.pathConfs[c] && !CanBeUpdated(m.pathConfs[c], newConfs[c])))
  }

  ghost predicate Survives(m: Manager, newConfs: map<Name, PathConf>, p: Path) {
    m.Live(p) && !Dropped(m, newConfs, p.confName)
  }

  // What a reload promises about the live paths: the survivors are still there, under their names, and
  // besides them there is exactly one new path for every other plain configuration.
  ghost predicate Reloaded(m: Manager, newConfs: map<Name, PathConf>, m': Manager) {
    && m'.pathConfs == newConfs
    && (forall p :: Survives(m, newConfs, p) ==> m'.Live(p))
    && (forall n :: n in m'.paths ==>
          Survives(m, newConfs, m'.paths[n])
          || (&& m'.paths[n].id >= m.nextId && m'.paths[n].confName == n
              && n in newConfs && !newConfs[n].regexp))
    && (forall c :: c in newConfs && !newConfs[c].regexp ==> c in m'.paths)
  }

  // The state in the middle of a reload: the configurations of todo still have their old paths, the others
  // have been dealt with.
  ghost predicate Underway(m: Manager, newConfs: map<Name, PathConf>, todo: set<Name>, now: Manager) {
    && Agree(now)
    && now.pathConfs == m.pathConfs && now.nextId == m.nextId
    && (forall p :: now.Live(p) <==> m.Live(p) && (p.confName in todo || !Dropped(m, newConfs, p.confName)))
    && (forall n :: n in now.paths ==> now.paths[n] in now.told && m.Live(now.paths[n]))
    && (forall n :: n in now.paths && now.paths[n].confName in todo ==>
          now.paths[n].confName in m.pathConfs && now.told[now.paths[n]] == m.pathConfs[now.paths[n].confName])
    && (forall n :: n in now.paths && now.paths[n].confName !in todo ==>
          now.paths[n].confName in newConfs && now.told[now.paths[n]] == newConfs[now.paths[n].confName])
  }

  ghost function Bucket(m: Manager, c: Name): set<Path> {
    if c in m.pathsByConf then m.pathsByConf[c] else {}
  }

  lemma BucketIsLive(m: Manager, c: Name, p: Path)
    requires Agree(m)
    ensures p in Bucket(m, c) <==> m.Live(p) && p.confName == c
  {
  }

  lemma NoneLeft(m: Manager, c: Name)
    requires Agree(m) && c !in m.pathsByConf
    ensures forall p :: m.Live(p) ==> p.confName != c
  {
  }

  lemma UnderwayAgrees(m: Manager, newConfs: map<Name, PathConf>, todo: set<Name>, now: Manager)
    requires Underway(m, newConfs, todo, now)
    ensures Agree(now) && now.pathConfs == m.pathConfs && now.nextId == m.nextId
  {
  }

  lemma UnderwayAtStart(m: Manager, newConfs: map<Name, PathConf>)
    requires Inv(m)
    ensures Underway(m, newConfs, m.pathConfs.Keys, m)
  {
    forall p | m.Live(p)
      ensures p.confName in m.pathConfs.Keys
    {
      assert m.paths[p.name] == p;
    }
  }

  lemma UnderwayIfUnchanged(m: Manager, newConfs: map<Name, PathConf>, todo: set<Name>, now: Manager, c: Name)
    requires Inv(m) && Underway(m, newConfs, todo, now) && c in todo && c in m.pathConfs
    requires c in newConfs && newConfs[c] == m.pathConfs[c]
    ensures Underway(m, newConfs, todo - {c}, now)
  {
  }

  lemma UnderwayIfUpdated(m: Manager, newConfs: map<Name, PathConf>, todo: set<Name>, now: Manager, c: Name, now': Manager)
    requires Inv(m) && Underway(m, newConfs, todo, now) && c in todo && c in m.pathConfs
    requires c in newConfs && CanBeUpdated(m.pathConfs[c], newConfs[c])
    requires now' == now.(told := now.told + map p | p in Bucket(now, c) :: newConfs[c])
    ensures Underway(m, newConfs, todo - {c}, now')
  {
    forall n | n in now'.paths
      ensures now'.paths[n] in now'.told
      ensures now'.told[now'.paths[n]] == if now.paths[n].confName == c then newConfs[c] else now.told[now.paths[n]]
    {
      BucketIsLive(now, c, now.paths[n]);
    }
    assert forall p :: now'.Live(p) <==> now.Live(p);
  }

  lemma UnderwayIfClosed(m: Manager, newConfs: map<Name, PathConf>, todo: set<Name>, now: Manager, c: Name, now': Manager)
    requires Inv(m) && Underway(m, newConfs, todo, now) && c in todo && c in m.pathConfs
    requires Dropped(m, newConfs, c)
    requires Agree(now') && now'.told == now.told && now'.pathConfs == now.pathConfs && now'.nextId == now.nextId
    requires forall p :: now'.Live(p) <==> now.Live(p) && p.confName != c
    ensures Underway(m, newConfs, todo - {c}, now')
  {
    forall n | n in now'.paths
      ensures n in now.paths && now.paths[n] == now'.paths[n] && now'.paths[n].confName != c
    {
      assert now'.Live(now'.paths[n]);
    }
  }

  // With nothing left to do the new configurations can take over.
  lemma UnderwayAtEnd(m: Manager, newConfs: map<Name, PathConf>, now: Manager)
    requires Inv(m) && Underway(m, newConfs, {}, now)
    ensures Inv(now.(pathConfs := newConfs))
    ensures forall p :: now.Live(p) <==> Survives(m, newConfs, p)
  {
  }

  // Paths of m are untouched in m', and every path besides them is new and is that of a plain configuration.
  ghost predicate Added(m: Manager, m': Manager) {
    && m'.pathConfs == m.pathConfs && m'.nextId >= m.nextId
    && (forall n :: n in m.paths ==> n in m'.paths && m'.paths[n] == m.paths[n])
    && (forall n :: n in m'.paths && n !in m.paths ==>
          && m'.paths[n].id >= m.nextId && m'.paths[n].confName == n
          && n in m.pathConfs && !m.pathConfs[n].regexp)
  }

  lemma AddedOneMore(m: Manager, now: Manager, c: Name)
    requires Inv(now) && Added(m, now) && c in now.pathConfs && c !in now.paths && !now.pathConfs[c].regexp
    ensures Inv(CreatePath(now, c, now.pathConfs[c], c)) && Added(m, CreatePath(now, c, now.pathConfs[c], c))
  {
    CreatePathAgrees(now, c, now.pathConfs[c], c);
  }

  // Adding the missing paths completes it.
  lemma AllReloaded(m: Manager, newConfs: map<Name, PathConf>, now: Manager, m': Manager)
    requires Inv(m) && Underway(m, newConfs, {}, now)
    requires AllLive(m') && Added(now.(pathConfs := newConfs), m')
    ensures Reloaded(m, newConfs, m')
  {
    hide Inv, Dropped;
    forall p | Survives(m, newConfs, p)
      ensures m'.Live(p)
    {
      assert now.Live(p);
    }
    forall n | n in now.paths
      ensures Survives(m, newConfs, now.paths[n])
    {
      assert Agree(now) && now.Live(now.paths[n]);
    }
  }

  // After a reload every plain configuration has a live path, and no path of a dropped one is left.
  lemma ReloadedIsLive(m: Manager, newConfs: map<Name, PathConf>, m': Manager)
    requires Inv(m) && Inv(m') && Reloaded(m, newConfs, m')
    ensures AllLive(m')
    ensures forall p :: m'.Live(p) && m.Live(p) ==> !Dropped(m, newConfs, p.confName)
  {
    forall p | m'.Live(p) && m.Live(p)
      ensures !Dropped(m, newConfs, p.confName)
    {
      assert p.id < m.nextId;
      assert Survives(m, newConfs, m'.paths[p.name]);
    }
  }

  // That path is filed under its own configuration, unless a path of another configuration that survives
  // the reload already has the name.
  lemma ReloadedIsOwn(m: Manager, newConfs: map<Name, PathConf>, m': Manager, c: Name)
    requires Inv(m) && Inv(m') && Reloaded(m, newConfs, m')
    requires c in newConfs && !newConfs[c].regexp
    ensures m'.paths[c].confName == c
       <==> !(c in m.paths && m.paths[c].confName != c && Survives(m, newConfs, m.paths[c]))
  {
    if c in m.paths && Survives(m, newConfs, m.paths[c]) {
      assert m'.Live(m.paths[c]);
    } else {
      assert m'.Live(m'.paths[c]);
    }
  }

  // --- Runs ------------------------------------------------------------------------------------

  // The events that touch the maps. An access names the configuration found for it; with none found the
  // request is refused.
  datatype Event =
    | ReloadConf(newPaths: map<Name, PathConf>)
    | ClosePath(pa: Path)
    | Access(confName: Name, name: Name)

  ghost predicate Step(m: Manager, e: Event, m': Manager)
    requires Inv(m)
  {
    match e
    case ReloadConf(newPaths) => Reloaded(m, newPaths, m')
    case ClosePath(pa) => m' == DoClosePath(m, pa)
    case Access(confName, name) => m' == if confName in m.pathConfs then DoAccess(m, confName, name) else m
  }

  // Paths close themselves only when their configuration is a regular expression.
  ghost predicate Proper(m: Manager, e: Event)
    requires Inv(m)
  {
    e.ClosePath? && m.Live(e.pa) ==> m.told[e.pa].regexp
  }

  // A reload that gives the name of a surviving path of another configuration a plain one of its own.
  ghost predicate Shadows(m: Manager, e: Event) {
    e.ReloadConf? && exists c ::
      && c in e.newPaths && !e.newPaths[c].regexp
      && c in m.paths && m.paths[c].confName != c && Survives(m, e.newPaths, m.paths[c])
  }

  // It is the only event that takes a plain configuration its own path.
  lemma StepKeepsAllOwn(m: Manager, e: Event, m': Manager)
    requires Inv(m) && Inv(m') && Step(m, e, m') && Proper(m, e) && AllOwn(m)
    ensures AllOwn(m') <==> !Shadows(m, e)
  {
    match e
    case ReloadConf(newPaths) =>
      forall c | c in newPaths && !newPaths[c].regexp
        ensures c in m'.paths
        ensures m'.paths[c].confName == c
           <==> !(c in m.paths && m.paths[c].confName != c && Survives(m, newPaths, m.paths[c]))
      {
        ReloadedIsOwn(m, newPaths, m', c);
      }
    case ClosePath(pa) =>
    case Access(confName, name) =>
  }

  ghost predicate Run(trace: seq<Manager>, events: seq<Event>) {
    && |trace| == |events| + 1
    && (forall i :: 0 <= i <= |events| ==> Inv(trace[i]))
    && (forall i :: 0 <= i < |events| ==> Step(trace[i], events[i], trace[i + 1]))
  }

  // Over any run without such a reload every plain configuration has its own live path at every step.
  lemma {:induction false} RunKeepsAllOwn(trace: seq<Manager>, events: seq<Event>, k: nat)
    requires Run(trace, events) && k <= |events| && AllOwn(trace[0])
    requires forall i :: 0 <= i < k ==> Proper(trace[i], events[i]) && !Shadows(trace[i], events[i])
    ensures AllOwn(trace[k])
  {
    hide Inv, Step, Proper, Shadows, AllOwn;
    if k > 0 {
      RunKeepsAllOwn(trace, events, k - 1);
      StepKeepsAllOwn(trace[k - 1], events[k - 1], trace[k]);
    }
  }

  // Such a reload: a path of a regular expression stays when its name gets a configuration of its own, and
  // when it closes later the new configuration has no path.
  lemma RegexpPathShadowsConf(m: Manager, all: Name, cam: Name, p: Path, newConfs: map<Name, PathConf>, m': Manager)
    requires Inv(m) && all != cam && p == Path(p.id, cam, all) && m.Live(p)
    requires m.pathConfs == map[all := PathConf(true, 0, 0)]
    requires newConfs == map[all := PathConf(true, 0, 0), cam := PathConf(false, 0, 1)]
    requires Inv(m') && Reloaded(m, newConfs, m')
    ensures m'.paths[cam] == p && !AllOwn(m') && AllLive(m') && !AllLive(DoClosePath(m', p))
  {
    assert Survives(m, newConfs, p);
    ReloadedIsLive(m, newConfs, m');
    CloseKeepsAllLive(m', p);
  }

  // A run that comes to it, from the start of the manager: a request for "cam" is served under the regular
  // expression, a reload adds a configuration "cam", and the path closes.
  lemma ShadowedRun() returns (trace: seq<Manager>, events: seq<Event>)
    ensures var all, cam := "~^.*$", "cam";
      var newConfs := map[all := PathConf(true, 0, 0), cam := PathConf(false, 0, 1)];
      events == [Access(all, cam), ReloadConf(newConfs), ClosePath(Path(0, cam, all))]
    ensures Run(trace, events)
    ensures trace[0] == Manager(map["~^.*$" := PathConf(true, 0, 0)], map[], map[], map[], 0) && AllOwn(trace[0])
    ensures forall i :: 0 <= i < 3 ==> Proper(trace[i], events[i])
    ensures AllLive(trace[2]) && !AllOwn(trace[2]) && !AllLive(trace[3])
  {
    var all, cam := "~^.*$", "cam";
    var p := Path(0, cam, all);
    var newConfs := map[all := PathConf(true, 0, 0), cam := PathConf(false, 0, 1)];
    var m0 := Manager(map[all := PathConf(true, 0, 0)], map[], map[], map[], 0);
    var m1 := DoAccess(m0, all, cam);
    AccessKeepsInv(m0, all, cam);
    assert m1.paths == map[cam := p] && m1.told == map[p := PathConf(true, 0, 0)];
    var m2 := m1.(pathConfs := newConfs);
    ReloadedForShadow(m1, newConfs, all, cam, p);
    var m3 := DoClosePath(m2, p);
    CloseKeepsInv(m2, p);
    RegexpPathShadowsConf(m1, all, cam, p, newConfs, m2);
    trace := [m0, m1, m2, m3];
    events := [Access(all, cam), ReloadConf(newConfs), ClosePath(p)];
  }

  lemma ReloadedForShadow(m: Manager, newConfs: map<Name, PathConf>, all: Name, cam: Name, p: Path)
    requires Inv(m) && all != cam && p == Path(0, cam, all) && m.nextId == 1
    requires m.pathConfs == map[all := PathConf(true, 0, 0)] && m.paths == map[cam := p]
    requires newConfs == map[all := PathConf(true, 0, 0), cam := PathConf(false, 0, 1)]
    ensures Inv(m.(pathConfs := newConfs)) && Reloaded(m, newConfs, m.(pathConfs := newConfs))
  {
    var m' := m.(pathConfs := newConfs);
    assert forall q :: m'.Live(q) <==> q == p;
    assert forall q :: m.Live(q) <==> q == p;
    assert Survives(m, newConfs, p);
  }
}
