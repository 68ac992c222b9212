/** The path manager as the server runs it: loops and handlers that change its two maps in place. */
module PathManager {
  import opened PathManagerModel

  class Manager {
    var pathConfs: map<Name, PathConf>
    var paths: map<Name, Path>
    var pathsByConf: map<Name, set<Path>>
    var told: map<Path, PathConf>
    var nextId: nat
    // the paths that were closed and waited for, in that order
    var closed: seq<Path>

    ghost function State(): PathManagerModel.Manager
      reads this
    {
      PathManagerModel.Manager(pathConfs, paths, pathsByConf, told, nextId)
    }

    constructor (confs: map<Name, PathConf>)
      ensures Inv(State()) && AllOwn(State()) && pathConfs == confs && closed == []
      ensures forall n :: n in paths ==> n in confs && !confs[n].regexp
    {
      pathConfs, paths, pathsByConf, told, nextId, closed := confs, map[], map[], map[], 0, [];
      new;
      AddMissing();
    }

    method CreatePath(confName: Name, conf: PathConf, name: Name)
      modifies this
      ensures State() == PathManagerModel.CreatePath(old(State()), confName, conf, name) && closed == old(closed)
    {
      var pa := Path(nextId, name, confName);
      nextId := nextId + 1;
      told := told[pa := conf];
      paths := paths[name := pa];
      if confName !in pathsByConf {
        pathsByConf := pathsByConf[confName := {}];
      }
      pathsByConf := pathsByConf[confName := pathsByConf[confName] + {pa}];
      assert pathsByConf == PathManagerModel.CreatePath(old(State()), confName, conf, name).pathsByConf;
    }

    method RemovePath(pa: Path)
      requires pa.confName in pathsByConf
      modifies this
      ensures State() == PathManagerModel.RemovePath(old(State()), pa) && closed == old(closed)
    {
      pathsByConf := pathsByConf[pa.confName := pathsByConf[pa.confName] - {pa}];
      if pathsByConf[pa.confName] == {} {
        pathsByConf := pathsByConf - {pa.confName};
      }
      paths := paths - {pa.name};
      assert pathsByConf == PathManagerModel.RemovePath(old(State()), pa).pathsByConf;
    }

    method DoClosePath(pa: Path)
      requires Inv(State())
      modifies this
      ensures Inv(State()) && State() == PathManagerModel.DoClosePath(old(State()), pa) && closed == old(closed)
    {
      CloseKeepsInv(State(), pa);
      if pa.name !in paths || paths[pa.name] != pa {
        return;
      }
      RemovePath(pa);
    }

    // The path a describe, add-reader or add-publisher request is sent on to.
    method DoAccess(confName: Name, name: Name) returns (pa: Path)
      requires Inv(State()) && confName in pathConfs
      modifies this
      ensures Inv(State()) && State() == PathManagerModel.DoAccess(old(State()), confName, name) && closed == old(closed)
      ensures name in paths && pa == paths[name]
    {
      AccessKeepsInv(State(), confName, name);
      if name !in paths {
        CreatePath(confName, pathConfs[confName], name);
      }
      pa := paths[name];
    }

    // The paths of a configuration that can be told about its new version.
    method UpdateConf(c: Name, conf: PathConf)
      modifies `told
      ensures told == old(told) + map p | p in Bucket(State(), c) :: conf
    {
      if c in pathsByConf {
        var todo := pathsByConf[c];
        while todo != {}
          invariant todo <= pathsByConf[c]
          invariant told == old(told) + map p | p in pathsByConf[c] - todo :: conf
          decreases |todo|
        {
          var pa :| pa in todo;
          todo := todo - {pa};
          told := told[pa := conf];
        }
      }
    }

    // One path is taken out of the maps, told to close and waited for.
    method RemoveAndClose(pa: Path)
      requires Agree(State()) && State().Live(pa)
      modifies this
      ensures Agree(State()) && told == old(told) && pathConfs == old(pathConfs) && nextId == old(nextId)
      ensures closed == old(closed) + [pa] && paths.Keys == old(paths.Keys) - {pa.name}
      ensures forall p :: State().Live(p) <==> old(State().Live(p)) && p != pa
    {
      RemovePathAgrees(State(), pa);
      RemovePath(pa);
      closed := closed + [pa];
    }

    // The paths of a configuration that is gone or has changed too much.
    method CloseConf(c: Name)
      requires Agree(State())
      modifies this
      ensures Agree(State()) && told == old(told) && pathConfs == old(pathConfs) && nextId == old(nextId)
      ensures forall p :: State().Live(p) <==> old(State().Live(p)) && p.confName != c
      ensures old(closed) <= closed
      ensures forall p :: p in closed[|old(closed)|..] <==> old(State().Live(p)) && p.confName == c
    {
      hide Agree;
      ghost var m := State();
      while c in pathsByConf
        invariant Agree(State()) && told == m.told && pathConfs == m.pathConfs && nextId == m.nextId
        invariant forall p :: State().Live(p) ==> m.Live(p)
        invariant forall p :: m.Live(p) && p.confName != c ==> State().Live(p)
        invariant old(closed) <= closed
        invariant forall p :: p in closed[|old(closed)|..] <==> m.Live(p) && !State().Live(p)
        decreases |paths.Keys|
      {
        var pa := ChooseOf(c);
        ghost var before := closed;
        RemoveAndClose(pa);
        assert closed[|old(closed)|..] == before[|old(closed)|..] + [pa];
      }
      NoneLeft(State(), c);
    }

    method ChooseOf(c: Name) returns (pa: Path)
      requires Agree(State()) && c in pathsByConf
      ensures pa in pathsByConf[c] && State().Live(pa) && pa.confName == c
    {
      pa :| pa in pathsByConf[c];
    }

    // A path for every plain configuration that has none.
    method AddMissing()
      requires Inv(State())
      modifies this
      ensures Inv(State()) && Added(old(State()), State()) && AllLive(State()) && closed == old(closed)
    {
      ghost var m := State();
      assert Added(m, m);
      hide Inv, Added;
      var todo := pathConfs.Keys;
      while todo != {}
        invariant todo <= pathConfs.Keys
        invariant Inv(State()) && Added(m, State()) && pathConfs == m.pathConfs && closed == old(closed)
        invariant forall c :: c in pathConfs && c !in todo && !pathConfs[c].regexp ==> c in paths
        decreases |todo|
      {
        var c :| c in todo;
        todo := todo - {c};
        if c !in paths && !pathConfs[c].regexp {
          AddedOneMore(m, State(), c);
          CreatePath(c, pathConfs[c], c);
        }
      }
    }

    // One configuration of a reload. m is the state the reload started from.
    method ReloadOne(ghost m: PathManagerModel.Manager, newPaths: map<Name, PathConf>, ghost todo: set<Name>, confName: Name)
      requires Inv(m) && Underway(m, newPaths, todo, State()) && confName in todo && confName in pathConfs
      modifies this
      ensures Underway(m, newPaths, todo - {confName}, State())
      ensures old(closed) <= closed
      ensures forall p :: p in closed[|old(closed)|..] <==>
        old(State().Live(p)) && p.confName == confName && Dropped(m, newPaths, confName)
    {
      ghost var now := State();
      if confName in newPaths {
        if newPaths[confName] != pathConfs[confName] {
          if CanBeUpdated(pathConfs[confName], newPaths[confName]) {
            UpdateConf(confName, newPaths[confName]);
            UnderwayIfUpdated(m, newPaths, todo, now, confName, State());
          } else {
            hide Underway, Agree, Inv;
            UnderwayAgrees(m, newPaths, todo, now);
            CloseConf(confName);
            UnderwayIfClosed(m, newPaths, todo, now, confName, State());
          }
        } else {
          UnderwayIfUnchanged(m, newPaths, todo, now, confName);
        }
      } else {
        hide Underway, Agree, Inv;
        UnderwayAgrees(m, newPaths, todo, now);
        CloseConf(confName);
        UnderwayIfClosed(m, newPaths, todo, now, confName, State());
      }
    }

    method DoReloadConf(newPaths: map<Name, PathConf>)
      requires Inv(State())
      modifies this
      ensures Inv(State()) && Reloaded(old(State()), newPaths, State())
      ensures old(closed) <= closed
      ensures forall p :: p in closed[|old(closed)|..] <==> old(State().Live(p)) && Dropped(old(State()), newPaths, p.confName)
    {
      hide Agree, UpToDate, Dropped;
      ghost var m := State();
      RemoveOld(newPaths);
      ghost var now := State();
      UnderwayAtEnd(m, newPaths, now);
      pathConfs := newPaths;
      AddMissing();
      AllReloaded(m, newPaths, now, State());
    }

    method RemoveOld(newPaths: map<Name, PathConf>)
      requires Inv(State())
      modifies this
      ensures Underway(old(State()), newPaths, {}, State())
      ensures old(closed) <= closed
      ensures forall p :: p in closed[|old(closed)|..] <==> old(State().Live(p)) && Dropped(old(State()), newPaths, p.confName)
    {
      hide Inv, Agree, UpToDate, Dropped;
      var todo := pathConfs.Keys;
      ghost var m := State();
      UnderwayAtStart(m, newPaths);
      while todo != {}
        invariant todo <= m.pathConfs.Keys
        invariant Underway(m, newPaths, todo, State())
        invariant old(closed) <= closed
        invariant forall p :: p in closed[|old(closed)|..] <==> m.Live(p) && p.confName !in todo && Dropped(m, newPaths, p.confName)
        decreases |todo|
      {
        var confName :| confName in todo;
        ReloadOne(m, newPaths, todo, confName);
        todo := todo - {confName};
      }
      assert Inv(m);
    }

    // Any event, in any state the manager can be in.
    method HandleEvent(e: Event)
      requires Inv(State())
      modifies this
      ensures Inv(State()) && Step(old(State()), e, State())
    {
      hide Inv;
      match e {
        case ReloadConf(newPaths) => DoReloadConf(newPaths);
        case ClosePath(pa) => DoClosePath(pa);
        case Access(confName, name) =>
          if confName in pathConfs {
            var pa := DoAccess(confName, name);
          }
      }
    }

    // Any events, in any order.
    method Run(events: seq<Event>) returns (ghost trace: seq<PathManagerModel.Manager>)
      requires Inv(State())
      modifies this
      ensures PathManagerModel.Run(trace, events) && trace[0] == old(State()) && trace[|events|] == State()
    {
      hide Inv, Step;
      trace := [State()];
      for i := 0 to |events|
        invariant |trace| == i + 1 && trace[0] == old(State()) && trace[i] == State()
        invariant PathManagerModel.Run(trace, events[..i])
      {
        ghost var before := trace;
        HandleEvent(events[i]);
        trace := trace + [State()];
        assert events[..i + 1] == events[..i] + [events[i]];
      }
      assert events[..|events|] == events;
    }
  }
}
