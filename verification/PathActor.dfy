/** The path actor as the server runs it: handlers that update the fields of one object. */
module PathActor {
  import opened Wrappers
  import opened PathModel
  import PathInvariant
  import PathRuns

  // The static source handler: starting it twice, or stopping it when it does not run, is a panic.
  class StaticSourceHandler {
    var running: bool

    constructor ()
      ensures !running
    {
      running := false;
    }

    method Start()
      requires !running
      modifies this
      ensures running
    {
      running := true;
    }

    method Stop()
      requires running
      modifies this
      ensures !running
    {
      running := false;
    }
  }

  class Path {
    const handler: StaticSourceHandler
    var conf: Conf
    var source: Source
    var stream: Option<StreamId>
    var recordAgent: bool
    var onUnDemandHook: bool
    var onNotReadyHook: bool
    var readers: set<ReaderId>
    var describeRequestsOnHold: seq<RequestId>
    var readerAddRequestsOnHold: seq<ReaderRequest>
    var onDemandStaticSourceState: OnDemandState
    var onDemandStaticSourceReadyTimer: bool
    var onDemandStaticSourceCloseTimer: bool
    var onDemandPublisherState: OnDemandState
    var onDemandPublisherReadyTimer: bool
    var onDemandPublisherCloseTimer: bool
    var log: seq<Action>

    ghost function State(): PathModel.State
      reads this, handler
    {
      PathModel.State(
        conf, source, handler.running, stream, recordAgent, onUnDemandHook, onNotReadyHook, readers,
        describeRequestsOnHold, readerAddRequestsOnHold,
        OnDemand(onDemandStaticSourceState, onDemandStaticSourceReadyTimer, onDemandStaticSourceCloseTimer),
        OnDemand(onDemandPublisherState, onDemandPublisherReadyTimer, onDemandPublisherCloseTimer),
        log)
    }

    // The part of run that comes before the event loop.
    constructor (conf: Conf)
      ensures State() == PathModel.Start(conf) && fresh(handler)
    {
      this.conf := conf;
      source := if conf.source == FromRedirect then Redirect else if conf.HasStaticSource() then StaticHandler else NoSource;
      stream, recordAgent, onUnDemandHook, onNotReadyHook, readers := None, false, false, false, {};
      describeRequestsOnHold, readerAddRequestsOnHold := [], [];
      onDemandStaticSourceState, onDemandStaticSourceReadyTimer, onDemandStaticSourceCloseTimer := Initial, false, false;
      onDemandPublisherState, onDemandPublisherReadyTimer, onDemandPublisherCloseTimer := Initial, false, false;
      log := [];
      handler := new StaticSourceHandler();
      new;
      if conf.HasStaticSource() && !conf.sourceOnDemand {
        handler.Start();
        log := log + [HandlerStarted];
      }
    }

    // --- The pieces the handlers share ---------------------------------------------------------

    method OnDemandStaticSourceStart()
      requires !handler.running
      modifies this, handler
      ensures State() == StaticStart(old(State()))
    {
      handler.Start();
      log := log + [HandlerStarted];
      onDemandStaticSourceReadyTimer := true;
      onDemandStaticSourceState := WaitingReady;
    }

    method OnDemandStaticSourceScheduleClose()
      modifies this
      ensures State() == StaticScheduleClose(old(State()))
    {
      onDemandStaticSourceCloseTimer := true;
      onDemandStaticSourceState := Closing;
    }

    method OnDemandStaticSourceStop()
      requires handler.running
      modifies this, handler
      ensures State() == StaticStop(old(State()))
    {
      if onDemandStaticSourceState == Closing {
        onDemandStaticSourceCloseTimer := false;
      }
      onDemandStaticSourceState := Initial;
      handler.Stop();
      log := log + [HandlerStopped];
    }

    method OnDemandPublisherStart()
      modifies this
      ensures State() == PublisherStart(old(State()))
    {
      onUnDemandHook := true;
      log := log + [OnDemandHook];
      onDemandPublisherReadyTimer := true;
      onDemandPublisherState := WaitingReady;
    }

    method OnDemandPublisherScheduleClose()
      modifies this
      ensures State() == PublisherScheduleClose(old(State()))
    {
      onDemandPublisherCloseTimer := true;
      onDemandPublisherState := Closing;
    }

    // The hook is a function field: it must be set when it is called.
    method OnDemandPublisherStop()
      requires onUnDemandHook
      modifies this
      ensures State() == PublisherStop(old(State()))
    {
      if onDemandPublisherState == Closing {
        onDemandPublisherCloseTimer := false;
      }
      log := log + [OnUnDemandHook];
      onUnDemandHook := false;
      onDemandPublisherState := Initial;
    }

    method SetReady(result: Option<StreamId>)
      modifies this
      ensures State() == PathModel.SetReady(old(State()), result)
    {
      stream := result;
      if result.Some? {
        if conf.record {
          recordAgent := true;
        }
        onNotReadyHook := true;
        log := log + [OnReadyHook];
        log := log + [PathReady];
      }
    }

    method RemoveReaders() returns (closed: set<ReaderId>)
      modifies `readers
      ensures readers == {} && closed == old(readers)
    {
      closed := {};
      while readers != {}
        invariant closed + readers == old(readers)
        decreases |readers|
      {
        var r :| r in readers;
        readers := readers - {r};
        closed := closed + {r};
      }
    }

    method SetNotReady()
      requires onNotReadyHook
      modifies this
      ensures State() == PathModel.SetNotReady(old(State()))
    {
      log := log + [PathNotReady];
      var closed := RemoveReaders();
      log := log + [ReadersClosed(closed)];
      log := log + [OnNotReadyHook];
      recordAgent := false;
      stream := None;
    }

    method ReplyToDescribes(response: Response)
      modifies `log
      ensures log == old(log) + Replies(describeRequestsOnHold, response)
    {
      ghost var replies := Replies(describeRequestsOnHold, response);
      for i := 0 to |describeRequestsOnHold|
        invariant log + Replies(describeRequestsOnHold[i..], response) == old(log) + replies
      {
        assert describeRequestsOnHold[i..][1..] == describeRequestsOnHold[i + 1..];
        log := log + [Replied(describeRequestsOnHold[i], response)];
      }
    }

    method ReplyToReaders(response: Response)
      modifies `log
      ensures log == old(log) + Replies(Ids(readerAddRequestsOnHold), response)
    {
      ghost var replies := Replies(Ids(readerAddRequestsOnHold), response);
      for i := 0 to |readerAddRequestsOnHold|
        invariant log + Replies(Ids(readerAddRequestsOnHold[i..]), response) == old(log) + replies
      {
        assert readerAddRequestsOnHold[i..][1..] == readerAddRequestsOnHold[i + 1..];
        log := log + [Replied(readerAddRequestsOnHold[i].id, response)];
      }
    }

    method AnswerAllOnHold(response: Response)
      modifies `log, `describeRequestsOnHold, `readerAddRequestsOnHold
      ensures State() == AnswerOnHold(old(State()), response)
    {
      ReplyToDescribes(response);
      describeRequestsOnHold := [];
      ReplyToReaders(response);
      readerAddRequestsOnHold := [];
    }

    method AddToReaders(author: ReaderId)
      modifies this
      ensures State() == JoinReader(old(State()), author)
    {
      readers := readers + {author};
      if conf.HasOnDemandStaticSource() {
        if onDemandStaticSourceState == Closing {
          onDemandStaticSourceState := Ready;
          onDemandStaticSourceCloseTimer := false;
        }
      } else if conf.HasOnDemandPublisher() {
        if onDemandPublisherState == Closing {
          onDemandPublisherState := Ready;
          onDemandPublisherCloseTimer := false;
        }
      }
    }

    method AddReaderPost(req: ReaderRequest)
      requires stream.Some?
      modifies this
      ensures State() == PathModel.AddReaderPost(old(State()), req)
    {
      hide JoinReader;
      if req.author in readers {
        log := log + [Replied(req.id, WithStream(stream.value))];
        return;
      }
      if conf.maxReaders != 0 && |readers| >= conf.maxReaders {
        log := log + [Replied(req.id, TooManyReaders)];
        return;
      }
      AddToReaders(req.author);
      log := log + [Replied(req.id, WithStream(stream.value))];
    }

    method ConsumeOnHoldRequests()
      requires stream.Some?
      modifies this
      ensures State() == ConsumeOnHold(old(State()))
    {
      hide PathModel.AddReaderPost;
      ReplyToDescribes(WithStream(stream.value));
      describeRequestsOnHold := [];
      var reqs := readerAddRequestsOnHold;
      ghost var expected := AddReaders(State(), reqs);
      for i := 0 to |reqs|
        invariant stream.Some? && AddReaders(State(), reqs[i..]) == expected
      {
        assert reqs[i..][1..] == reqs[i + 1..];
        AddReaderPost(reqs[i]);
      }
      readerAddRequestsOnHold := [];
    }

    method ExecuteRemovePublisher()
      requires stream.Some? ==> onNotReadyHook
      modifies this
      ensures State() == RemoveSource(old(State()))
    {
      if stream.Some? {
        SetNotReady();
      }
      source := NoSource;
    }

    // --- The handlers --------------------------------------------------------------------------

    method DoOnDemandStaticSourceReadyTimer()
      requires handler.running
      modifies this, handler
      ensures State() == DoStaticReadyTimer(old(State()))
    {
      hide Replies, Ids;
      onDemandStaticSourceReadyTimer := false;
      AnswerAllOnHold(TimedOut);
      OnDemandStaticSourceStop();
    }

    method DoOnDemandStaticSourceCloseTimer()
      requires handler.running && onNotReadyHook
      modifies this, handler
      ensures State() == DoStaticCloseTimer(old(State()))
    {
      hide PathModel.SetNotReady;
      onDemandStaticSourceCloseTimer := false;
      SetNotReady();
      NotReadyKeepsHandler(old(State()).(staticSource := old(State()).staticSource.(closeTimer := false)));
      OnDemandStaticSourceStop();
    }

    method DoOnDemandPublisherReadyTimer()
      requires onUnDemandHook
      modifies this
      ensures State() == DoPublisherReadyTimer(old(State()))
    {
      hide Replies, Ids;
      onDemandPublisherReadyTimer := false;
      AnswerAllOnHold(TimedOut);
      OnDemandPublisherStop();
    }

    method DoOnDemandPublisherCloseTimer()
      requires onUnDemandHook
      modifies this
      ensures State() == DoPublisherCloseTimer(old(State()))
    {
      onDemandPublisherCloseTimer := false;
      OnDemandPublisherStop();
    }

    method DoReloadConf(newConf: Conf)
      modifies this
      ensures State() == PathModel.DoReloadConf(old(State()), newConf)
    {
      conf := newConf;
      if conf.record {
        if stream.Some? && !recordAgent {
          recordAgent := true;
        }
      } else if recordAgent {
        recordAgent := false;
      }
    }

    method DoSourceStaticSetReady(result: Option<StreamId>)
      modifies this
      ensures State() == DoStaticSetReady(old(State()), result)
    {
      hide ConsumeOnHold;
      SetReady(result);
      if result.None? {
        return;
      }
      if conf.HasOnDemandStaticSource() {
        onDemandStaticSourceReadyTimer := false;
        OnDemandStaticSourceScheduleClose();
      }
      ConsumeOnHoldRequests();
    }

    method DoSourceStaticSetNotReady()
      requires handler.running && onNotReadyHook
      modifies this, handler
      ensures State() == DoStaticSetNotReady(old(State()))
    {
      hide PathModel.SetNotReady;
      SetNotReady();
      NotReadyKeepsHandler(old(State()));
      if conf.HasOnDemandStaticSource() && onDemandStaticSourceState != Initial {
        OnDemandStaticSourceStop();
      }
    }

    method DoDescribe(request: RequestId)
      requires onDemandStaticSourceState == Initial && conf.HasOnDemandStaticSource() ==> !handler.running
      modifies this, handler
      ensures State() == PathModel.DoDescribe(old(State()), request)
    {
      if source == Redirect {
        log := log + [Replied(request, RedirectTo)];
        return;
      }
      if stream.Some? {
        log := log + [Replied(request, WithStream(stream.value))];
        return;
      }
      if conf.HasOnDemandStaticSource() {
        if onDemandStaticSourceState == Initial {
          OnDemandStaticSourceStart();
        }
        describeRequestsOnHold := describeRequestsOnHold + [request];
        return;
      }
      if conf.HasOnDemandPublisher() {
        if onDemandPublisherState == Initial {
          OnDemandPublisherStart();
        }
        describeRequestsOnHold := describeRequestsOnHold + [request];
        return;
      }
      if conf.fallback {
        log := log + [Replied(request, FallbackTo)];
        return;
      }
      log := log + [Replied(request, NoOnePublishing)];
    }

    method DoRemovePublisher(author: PublisherId)
      requires stream.Some? ==> onNotReadyHook
      modifies this
      ensures State() == PathModel.DoRemovePublisher(old(State()), author)
    {
      if source == Publisher(author) {
        ExecuteRemovePublisher();
      }
    }

    method DoAddPublisher(author: PublisherId)
      requires stream.Some? ==> onNotReadyHook
      requires conf.source == FromPublisher ==> source == NoSource || source.Publisher?
      modifies this
      ensures State() == PathModel.DoAddPublisher(old(State()), author)
    {
      if conf.source != FromPublisher {
        return;
      }
      if source != NoSource {
        if !conf.overridePublisher {
          return;
        }
        log := log + [PublisherClosed(source.id)];
        ExecuteRemovePublisher();
      }
      source := Publisher(author);
    }

    method DoStartPublisher(author: PublisherId, result: Option<StreamId>)
      modifies this
      ensures State() == PathModel.DoStartPublisher(old(State()), author, result)
    {
      hide ConsumeOnHold;
      if source != Publisher(author) {
        return;
      }
      SetReady(result);
      if result.None? {
        return;
      }
      if conf.HasOnDemandPublisher() && onDemandPublisherState != Initial {
        onDemandPublisherReadyTimer := false;
        OnDemandPublisherScheduleClose();
      }
      ConsumeOnHoldRequests();
    }

    method DoStopPublisher(author: PublisherId)
      requires stream.Some? ==> onNotReadyHook
      modifies this
      ensures State() == PathModel.DoStopPublisher(old(State()), author)
    {
      if source == Publisher(author) && stream.Some? {
        SetNotReady();
      }
    }

    method DoAddReader(req: ReaderRequest)
      requires onDemandStaticSourceState == Initial && conf.HasOnDemandStaticSource() ==> !handler.running || stream.Some?
      modifies this, handler
      ensures State() == PathModel.DoAddReader(old(State()), req)
    {
      hide PathModel.AddReaderPost;
      if stream.Some? {
        AddReaderPost(req);
        return;
      }
      if conf.HasOnDemandStaticSource() {
        if onDemandStaticSourceState == Initial {
          OnDemandStaticSourceStart();
        }
        readerAddRequestsOnHold := readerAddRequestsOnHold + [req];
        return;
      }
      if conf.HasOnDemandPublisher() {
        if onDemandPublisherState == Initial {
          OnDemandPublisherStart();
        }
        readerAddRequestsOnHold := readerAddRequestsOnHold + [req];
        return;
      }
      log := log + [Replied(req.id, NoOnePublishing)];
    }

    method DoRemoveReader(reader: ReaderId)
      modifies this
      ensures State() == PathModel.DoRemoveReader(old(State()), reader)
    {
      if reader in readers {
        readers := readers - {reader};
      }
      assert readers == old(readers) - {reader};
      if readers == {} {
        if conf.HasOnDemandStaticSource() {
          if onDemandStaticSourceState == Ready {
            OnDemandStaticSourceScheduleClose();
          }
        } else if conf.HasOnDemandPublisher() {
          if onDemandPublisherState == Ready {
            OnDemandPublisherScheduleClose();
          }
        }
      }
    }

    method ShouldClose() returns (b: bool)
      ensures b == PathModel.ShouldClose(State())
    {
      b := conf.regexp && source == NoSource && readers == {}
           && describeRequestsOnHold == [] && readerAddRequestsOnHold == [];
    }

    // One event: the preconditions above are what the invariant gives, so no call panics.
    method HandleEvent(e: Event)
      requires PathInvariant.Inv(State()) && PathInvariant.Enabled(State(), e)
      modifies this, handler
      ensures PathInvariant.Inv(State()) && State() == Step(old(State()), e)
    {
      hide PathInvariant.Inv, PathInvariant.Enabled;
      PathInvariant.StepKeeps(State(), e);
      InvGives(State(), e);
      hide PathInvariant.Accounted, PathModel.SetReady, PathModel.SetNotReady,
        DoStaticReadyTimer, DoStaticCloseTimer, DoPublisherReadyTimer, DoPublisherCloseTimer,
        PathModel.DoReloadConf, DoStaticSetReady, DoStaticSetNotReady, PathModel.DoDescribe, PathModel.DoAddPublisher,
        PathModel.DoRemovePublisher, PathModel.DoStartPublisher, PathModel.DoStopPublisher, PathModel.DoAddReader,
        PathModel.DoRemoveReader;
      match e
      case StaticReadyTimerFired => DoOnDemandStaticSourceReadyTimer();
      case StaticCloseTimerFired => DoOnDemandStaticSourceCloseTimer();
      case PublisherReadyTimerFired => DoOnDemandPublisherReadyTimer();
      case PublisherCloseTimerFired => DoOnDemandPublisherCloseTimer();
      case ReloadConf(newConf) => DoReloadConf(newConf);
      case StaticSetReady(result) => DoSourceStaticSetReady(result);
      case StaticSetNotReady => DoSourceStaticSetNotReady();
      case Describe(request) => DoDescribe(request);
      case AddPublisher(author) => DoAddPublisher(author);
      case RemovePublisher(author) => DoRemovePublisher(author);
      case StartPublisher(author, result) => DoStartPublisher(author, result);
      case StopPublisher(author) => DoStopPublisher(author);
      case AddReader(req) => DoAddReader(req);
      case RemoveReader(reader) => DoRemoveReader(reader);
      case APIPathsGet =>
    }

    // runInner over the events the environment sends. It stops early when the path is not in use.
    method RunInner(events: seq<Event>) returns (notInUse: bool)
      requires PathInvariant.Inv(State()) && PathRuns.Legal(State(), events)
      modifies this, handler
      ensures PathInvariant.Inv(State()) && State() == PathRuns.After(old(State()), events)
      ensures notInUse ==> PathModel.ShouldClose(State())
    {
      hide PathInvariant.Inv, PathInvariant.Enabled, Step;
      notInUse := false;
      ghost var last := PathRuns.After(State(), events);
      for i := 0 to |events|
        invariant PathInvariant.Inv(State()) && PathRuns.Legal(State(), events[i..])
        invariant PathRuns.After(State(), events[i..]) == last
        invariant !notInUse
      {
        assert events[i..][1..] == events[i + 1..];
        HandleEvent(events[i]);
        if ChecksClose(events[i]) {
          var close := ShouldClose();
          if close {
            assert events[i + 1..] == [];
            return true;
          }
        }
      }
      assert events[|events|..] == [];
    }

    method StopTimersAndAnswer()
      modifies `log, `onDemandStaticSourceReadyTimer, `onDemandStaticSourceCloseTimer
      modifies `onDemandPublisherReadyTimer, `onDemandPublisherCloseTimer
      ensures State() == AnswerLeft(old(State()))
    {
      hide Replies, Ids;
      onDemandStaticSourceReadyTimer, onDemandStaticSourceCloseTimer := false, false;
      onDemandPublisherReadyTimer, onDemandPublisherCloseTimer := false, false;
      ReplyToDescribes(Terminated);
      ReplyToReaders(Terminated);
    }

    method CloseTheSource()
      requires source == StaticHandler && (!conf.sourceOnDemand || onDemandStaticSourceState != Initial) ==> handler.running
      modifies this, handler
      ensures State() == CloseSource(old(State()))
    {
      match source
      case StaticHandler =>
        if !conf.sourceOnDemand || onDemandStaticSourceState != Initial {
          handler.Stop();
          log := log + [HandlerStopped];
        }
      case Publisher(id) =>
        log := log + [PublisherClosed(id)];
      case _ =>
    }

    // What run does after runInner has returned.
    method Close()
      requires PathInvariant.Inv(State())
      modifies this, handler
      ensures State() == Finish(old(State()))
    {
      hide Replies, Ids;
      StopTimersAndAnswer();
      if stream.Some? {
        SetNotReady();
      }
      CloseTheSource();
      if onUnDemandHook {
        log := log + [OnUnDemandHook];
      }
    }

    // A whole life: the loop over the events, then the end.
    method Run(events: seq<Event>)
      requires PathInvariant.Inv(State()) && PathRuns.Legal(State(), events)
      modifies this, handler
      ensures State() == Finish(PathRuns.After(old(State()), events))
    {
      hide PathInvariant.Inv, Finish;
      var notInUse := RunInner(events);
      Close();
    }
  }

  // Becoming not ready leaves the source and its on-demand state alone.
  lemma NotReadyKeepsHandler(s: PathModel.State)
    ensures var s' := PathModel.SetNotReady(s);
      s'.handlerRunning == s.handlerRunning && s'.staticSource == s.staticSource && s'.conf == s.conf
  {
  }

  // What the handlers rely on.
  lemma InvGives(s: PathModel.State, e: Event)
    requires PathInvariant.Inv(s) && PathInvariant.Enabled(s, e)
    ensures s.stream.Some? ==> s.onNotReadyHook
    ensures e.PublisherReadyTimerFired? || e.PublisherCloseTimerFired? ==> s.onUnDemandHook
    ensures e.StaticReadyTimerFired? || e.StaticCloseTimerFired? || e.StaticSetNotReady? ==> s.handlerRunning
    ensures e.StaticCloseTimerFired? || e.StaticSetNotReady? ==> s.stream.Some?
    ensures s.conf.HasOnDemandStaticSource() && s.staticSource.state == Initial ==> !s.handlerRunning
    ensures s.conf.source == FromPublisher ==> s.source == NoSource || s.source.Publisher?
  {
  }
}
