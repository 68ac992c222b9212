/** What every reachable state of a path satisfies, and what every run does to the rest of the server. */
module PathInvariant {
  import opened Wrappers
  import opened PathModel

  // --- Reading the log -------------------------------------------------------------------------

  // Where the path is between a ready hook and the not-ready hook that undoes it.
  datatype Phase = Down | HookCalled | Up | ManagerTold

  // What a log of actions amounts to: is an on-demand command running, which ready calls are still to be
  // undone, were all calls made in a proper order, and which requests were answered how many times.
  datatype Summary = Summary(demand: bool, phase: Phase, proper: bool, answered: multiset<RequestId>)

  function Note(m: Summary, a: Action): Summary {
    match a
    case Replied(id, _) => m.(answered := m.answered + multiset{id})
    case OnDemandHook => m.(demand := true, proper := m.proper && !m.demand)
    case OnUnDemandHook => m.(demand := false, proper := m.proper && m.demand)
    case OnReadyHook => m.(phase := HookCalled, proper := m.proper && m.phase == Down)
    case PathReady => m.(phase := Up, proper := m.proper && m.phase == HookCalled)
    case PathNotReady => m.(phase := ManagerTold, proper := m.proper && m.phase == Up)
    case OnNotReadyHook => m.(phase := Down, proper := m.proper && m.phase == ManagerTold)
    case Panic => m.(proper := false)
    case _ => m
  }

  function Summarize(log: seq<Action>): Summary {
    if log == [] then Summary(false, Down, true, multiset{})
    else Note(Summarize(log[..|log| - 1]), log[|log| - 1])
  }

  lemma Snoc(log: seq<Action>, a: Action)
    ensures Summarize(log + [a]) == Note(Summarize(log), a)
  {
    assert (log + [a])[..|log|] == log;
  }

  lemma {:induction false} Bulk(log: seq<Action>, requests: seq<RequestId>, response: Response)
    ensures Summarize(log + Replies(requests, response))
         == Summarize(log).(answered := Summarize(log).answered + multiset(requests))
    decreases |requests|
  {
    hide Summarize;
    if requests == [] {
      assert log + [] == log;
    } else {
      var a := Replied(requests[0], response);
      Snoc(log, a);
      Bulk(log + [a], requests[1..], response);
      BulkSplit(log, requests, response);
      assert multiset([requests[0]] + requests[1..]) == multiset{requests[0]} + multiset(requests[1..]);
    }
  }

  lemma BulkSplit(log: seq<Action>, requests: seq<RequestId>, response: Response)
    requires requests != []
    ensures log + Replies(requests, response)
         == log + [Replied(requests[0], response)] + Replies(requests[1..], response)
    ensures requests == [requests[0]] + requests[1..]
  {
  }

  // --- The invariant ---------------------------------------------------------------------------

  // Sources, streams, readers and recording.
  ghost predicate SourceInv(s: State) {
    && s.conf.Checked()
    && (s.source == Redirect <==> s.conf.source == FromRedirect)
    && (s.source == StaticHandler <==> s.conf.source == FromUrl)
    && (s.stream.Some? ==> s.source == StaticHandler || s.source.Publisher?)
    && (s.readers != {} ==> s.stream.Some?)
    && (s.recording ==> s.stream.Some?)
    && (s.stream.Some? ==> s.onNotReadyHook)
    && (s.conf.maxReaders > 0 ==> |s.readers| <= s.conf.maxReaders)
    && (s.conf.maxReaders < 0 ==> s.readers == {})
  }

  // The on-demand state machine of a static source.
  ghost predicate StaticInv(s: State) {
    if s.conf.HasOnDemandStaticSource() then
      && s.staticSource.Timed()
      && (s.stream.Some? <==> s.staticSource.state == Ready || s.staticSource.state == Closing)
      && (s.staticSource.state == Closing ==> s.readers == {})
      && (s.staticSource.state == Ready ==> s.readers != {})
      && (s.handlerRunning <==> s.staticSource.state != Initial)
    else
      && s.staticSource == IDLE
      && (s.handlerRunning <==> s.conf.HasStaticSource())
  }

  // The on-demand state machine of a publisher. A publisher that leaves does not reset it, so Ready and
  // Closing say nothing about the stream.
  ghost predicate PublisherInv(s: State) {
    && (s.onUnDemandHook <==> s.publisher.state != Initial)
    && s.publisher.Timed()
    && (s.publisher.state == WaitingReady ==> s.stream.None?)
    && (s.publisher.state == Closing ==> s.readers == {})
    && (!s.conf.HasOnDemandPublisher() ==> s.publisher.state == Initial)
  }

  // Who may wait: nobody when there is a stream or nothing is on demand, and with a static source only
  // those who wait for it to become ready.
  ghost predicate HoldInv(s: State) {
    s.describeOnHold != [] || s.readerAddOnHold != [] ==>
      && s.stream.None?
      && (s.conf.HasOnDemandStaticSource() || s.conf.HasOnDemandPublisher())
      && (s.conf.HasOnDemandStaticSource() ==> s.staticSource.state == WaitingReady)
  }

  // The log agrees with the state.
  ghost predicate LogInv(s: State) {
    var m := Summarize(s.log);
    m.proper && m.demand == s.onUnDemandHook && m.phase == if s.stream.Some? then Up else Down
  }

  ghost predicate Core(s: State) {
    SourceInv(s) && StaticInv(s) && PublisherInv(s) && LogInv(s)
  }

  ghost predicate Inv(s: State) {
    Core(s) && HoldInv(s)
  }

  // The environment: a timer fires while armed; hot reload changes only the recording flag here; a source
  // becomes ready only while it is not, and not ready only while it is; so does the path's own publisher.
  ghost predicate Enabled(s: State, e: Event) {
    match e
    case StaticReadyTimerFired => s.staticSource.readyTimer
    case StaticCloseTimerFired => s.staticSource.closeTimer
    case PublisherReadyTimerFired => s.publisher.readyTimer
    case PublisherCloseTimerFired => s.publisher.closeTimer
    case ReloadConf(conf) => conf == s.conf.(record := conf.record)
    case StaticSetReady(_) => s.source == StaticHandler && s.handlerRunning && s.stream.None?
    case StaticSetNotReady => s.source == StaticHandler && s.handlerRunning && s.stream.Some?
    case StartPublisher(author, _) => s.source == Publisher(author) ==> s.stream.None?
    case _ => true
  }

  // All requests the path has accepted: answered, or still held.
  function Accounted(s: State): multiset<RequestId> {
    Summarize(s.log).answered + multiset(s.describeOnHold) + multiset(Ids(s.readerAddOnHold))
  }

  function Requests(e: Event): multiset<RequestId> {
    match e
    case Describe(request) => multiset{request}
    case AddReader(req) => multiset{req.id}
    case _ => multiset{}
  }

  // --- The shared pieces -----------------------------------------------------------------------

  lemma SetReadyLog(s: State, stream: StreamId)
    requires Summarize(s.log).phase == Down
    ensures Summarize(SetReady(s, Some(stream)).log) == Summarize(s.log).(phase := Up)
  {
    Snoc(s.log, OnReadyHook);
    Snoc(s.log + [OnReadyHook], PathReady);
  }

  lemma SetNotReadyLog(s: State)
    requires Summarize(s.log).phase == Up && s.onNotReadyHook
    ensures Summarize(SetNotReady(s).log) == Summarize(s.log).(phase := Down)
  {
    var a, b := PathNotReady, ReadersClosed(s.readers);
    Snoc(s.log, a);
    Snoc(s.log + [a], b);
    Snoc(s.log + [a] + [b], OnNotReadyHook);
  }

  // A reader is added to the set, and its request is still to be answered.
  lemma JoinKeeps(s: State, author: ReaderId)
    requires Core(s) && s.stream.Some?
    requires s.conf.maxReaders == 0 || |s.readers| < s.conf.maxReaders
    ensures Core(JoinReader(s, author))
  {
    hide Summarize;
    ReaderAdded(s.readers, author);
  }

  lemma ReaderAdded(readers: set<ReaderId>, r: ReaderId)
    ensures |readers + {r}| <= |readers| + 1 && readers + {r} != {}
  {
    assert r in readers + {r};
    if r in readers {
      assert readers + {r} == readers;
    }
  }

  // Answering a request changes nothing but the log.
  lemma ReplyKeeps(s: State, request: RequestId, response: Response)
    requires Core(s)
    ensures var s' := s.Do(Replied(request, response));
      Core(s') && Summarize(s'.log).answered == Summarize(s.log).answered + multiset{request}
  {
    hide Summarize;
    Snoc(s.log, Replied(request, response));
  }

  // A reader asks for the stream: it joins or the limit stands, and the request is answered.
  lemma AddReaderPostKeeps(s: State, req: ReaderRequest)
    requires Core(s) && s.stream.Some?
    ensures var s' := AddReaderPost(s, req);
      && Core(s')
      && s'.describeOnHold == s.describeOnHold && s'.readerAddOnHold == s.readerAddOnHold
      && s'.conf == s.conf && s'.source == s.source
      && Summarize(s'.log).answered == Summarize(s.log).answered + multiset{req.id}
  {
    hide Summarize, Core;
    ReplyKeeps(s, req.id, WithStream(s.stream.value));
    ReplyKeeps(s, req.id, TooManyReaders);
    if s.conf.maxReaders == 0 || |s.readers| < s.conf.maxReaders {
      JoinKeeps(s, req.author);
      ReplyKeeps(JoinReader(s, req.author), req.id, WithStream(s.stream.value));
    }
  }

  lemma {:induction false} AddReadersKeeps(s: State, reqs: seq<ReaderRequest>)
    requires Core(s) && s.stream.Some?
    ensures var s' := AddReaders(s, reqs);
      && Core(s')
      && s'.describeOnHold == s.describeOnHold && s'.readerAddOnHold == s.readerAddOnHold
      && s'.conf == s.conf && s'.source == s.source
      && Summarize(s'.log).answered == Summarize(s.log).answered + multiset(Ids(reqs))
    decreases |reqs|
  {
    if reqs != [] {
      hide AddReaderPost, Core, Summarize;
      AddReaderPostKeeps(s, reqs[0]);
      AddReadersKeeps(AddReaderPost(s, reqs[0]), reqs[1..]);
      assert multiset(Ids(reqs)) == multiset{reqs[0].id} + multiset(Ids(reqs[1..]));
    }
  }

  // Once there is a stream, everybody who waited is answered and nobody waits any more.
  lemma ConsumeOnHoldKeeps(s: State)
    requires Core(s) && s.stream.Some?
    ensures var s' := ConsumeOnHold(s);
      Inv(s') && Accounted(s') == Accounted(s) && s'.source == s.source && s'.conf == s.conf
  {
    Bulk(s.log, s.describeOnHold, WithStream(s.stream.value));
    var s1 := s.(log := s.log + Replies(s.describeOnHold, WithStream(s.stream.value)), describeOnHold := []);
    AddReadersKeeps(s1, s1.readerAddOnHold);
  }

  // Everybody who waited gets the same answer.
  lemma AnswerOnHoldLog(s: State, response: Response)
    ensures var s' := AnswerOnHold(s, response);
      Accounted(s') == Accounted(s)
      && Summarize(s'.log) == Summarize(s.log).(answered := Summarize(s'.log).answered)
  {
    Bulk(s.log, s.describeOnHold, response);
    Bulk(s.log + Replies(s.describeOnHold, response), Ids(s.readerAddOnHold), response);
  }

  // The reader count in a set after removals and additions.
  lemma ReaderRemoved(readers: set<ReaderId>, r: ReaderId)
    ensures |readers - {r}| <= |readers|
  {
    if r !in readers {
      assert readers - {r} == readers;
    }
  }

  // --- One event -------------------------------------------------------------------------------

  lemma StaticReadyTimerKeeps(s: State)
    requires Inv(s) && Enabled(s, StaticReadyTimerFired)
    ensures var s' := DoStaticReadyTimer(s); Inv(s') && Accounted(s') == Accounted(s)
  {
    hide Summarize;
    var s1 := AnswerOnHold(s.(staticSource := s.staticSource.(readyTimer := false)), TimedOut);
    AnswerOnHoldLog(s.(staticSource := s.staticSource.(readyTimer := false)), TimedOut);
    Snoc(s1.log, HandlerStopped);
  }

  lemma StaticCloseTimerKeeps(s: State)
    requires Inv(s) && Enabled(s, StaticCloseTimerFired)
    ensures var s' := DoStaticCloseTimer(s); Inv(s') && Accounted(s') == Accounted(s)
  {
    hide Summarize;
    var s1 := s.(staticSource := s.staticSource.(closeTimer := false));
    SetNotReadyLog(s1);
    Snoc(SetNotReady(s1).log, HandlerStopped);
  }

  lemma PublisherReadyTimerKeeps(s: State)
    requires Inv(s) && Enabled(s, PublisherReadyTimerFired)
    ensures var s' := DoPublisherReadyTimer(s); Inv(s') && Accounted(s') == Accounted(s)
  {
    hide Summarize;
    var s1 := AnswerOnHold(s.(publisher := s.publisher.(readyTimer := false)), TimedOut);
    AnswerOnHoldLog(s.(publisher := s.publisher.(readyTimer := false)), TimedOut);
    Snoc(s1.log, OnUnDemandHook);
  }

  lemma PublisherCloseTimerKeeps(s: State)
    requires Inv(s) && Enabled(s, PublisherCloseTimerFired)
    ensures var s' := DoPublisherCloseTimer(s); Inv(s') && Accounted(s') == Accounted(s)
  {
    hide Summarize;
    Snoc(s.log, OnUnDemandHook);
  }

  lemma StaticSetReadyKeeps(s: State, result: Option<StreamId>)
    requires Inv(s) && Enabled(s, StaticSetReady(result))
    ensures var s' := DoStaticSetReady(s, result); Inv(s') && Accounted(s') == Accounted(s)
  {
    hide Summarize;
    if result.Some? {
      SetReadyLog(s, result.value);
      var s1 := SetReady(s, result);
      var s2 := if s1.conf.HasOnDemandStaticSource() then StaticScheduleClose(s1.(staticSource := s1.staticSource.(readyTimer := false))) else s1;
      assert SourceInv(s2) && StaticInv(s2) && PublisherInv(s2) && LogInv(s2);
      hide ConsumeOnHold;
      ConsumeOnHoldKeeps(s2);
    }
  }

  lemma StaticSetNotReadyKeeps(s: State)
    requires Inv(s) && Enabled(s, StaticSetNotReady)
    ensures var s' := DoStaticSetNotReady(s); Inv(s') && Accounted(s') == Accounted(s)
  {
    hide Summarize;
    SetNotReadyLog(s);
    Snoc(SetNotReady(s).log, HandlerStopped);
  }

  lemma RemoveSourceKeeps(s: State)
    requires Inv(s) && s.conf.source == FromPublisher
    ensures var s' := RemoveSource(s);
      Inv(s') && Accounted(s') == Accounted(s) && s'.conf == s.conf && s'.source == NoSource && s'.stream.None?
  {
    hide Summarize;
    if s.stream.Some? {
      SetNotReadyLog(s);
    }
  }

  lemma AddPublisherKeeps(s: State, author: PublisherId)
    requires Inv(s)
    ensures var s' := DoAddPublisher(s, author); Inv(s') && Accounted(s') == Accounted(s)
  {
    hide Summarize, RemoveSource, Ids;
    if s.conf.source == FromPublisher && s.source != NoSource && s.conf.overridePublisher {
      Snoc(s.log, PublisherClosed(s.source.id));
      RemoveSourceKeeps(s.Do(PublisherClosed(s.source.id)));
    }
  }

  lemma StartPublisherKeeps(s: State, author: PublisherId, result: Option<StreamId>)
    requires Inv(s) && Enabled(s, StartPublisher(author, result))
    ensures var s' := DoStartPublisher(s, author, result); Inv(s') && Accounted(s') == Accounted(s)
  {
    hide Summarize;
    if s.source == Publisher(author) && result.Some? {
      SetReadyLog(s, result.value);
      var s1 := SetReady(s, result);
      var s2 := if s1.conf.HasOnDemandPublisher() && s1.publisher.state != Initial
                then PublisherScheduleClose(s1.(publisher := s1.publisher.(readyTimer := false))) else s1;
      assert SourceInv(s2) && StaticInv(s2) && PublisherInv(s2) && LogInv(s2);
      hide ConsumeOnHold;
      ConsumeOnHoldKeeps(s2);
    }
  }

  lemma StopPublisherKeeps(s: State, author: PublisherId)
    requires Inv(s)
    ensures var s' := DoStopPublisher(s, author); Inv(s') && Accounted(s') == Accounted(s)
  {
    hide Summarize;
    if s.source == Publisher(author) && s.stream.Some? {
      SetNotReadyLog(s);
    }
  }

  // Starting on demand, when nothing was started yet.
  lemma OnDemandStartKeeps(s: State)
    requires Inv(s) && s.stream.None?
    ensures s.conf.HasOnDemandStaticSource() && s.staticSource.state == Initial ==>
              Core(StaticStart(s)) && Accounted(StaticStart(s)) == Accounted(s)
    ensures s.conf.HasOnDemandPublisher() && s.publisher.state == Initial ==>
              Core(PublisherStart(s)) && Accounted(PublisherStart(s)) == Accounted(s)
  {
    hide Summarize;
    Snoc(s.log, HandlerStarted);
    Snoc(s.log, OnDemandHook);
  }

  // A request that is put on hold is accounted for.
  lemma HoldDescribe(s: State, request: RequestId)
    ensures Accounted(s.(describeOnHold := s.describeOnHold + [request])) == Accounted(s) + multiset{request}
  {
    hide Summarize;
    assert multiset(s.describeOnHold + [request]) == multiset(s.describeOnHold) + multiset{request};
  }

  lemma HoldReader(s: State, req: ReaderRequest)
    ensures Accounted(s.(readerAddOnHold := s.readerAddOnHold + [req])) == Accounted(s) + multiset{req.id}
  {
    hide Summarize;
    IdsSnoc(s.readerAddOnHold, req);
    assert multiset(Ids(s.readerAddOnHold) + [req.id]) == multiset(Ids(s.readerAddOnHold)) + multiset{req.id};
  }

  // A request that is answered on the spot.
  lemma AnswerKeeps(s: State, request: RequestId, response: Response)
    requires Inv(s)
    ensures var s' := s.Do(Replied(request, response)); Inv(s') && Accounted(s') == Accounted(s) + multiset{request}
  {
    hide Summarize;
    Snoc(s.log, Replied(request, response));
  }

  lemma DescribeKeeps(s: State, request: RequestId)
    requires Inv(s)
    ensures var s' := DoDescribe(s, request); Inv(s') && Accounted(s') == Accounted(s) + multiset{request}
  {
    hide Summarize, Accounted;
    var s' := DoDescribe(s, request);
    if s'.describeOnHold == s.describeOnHold {
      AnswerKeeps(s, request, s'.log[|s.log|].response);
    } else {
      OnDemandStartKeeps(s);
      HoldDescribe(s'.(describeOnHold := s.describeOnHold), request);
    }
  }

  lemma {:induction false} IdsSnoc(reqs: seq<ReaderRequest>, req: ReaderRequest)
    ensures Ids(reqs + [req]) == Ids(reqs) + [req.id]
  {
    if reqs == [] {
      assert [] + [req] == [req];
    } else {
      assert (reqs + [req])[1..] == reqs[1..] + [req];
      IdsSnoc(reqs[1..], req);
    }
  }

  lemma AttachKeeps(s: State, req: ReaderRequest)
    requires Inv(s) && s.stream.Some?
    ensures var s' := AddReaderPost(s, req); Inv(s') && Accounted(s') == Accounted(s) + multiset{req.id}
  {
    hide Summarize, AddReaderPost, Core;
    AddReaderPostKeeps(s, req);
  }

  lemma AddReaderKeeps(s: State, req: ReaderRequest)
    requires Inv(s)
    ensures var s' := DoAddReader(s, req); Inv(s') && Accounted(s') == Accounted(s) + multiset{req.id}
  {
    hide Summarize, Accounted, AddReaderPost;
    var s' := DoAddReader(s, req);
    if s.stream.Some? {
      AttachKeeps(s, req);
    } else if s'.readerAddOnHold == s.readerAddOnHold {
      AnswerKeeps(s, req.id, NoOnePublishing);
    } else {
      OnDemandStartKeeps(s);
      HoldReader(s'.(readerAddOnHold := s.readerAddOnHold), req);
    }
  }

  lemma RemoveReaderKeeps(s: State, reader: ReaderId)
    requires Inv(s)
    ensures var s' := DoRemoveReader(s, reader); Inv(s') && Accounted(s') == Accounted(s)
  {
    hide Summarize, Ids;
    ReaderRemoved(s.readers, reader);
    var s1 := s.(readers := s.readers - {reader});
    assert SourceInv(s1) && LogInv(s1);
  }

  lemma RemovePublisherKeeps(s: State, author: PublisherId)
    requires Inv(s)
    ensures var s' := DoRemovePublisher(s, author); Inv(s') && Accounted(s') == Accounted(s)
  {
    if s.source == Publisher(author) {
      RemoveSourceKeeps(s);
    }
  }

  lemma ReloadConfKeeps(s: State, conf: Conf)
    requires Inv(s) && Enabled(s, ReloadConf(conf))
    ensures var s' := DoReloadConf(s, conf); Inv(s') && Accounted(s') == Accounted(s)
  {
    hide Summarize;
  }

  // Every event keeps the invariant, and answers or holds exactly the request it brings.
  lemma StepKeeps(s: State, e: Event)
    requires Inv(s) && Enabled(s, e)
    ensures Inv(Step(s, e))
    ensures Accounted(Step(s, e)) == Accounted(s) + Requests(e)
  {
    hide Inv, Accounted, DoStaticReadyTimer, DoStaticCloseTimer, DoPublisherReadyTimer, DoPublisherCloseTimer,
      DoStaticSetReady, DoStaticSetNotReady, DoDescribe, DoAddPublisher, DoStartPublisher, DoStopPublisher,
      DoRemovePublisher, DoAddReader, DoRemoveReader, DoReloadConf;
    match e
    case StaticReadyTimerFired => StaticReadyTimerKeeps(s);
    case StaticCloseTimerFired => StaticCloseTimerKeeps(s);
    case PublisherReadyTimerFired => PublisherReadyTimerKeeps(s);
    case PublisherCloseTimerFired => PublisherCloseTimerKeeps(s);
    case ReloadConf(conf) => ReloadConfKeeps(s, conf);
    case StaticSetReady(result) => StaticSetReadyKeeps(s, result);
    case StaticSetNotReady => StaticSetNotReadyKeeps(s);
    case Describe(request) => DescribeKeeps(s, request);
    case AddPublisher(author) => AddPublisherKeeps(s, author);
    case RemovePublisher(author) => RemovePublisherKeeps(s, author);
    case StartPublisher(author, result) => StartPublisherKeeps(s, author, result);
    case StopPublisher(author) => StopPublisherKeeps(s, author);
    case AddReader(req) => AddReaderKeeps(s, req);
    case RemoveReader(reader) => RemoveReaderKeeps(s, reader);
    case APIPathsGet =>
  }
}
