/** Requests held for an on-demand publisher, and the timer that would end their wait. */
module PathTimers {
  import opened Wrappers
  import opened PathModel
  import opened PathInvariant
  import opened PathRuns

  predicate Waits(s: State) {
    s.describeOnHold != [] || s.readerAddOnHold != []
  }

  // Whoever waits for a publisher has the timer running that answers everyone when it fires. The close timer
  // does not do: it stops the on-demand command and answers nobody.
  ghost predicate Guarded(s: State) {
    Waits(s) ==> s.publisher.readyTimer
  }

  // A request that is held although the on-demand command is taken to be done: its publisher became ready
  // once, and left.
  predicate Strands(s: State, e: Event) {
    (e.Describe? || e.AddReader?) && s.stream.None? && (s.publisher.state == Ready || s.publisher.state == Closing)
  }

  // Events after which nobody waits without that timer any more: the publisher of the path becomes ready, or a
  // further request starts the on-demand command again.
  predicate Rescues(s: State, e: Event) {
    || (e.StartPublisher? && s.source == Publisher(e.author) && e.result.Some?)
    || ((e.Describe? || e.AddReader?) && s.publisher.state == Initial)
  }

  lemma HeldInRightState(s: State)
    requires Inv(s)
    ensures Guarded(s) <==> (Waits(s) ==> s.publisher.state == WaitingReady)
    ensures Waits(s) ==> s.stream.None?
  {
  }

  // A request by somebody who has to wait.
  lemma RequestWaits(s: State, e: Event)
    requires Inv(s) && s.conf.HasOnDemandPublisher() && (e.Describe? || e.AddReader?)
    ensures s.stream.None? ==>
      Waits(Step(s, e)) && (Step(s, e).publisher.readyTimer <==> s.publisher.state == Initial || s.publisher.readyTimer)
    ensures s.stream.Some? ==>
      Step(s, e).describeOnHold == s.describeOnHold && Step(s, e).readerAddOnHold == s.readerAddOnHold
  {
    hide Summarize;
  }

  // The other events hold nobody. Only the ready timer touches those who wait, and answers them.
  lemma OtherEventsWait(s: State, e: Event)
    requires Inv(s) && Enabled(s, e) && s.conf.HasOnDemandPublisher()
    requires !e.Describe? && !e.AddReader? && !e.StartPublisher?
    ensures e.PublisherReadyTimerFired? ==> !Waits(Step(s, e))
    ensures !e.PublisherReadyTimerFired? ==>
      && Step(s, e).describeOnHold == s.describeOnHold && Step(s, e).readerAddOnHold == s.readerAddOnHold
      && Step(s, e).publisher.readyTimer == s.publisher.readyTimer
  {
    hide Summarize, Replies, Ids, AddReaders;
    assert !e.StaticSetReady? && !e.StaticSetNotReady? && !e.StaticReadyTimerFired? && !e.StaticCloseTimerFired?;
  }

  // An event leaves everyone guarded exactly when it is not such a request.
  lemma GuardedUnlessStranded(s: State, e: Event)
    requires Inv(s) && Enabled(s, e) && s.conf.HasOnDemandPublisher() && Guarded(s)
    ensures Guarded(Step(s, e)) <==> !Strands(s, e)
  {
    StepKeeps(s, e);
    HeldInRightState(s);
    TimerInRightState(s);
    hide Step, Inv;
    if e.Describe? || e.AddReader? {
      RequestWaits(s, e);
    } else if e.StartPublisher? {
      StartPublisherWaits(s, e);
    } else {
      OtherEventsWait(s, e);
    }
  }

  // Once somebody waits without the timer, exactly these events put an end to it.
  lemma StrandedUntilRescued(s: State, e: Event)
    requires Inv(s) && Enabled(s, e) && s.conf.HasOnDemandPublisher() && !Guarded(s)
    ensures Guarded(Step(s, e)) <==> Rescues(s, e)
  {
    StepKeeps(s, e);
    HeldInRightState(s);
    TimerInRightState(s);
    hide Step, Inv;
    if e.Describe? || e.AddReader? {
      RequestWaits(s, e);
    } else if e.StartPublisher? {
      StartPublisherWaits(s, e);
    } else {
      OtherEventsWait(s, e);
    }
  }

  lemma TimerInRightState(s: State)
    requires Inv(s)
    ensures s.publisher.readyTimer <==> s.publisher.state == WaitingReady
  {
  }

  // The publisher of the path ends every wait when it becomes ready.
  lemma StartPublisherWaits(s: State, e: Event)
    requires Inv(s) && e.StartPublisher? && Inv(Step(s, e))
    ensures s.source == Publisher(e.author) && e.result.Some? ==> !Waits(Step(s, e))
    ensures !(s.source == Publisher(e.author) && e.result.Some?) ==>
      && Step(s, e).describeOnHold == s.describeOnHold && Step(s, e).readerAddOnHold == s.readerAddOnHold
      && Step(s, e).publisher == s.publisher
  {
    hide Summarize, AddReaders, Replies;
    if s.source == Publisher(e.author) && e.result.Some? {
      assert Step(s, e).stream == e.result;
      HeldInRightState(Step(s, e));
    }
  }

  lemma {:induction false} AddReadersKeepsConf(s: State, reqs: seq<ReaderRequest>)
    requires s.stream.Some?
    ensures AddReaders(s, reqs).conf == s.conf
    decreases |reqs|
  {
    if reqs != [] {
      AddReadersKeepsConf(AddReaderPost(s, reqs[0]), reqs[1..]);
    }
  }

  lemma SetNotReadyKeepsConf(s: State)
    ensures SetNotReady(s).conf == s.conf
  {
  }

  lemma AnswerKeepsConf(s: State, response: Response)
    ensures AnswerOnHold(s, response).conf == s.conf
  {
    hide Replies, Ids;
  }

  lemma TimersKeepConf(s: State)
    ensures DoStaticReadyTimer(s).conf == s.conf && DoStaticCloseTimer(s).conf == s.conf
    ensures DoPublisherReadyTimer(s).conf == s.conf && DoPublisherCloseTimer(s).conf == s.conf
  {
    AnswerKeepsConf(s.(staticSource := s.staticSource.(readyTimer := false)), TimedOut);
    AnswerKeepsConf(s.(publisher := s.publisher.(readyTimer := false)), TimedOut);
    SetNotReadyKeepsConf(s.(staticSource := s.staticSource.(closeTimer := false)));
    hide AnswerOnHold, SetNotReady;
  }

  lemma SourcesKeepConf(s: State, author: PublisherId)
    ensures DoStaticSetNotReady(s).conf == s.conf && DoStopPublisher(s, author).conf == s.conf
    ensures DoRemovePublisher(s, author).conf == s.conf && DoAddPublisher(s, author).conf == s.conf
  {
    SetNotReadyKeepsConf(s);
    SetNotReadyKeepsConf(s.Do(Panic));
    if s.source.Publisher? {
      SetNotReadyKeepsConf(s.Do(PublisherClosed(s.source.id)));
    }
    hide SetNotReady;
  }

  lemma DescribeKeepsConf(s: State, request: RequestId)
    ensures DoDescribe(s, request).conf == s.conf
  {
  }

  lemma AddReaderPostKeepsConf(s: State, req: ReaderRequest)
    requires s.stream.Some?
    ensures AddReaderPost(s, req).conf == s.conf
  {
  }

  lemma AddReaderKeepsConf(s: State, req: ReaderRequest)
    ensures DoAddReader(s, req).conf == s.conf
  {
    hide AddReaderPost;
    if s.stream.Some? {
      AddReaderPostKeepsConf(s, req);
    }
  }

  lemma RemoveReaderKeepsConf(s: State, reader: ReaderId)
    ensures DoRemoveReader(s, reader).conf == s.conf
  {
  }

  lemma OnDemandStays(s: State, e: Event)
    requires Enabled(s, e)
    ensures Step(s, e).conf.HasOnDemandPublisher() == s.conf.HasOnDemandPublisher()
  {
    hide DoStaticReadyTimer, DoStaticCloseTimer, DoPublisherReadyTimer, DoPublisherCloseTimer, DoStaticSetReady,
      DoStaticSetNotReady, DoDescribe, DoAddPublisher, DoStartPublisher, DoStopPublisher, DoRemovePublisher,
      DoAddReader, DoRemoveReader;
    TimersKeepConf(s);
    match e {
      case StaticSetReady(result) => ReadyKeepsConf(s, result, 0);
      case StartPublisher(author, result) => ReadyKeepsConf(s, result, author);
      case StaticSetNotReady => SourcesKeepConf(s, 0);
      case AddPublisher(author) => SourcesKeepConf(s, author);
      case RemovePublisher(author) => SourcesKeepConf(s, author);
      case StopPublisher(author) => SourcesKeepConf(s, author);
      case Describe(request) => DescribeKeepsConf(s, request);
      case AddReader(req) => AddReaderKeepsConf(s, req);
      case RemoveReader(reader) => RemoveReaderKeepsConf(s, reader);
      case _ =>
    }
  }

  lemma ReadyKeepsConf(s: State, result: Option<StreamId>, author: PublisherId)
    ensures DoStaticSetReady(s, result).conf == s.conf && DoStartPublisher(s, author, result).conf == s.conf
  {
    hide ConsumeOnHold;
    var s1 := SetReady(s, result);
    if result.Some? {
      ConsumeKeepsConf(s1);
      ConsumeKeepsConf(StaticScheduleClose(s1.(staticSource := s1.staticSource.(readyTimer := false))));
      ConsumeKeepsConf(PublisherScheduleClose(s1.(publisher := s1.publisher.(readyTimer := false))));
    }
  }

  lemma ConsumeKeepsConf(s: State)
    ensures s.stream.Some? ==> ConsumeOnHold(s).conf == s.conf
  {
    if s.stream.Some? {
      var s1 := s.(log := s.log + Replies(s.describeOnHold, WithStream(s.stream.value)), describeOnHold := []);
      AddReadersKeepsConf(s1, s1.readerAddOnHold);
    }
  }

  // --- Runs ------------------------------------------------------------------------------------

  // At every state of the run whoever waits has the timer.
  ghost predicate AlwaysGuarded(s: State, events: seq<Event>)
    decreases |events|
  {
    Guarded(s) && (events == [] || AlwaysGuarded(Step(s, events[0]), events[1..]))
  }

  // No request of the run comes while the publisher is taken to be there and is not.
  predicate NeverStrands(s: State, events: seq<Event>)
    decreases |events|
  {
    events == [] || (!Strands(s, events[0]) && NeverStrands(Step(s, events[0]), events[1..]))
  }

  lemma {:induction false} RunIsGuarded(s: State, events: seq<Event>)
    requires Inv(s) && Legal(s, events) && s.conf.HasOnDemandPublisher() && Guarded(s)
    ensures AlwaysGuarded(s, events) <==> NeverStrands(s, events)
    decreases |events|
  {
    hide Inv, Step, Guarded, Strands;
    if events != [] {
      var s' := Step(s, events[0]);
      StepKeeps(s, events[0]);
      OnDemandStays(s, events[0]);
      GuardedUnlessStranded(s, events[0]);
      if !Strands(s, events[0]) {
        RunIsGuarded(s', events[1..]);
      } else {
        assert !AlwaysGuarded(s', events[1..]);
      }
    }
  }

  // Over every run of a path with an on-demand publisher: nobody ever waits without the timer exactly when no
  // request comes in such a state.
  lemma LifeIsGuarded(conf: Conf, events: seq<Event>)
    requires conf.Checked() && conf.HasOnDemandPublisher() && Legal(Start(conf), events)
    ensures AlwaysGuarded(Start(conf), events) <==> NeverStrands(Start(conf), events)
  {
    StartKeeps(conf);
    RunIsGuarded(Start(conf), events);
  }

  // --- Two runs that strand a request ----------------------------------------------------------

  // Requested, published, read, left, requested again: the state is Ready.
  lemma HeldWithoutTimerHappens(conf: Conf)
    requires conf == Conf(FromPublisher, false, true, false, 0, false, false, false)
    ensures var events := [Describe(1), AddPublisher(7), StartPublisher(7, Some(0)),
                           AddReader(ReaderRequest(2, 5)), RemovePublisher(7), Describe(3)];
      var s := After(Start(conf), events);
      && Legal(Start(conf), events)
      && s.describeOnHold == [3] && s.publisher == OnDemand(Ready, false, false) && !Guarded(s)
  {
    var later := [AddReader(ReaderRequest(2, 5)), RemovePublisher(7), Describe(3)];
    var s := PublishedOnDemand(conf, later);
    ReadLeftAndRequested(s);
    assert [Describe(1), AddPublisher(7), StartPublisher(7, Some(0))] + later
        == [Describe(1), AddPublisher(7), StartPublisher(7, Some(0)),
            AddReader(ReaderRequest(2, 5)), RemovePublisher(7), Describe(3)];
  }

  lemma PublishedOnDemand(conf: Conf, later: seq<Event>) returns (s: State)
    requires conf == Conf(FromPublisher, false, true, false, 0, false, false, false)
    ensures s.conf == conf && s.source == Publisher(7) && s.stream == Some(0) && s.readers == {} && s.describeOnHold == []
    ensures s.publisher == OnDemand(Closing, false, true)
    ensures var events := [Describe(1), AddPublisher(7), StartPublisher(7, Some(0))] + later;
      After(Start(conf), events) == After(s, later) && (Legal(s, later) ==> Legal(Start(conf), events))
  {
    hide Step, Legal, After, Enabled, Returns;
    var s2 := RequestedAndAdded(conf);
    s := Published(s2);
    LegalStep(s2, StartPublisher(7, Some(0)), later);
    LegalStep(Step(Start(conf), Describe(1)), AddPublisher(7), [StartPublisher(7, Some(0))] + later);
    LegalStep(Start(conf), Describe(1), [AddPublisher(7)] + ([StartPublisher(7, Some(0))] + later));
    assert [Describe(1), AddPublisher(7), StartPublisher(7, Some(0))] + later
        == [Describe(1)] + ([AddPublisher(7)] + ([StartPublisher(7, Some(0))] + later));
  }

  // A step the loop goes on after.
  ghost predicate GoesOn(s: State, e: Event) {
    Enabled(s, e) && !Returns(s, e)
  }

  lemma RequestedAndAdded(conf: Conf) returns (s: State)
    requires conf == Conf(FromPublisher, false, true, false, 0, false, false, false)
    ensures s == Step(Step(Start(conf), Describe(1)), AddPublisher(7))
    ensures GoesOn(Start(conf), Describe(1)) && GoesOn(Step(Start(conf), Describe(1)), AddPublisher(7))
    ensures s.conf == conf && s.source == Publisher(7) && s.stream == None && s.readers == {} && s.describeOnHold == [1]
    ensures s.readerAddOnHold == [] && s.publisher == OnDemand(WaitingReady, true, false)
  {
    var s1 := Step(Start(conf), Describe(1));
    assert s1.publisher == OnDemand(WaitingReady, true, false);
    s := Step(s1, AddPublisher(7));
  }

  lemma Published(s: State) returns (s': State)
    requires s.conf == Conf(FromPublisher, false, true, false, 0, false, false, false)
    requires s.source == Publisher(7) && s.stream == None && s.readers == {} && s.describeOnHold == [1]
    requires s.readerAddOnHold == [] && s.publisher == OnDemand(WaitingReady, true, false)
    ensures s' == Step(s, StartPublisher(7, Some(0))) && GoesOn(s, StartPublisher(7, Some(0)))
    ensures s'.conf == s.conf && s'.source == Publisher(7) && s'.stream == Some(0) && s'.readers == {}
    ensures s'.describeOnHold == [] && s'.publisher == OnDemand(Closing, false, true)
  {
    s' := Step(s, StartPublisher(7, Some(0)));
  }

  lemma ReadLeftAndRequested(s: State)
    requires s.conf == Conf(FromPublisher, false, true, false, 0, false, false, false)
    requires s.source == Publisher(7) && s.stream == Some(0) && s.readers == {} && s.describeOnHold == []
    requires s.publisher == OnDemand(Closing, false, true)
    ensures var events := [AddReader(ReaderRequest(2, 5)), RemovePublisher(7), Describe(3)];
      && Legal(s, events)
      && After(s, events).describeOnHold == [3] && After(s, events).publisher == OnDemand(Ready, false, false)
  {
    hide Step, Legal, After, Enabled, Returns;
    var s1 := ReaderCame(s);
    var s2 := PublisherLeft(s1);
    var s3 := RequestHeld(s2);
    LegalStep(s2, Describe(3), []);
    LegalStep(s1, RemovePublisher(7), [Describe(3)]);
    LegalStep(s, AddReader(ReaderRequest(2, 5)), [RemovePublisher(7)] + [Describe(3)]);
    LegalNothing(s3);
    assert [AddReader(ReaderRequest(2, 5)), RemovePublisher(7), Describe(3)]
        == [AddReader(ReaderRequest(2, 5))] + ([RemovePublisher(7)] + [Describe(3)]);
    assert [Describe(3)] + [] == [Describe(3)];
  }

  lemma ReaderCame(s: State) returns (s': State)
    requires s.conf == Conf(FromPublisher, false, true, false, 0, false, false, false)
    requires s.source == Publisher(7) && s.stream == Some(0) && s.readers == {} && s.describeOnHold == []
    requires s.publisher == OnDemand(Closing, false, true)
    ensures s' == Step(s, AddReader(ReaderRequest(2, 5))) && GoesOn(s, AddReader(ReaderRequest(2, 5)))
    ensures s'.conf == s.conf && s'.source == Publisher(7) && s'.stream == Some(0) && s'.describeOnHold == []
    ensures s'.publisher == OnDemand(Ready, false, false)
  {
    s' := Step(s, AddReader(ReaderRequest(2, 5)));
  }

  lemma PublisherLeft(s: State) returns (s': State)
    requires s.source == Publisher(7) && s.stream == Some(0)
    requires s.conf == Conf(FromPublisher, false, true, false, 0, false, false, false)
    requires s.publisher.state == Ready || s.publisher.state == Closing
    ensures s' == Step(s, RemovePublisher(7)) && GoesOn(s, RemovePublisher(7))
    ensures s'.conf == s.conf && s'.source == NoSource && s'.stream == None && s'.describeOnHold == s.describeOnHold
    ensures s'.publisher == s.publisher
  {
    s' := Step(s, RemovePublisher(7));
  }

  lemma RequestHeld(s: State) returns (s': State)
    requires s.conf == Conf(FromPublisher, false, true, false, 0, false, false, false)
    requires s.source == NoSource && s.stream == None && s.describeOnHold == [] && s.publisher.state != Initial
    ensures s' == Step(s, Describe(3)) && GoesOn(s, Describe(3))
    ensures s' == s.(describeOnHold := [3])
  {
    s' := Step(s, Describe(3));
  }

  lemma CloseTimerFired(s: State) returns (s': State)
    requires s.publisher == OnDemand(Closing, false, true)
    ensures s' == Step(s, PublisherCloseTimerFired) && Enabled(s, PublisherCloseTimerFired)
    ensures s'.describeOnHold == s.describeOnHold && s'.publisher == IDLE
  {
    s' := Step(s, PublisherCloseTimerFired);
  }

  // Requested, published, left, requested again, and the close timer fires: nobody is answered, and the state
  // is Initial, with the request still held.
  lemma HeldAfterCloseTimer(conf: Conf)
    requires conf == Conf(FromPublisher, false, true, false, 0, false, false, false)
    ensures var events := [Describe(1), AddPublisher(7), StartPublisher(7, Some(0)),
                           RemovePublisher(7), Describe(3), PublisherCloseTimerFired];
      var s := After(Start(conf), events);
      && Legal(Start(conf), events)
      && s.describeOnHold == [3] && s.publisher == IDLE && !Guarded(s)
  {
    var later := [RemovePublisher(7), Describe(3), PublisherCloseTimerFired];
    var s := PublishedOnDemand(conf, later);
    LeftRequestedAndClosed(s);
    assert [Describe(1), AddPublisher(7), StartPublisher(7, Some(0))] + later
        == [Describe(1), AddPublisher(7), StartPublisher(7, Some(0)),
            RemovePublisher(7), Describe(3), PublisherCloseTimerFired];
  }

  lemma LeftRequestedAndClosed(s: State)
    requires s.conf == Conf(FromPublisher, false, true, false, 0, false, false, false)
    requires s.source == Publisher(7) && s.stream == Some(0) && s.readers == {} && s.describeOnHold == []
    requires s.publisher == OnDemand(Closing, false, true)
    ensures var events := [RemovePublisher(7), Describe(3), PublisherCloseTimerFired];
      && Legal(s, events)
      && After(s, events).describeOnHold == [3] && After(s, events).publisher == IDLE
  {
    hide Step, Legal, After, Enabled, Returns;
    var s1 := PublisherLeft(s);
    var s2 := RequestHeld(s1);
    var s3 := CloseTimerFired(s2);
    LegalStep(s2, PublisherCloseTimerFired, []);
    LegalStep(s1, Describe(3), [PublisherCloseTimerFired]);
    LegalStep(s, RemovePublisher(7), [Describe(3)] + [PublisherCloseTimerFired]);
    LegalNothing(s3);
    assert [RemovePublisher(7), Describe(3), PublisherCloseTimerFired]
        == [RemovePublisher(7)] + ([Describe(3)] + [PublisherCloseTimerFired]);
    assert [PublisherCloseTimerFired] + [] == [PublisherCloseTimerFired];
  }
}
