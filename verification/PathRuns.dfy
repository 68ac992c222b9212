/** Whole runs of a path, from its creation to its end. */
module PathRuns {
  import opened Wrappers
  import opened PathModel
  import opened PathInvariant

  // The event loop returns right after this event.
  predicate Returns(s: State, e: Event) {
    ChecksClose(e) && ShouldClose(Step(s, e))
  }

  // Events the environment may send one after the other, none after the loop has returned.
  ghost predicate Legal(s: State, events: seq<Event>)
    decreases |events|
  {
    events == [] ||
    (&& Enabled(s, events[0])
     && (Returns(s, events[0]) ==> |events| == 1)
     && Legal(Step(s, events[0]), events[1..]))
  }

  function After(s: State, events: seq<Event>): State
    decreases |events|
  {
    if events == [] then s else After(Step(s, events[0]), events[1..])
  }

  function RequestsOf(events: seq<Event>): multiset<RequestId>
    decreases |events|
  {
    if events == [] then multiset{} else Requests(events[0]) + RequestsOf(events[1..])
  }

  // Every state a path can reach satisfies the invariant, and has answered or holds every request it got.
  lemma {:induction false} RunKeeps(s: State, events: seq<Event>)
    requires Inv(s) && Legal(s, events)
    ensures Inv(After(s, events))
    ensures Accounted(After(s, events)) == Accounted(s) + RequestsOf(events)
    decreases |events|
  {
    hide Inv, Step, Accounted;
    if events != [] {
      StepKeeps(s, events[0]);
      RunKeeps(Step(s, events[0]), events[1..]);
    }
  }

  lemma StartKeeps(conf: Conf)
    requires conf.Checked()
    ensures Inv(Start(conf)) && Accounted(Start(conf)) == multiset{}
  {
    assert Summarize([]) == Summary(false, Down, true, multiset{});
    hide Summarize;
    Snoc([], HandlerStarted);
    assert [] + [HandlerStarted] == [HandlerStarted];
  }

  lemma ReachableKeeps(conf: Conf, events: seq<Event>)
    requires conf.Checked() && Legal(Start(conf), events)
    ensures Inv(After(Start(conf), events))
    ensures Accounted(After(Start(conf), events)) == RequestsOf(events)
  {
    StartKeeps(conf);
    RunKeeps(Start(conf), events);
  }

  // --- The end of a path -----------------------------------------------------------------------

  lemma FinishUndoes(s: State)
    requires Inv(s)
    ensures var s' := Finish(s);
      && !s'.handlerRunning && s'.stream == None && s'.readers == {} && !s'.recording
      && !s'.staticSource.readyTimer && !s'.staticSource.closeTimer
      && !s'.publisher.readyTimer && !s'.publisher.closeTimer
  {
    hide Summarize, Replies;
  }

  // Whenever the loop returns: everything held is answered, and everything started is undone.
  lemma FinishSettles(s: State)
    requires Inv(s)
    ensures var m := Summarize(Finish(s).log);
      m.proper && !m.demand && m.phase == Down && m.answered == Accounted(s)
    ensures var s' := Finish(s);
      && !s'.handlerRunning && s'.stream == None && s'.readers == {} && !s'.recording
      && !s'.staticSource.readyTimer && !s'.staticSource.closeTimer
      && !s'.publisher.readyTimer && !s'.publisher.closeTimer
  {
    hide Summarize;
    FinishUndoes(s);
    AnswerLeftLog(s);
    var s1 := AnswerLeft(s);
    if s1.stream.Some? {
      SetNotReadyLog(s1);
    }
    var s2 := if s1.stream.Some? then SetNotReady(s1) else s1;
    hide SetNotReady, AnswerLeft;
    CloseSourceLog(s2);
    Snoc(CloseSource(s2).log, OnUnDemandHook);
  }

  // Who still waits is answered now.
  lemma AnswerLeftLog(s: State)
    ensures Summarize(AnswerLeft(s).log) == Summarize(s.log).(answered := Accounted(s))
  {
    hide Summarize;
    Bulk(s.log, s.describeOnHold, Terminated);
    Bulk(s.log + Replies(s.describeOnHold, Terminated), Ids(s.readerAddOnHold), Terminated);
  }

  lemma CloseSourceLog(s: State)
    requires s.source == StaticHandler ==> (s.handlerRunning <==> !s.conf.sourceOnDemand || s.staticSource.state != Initial)
    ensures Summarize(CloseSource(s).log) == Summarize(s.log)
    ensures s.source == StaticHandler ==> !CloseSource(s).handlerRunning
  {
    hide Summarize;
    Snoc(s.log, HandlerStopped);
    if s.source.Publisher? {
      Snoc(s.log, PublisherClosed(s.source.id));
    }
  }

  lemma {:induction false} ProperHasNoPanic(log: seq<Action>)
    requires Summarize(log).proper
    ensures Panic !in log
    decreases |log|
  {
    if log != [] {
      ProperHasNoPanic(log[..|log| - 1]);
      assert log == log[..|log| - 1] + [log[|log| - 1]];
    }
  }

  // Over a whole life of a path: every request gets exactly one reply, the hooks alternate and are
  // balanced at the end, and no call panics.
  lemma WholeLife(conf: Conf, events: seq<Event>)
    requires conf.Checked() && Legal(Start(conf), events)
    ensures var m := Summarize(Finish(After(Start(conf), events)).log);
      m.proper && !m.demand && m.phase == Down && m.answered == RequestsOf(events)
    ensures Panic !in Finish(After(Start(conf), events)).log
  {
    ReachableKeeps(conf, events);
    FinishSettles(After(Start(conf), events));
    ProperHasNoPanic(Finish(After(Start(conf), events)).log);
  }

  // --- No idle path stays behind ---------------------------------------------------------------

  // The branches of the loop that do not look at ShouldClose never turn a path in use into an idle one.
  lemma InUseBecomesIdleOnlyWhereChecked(s: State, e: Event)
    requires Inv(s) && Enabled(s, e)
    requires !ShouldClose(s) && ShouldClose(Step(s, e))
    ensures Returns(s, e)
  {
    StepKeeps(s, e);
    hide Summarize, Accounted, AddReaders, AddReaderPost, Replies, Ids;
    if !ChecksClose(e) {
      match e
      case PublisherCloseTimerFired =>
        assert false;
      case ReloadConf(conf) =>
        assert false;
      case StaticSetReady(result) =>
        ReadyKeepsSource(s, result, 0);
        assert false;
      case AddPublisher(author) =>
        assert false;
      case StartPublisher(author, result) =>
        ReadyKeepsSource(s, result, author);
        assert false;
      case RemoveReader(reader) =>
        assert false;
      case APIPathsGet =>
        assert false;
    }
  }

  lemma {:induction false} AddReadersKeepsSource(s: State, reqs: seq<ReaderRequest>)
    requires s.stream.Some?
    ensures AddReaders(s, reqs).source == s.source && AddReaders(s, reqs).conf == s.conf
    decreases |reqs|
  {
    if reqs != [] {
      AddReadersKeepsSource(AddReaderPost(s, reqs[0]), reqs[1..]);
    }
  }

  lemma ConsumeKeepsSource(s: State)
    requires s.stream.Some?
    ensures ConsumeOnHold(s).source == s.source
  {
    hide AddReaders;
    var s1 := s.(log := s.log + Replies(s.describeOnHold, WithStream(s.stream.value)), describeOnHold := []);
    AddReadersKeepsSource(s1, s1.readerAddOnHold);
  }

  // Becoming ready does not change whose stream it is.
  lemma ReadyKeepsSource(s: State, result: Option<StreamId>, author: PublisherId)
    ensures DoStaticSetReady(s, result).source == s.source
    ensures DoStartPublisher(s, author, result).source == s.source
  {
    hide ConsumeOnHold;
    var s1 := SetReady(s, result);
    if result.Some? {
      ConsumeKeepsSource(s1);
      ConsumeKeepsSource(StaticScheduleClose(s1.(staticSource := s1.staticSource.(readyTimer := false))));
      ConsumeKeepsSource(PublisherScheduleClose(s1.(publisher := s1.publisher.(readyTimer := false))));
    }
  }

  // --- What the environment has to respect, and what nobody promises ---------------------------

  // A static source that announces itself ready calls the hooks in order exactly when it was not ready
  // before. A source that starts again without having said that it stopped breaks the order.
  lemma ReadyTwiceBreaksOrder(s: State, stream: StreamId)
    requires Inv(s) && s.source == StaticHandler && s.handlerRunning
    ensures Summarize(DoStaticSetReady(s, Some(stream)).log).proper <==> s.stream.None?
  {
    if s.stream.None? {
      StaticSetReadyKeeps(s, Some(stream));
    } else {
      assert Summarize(s.log).phase != Down;
      hide Inv, Summarize, DoStaticSetReady;
      ReadyTwice(s, stream);
    }
  }

  lemma ReadyTwice(s: State, stream: StreamId)
    requires s.stream.Some? && Summarize(s.log).phase != Down
    ensures !Summarize(DoStaticSetReady(s, Some(stream)).log).proper
  {
    hide Summarize;
    Snoc(s.log, OnReadyHook);
    Snoc(s.log + [OnReadyHook], PathReady);
    var s1 := SetReady(s, Some(stream));
    assert !Summarize(s1.log).proper;
    var s2 := if s1.conf.HasOnDemandStaticSource() then StaticScheduleClose(s1.(staticSource := s1.staticSource.(readyTimer := false))) else s1;
    Bulk(s2.log, s2.describeOnHold, WithStream(stream));
    var s3 := s2.(log := s2.log + Replies(s2.describeOnHold, WithStream(stream)), describeOnHold := []);
    ImproperStays(s3, s3.readerAddOnHold);
  }

  lemma {:induction false} ImproperStays(s: State, reqs: seq<ReaderRequest>)
    requires s.stream.Some? && !Summarize(s.log).proper
    ensures !Summarize(AddReaders(s, reqs).log).proper
    decreases |reqs|
  {
    hide Summarize, JoinReader;
    if reqs != [] {
      var s' := AddReaderPost(s, reqs[0]);
      Snoc(s.log, s'.log[|s.log|]);
      ImproperStays(s', reqs[1..]);
    }
  }

  lemma LegalNothing(s: State)
    ensures Legal(s, []) && After(s, []) == s
  {
  }

  lemma LegalStep(s: State, e: Event, events: seq<Event>)
    ensures After(s, [e] + events) == After(Step(s, e), events)
    ensures Legal(s, [e] + events)
       <==> Enabled(s, e) && (Returns(s, e) ==> events == []) && Legal(Step(s, e), events)
  {
    hide Step, Returns, Enabled;
    assert ([e] + events)[1..] == events;
  }
}
