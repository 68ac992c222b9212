/** What the path answers is true: the replies of every event say how things are when they are given. */
module PathReplies {
  import opened Wrappers
  import opened PathModel
  import opened PathInvariant
  import opened PathRuns

  predicate Full(s: State) {
    s.conf.maxReaders != 0 && |s.readers| >= s.conf.maxReaders
  }

  predicate OnDemandSource(conf: Conf) {
    conf.HasOnDemandStaticSource() || conf.HasOnDemandPublisher()
  }

  // A response to a request, when the event e takes the path from s to s'.
  predicate Truthful(s: State, e: Event, s': State, r: Response) {
    match r
    case WithStream(stream) => s'.stream == Some(stream)
    case RedirectTo => s.source == Redirect
    case FallbackTo => s'.stream.None? && !OnDemandSource(s.conf) && s.conf.fallback
    case NoOnePublishing => s'.stream.None? && !OnDemandSource(s.conf)
    case TooManyReaders => Full(s')
    case TimedOut => s'.stream.None? && (e.StaticReadyTimerFired? || e.PublisherReadyTimerFired?)
    case Terminated => false
  }

  // The log grows, and every new reply is one of these.
  ghost predicate Says(before: seq<Action>, after: seq<Action>, ok: Response -> bool) {
    && before <= after
    && forall i :: |before| <= i < |after| && after[i].Replied? ==> ok(after[i].response)
  }

  lemma SaysOneMore(before: seq<Action>, log: seq<Action>, a: Action, ok: Response -> bool)
    requires Says(before, log, ok) && (a.Replied? ==> ok(a.response))
    ensures Says(before, log + [a], ok)
  {
  }

  lemma {:induction false} SaysReplies(before: seq<Action>, log: seq<Action>, requests: seq<RequestId>, r: Response,
                                       ok: Response -> bool)
    requires Says(before, log, ok) && ok(r)
    ensures Says(before, log + Replies(requests, r), ok)
    decreases |requests|
  {
    hide Says;
    if requests == [] {
      assert log + [] == log;
    } else {
      SaysOneMore(before, log, Replied(requests[0], r), ok);
      SaysReplies(before, log + [Replied(requests[0], r)], requests[1..], r, ok);
      BulkSplit(log, requests, r);
    }
  }

  lemma SmallerSet<T>(a: set<T>, b: set<T>)
    requires a <= b
    ensures |a| <= |b|
  {
    assert b == a + (b - a);
  }

  // Held readers are let in one after the other. Whoever is refused is refused because of those who are in.
  lemma {:induction false} AddReadersSay(before: seq<Action>, s: State, reqs: seq<ReaderRequest>, ok: Response -> bool)
    requires s.stream.Some? && Says(before, s.log, ok) && ok(WithStream(s.stream.value))
    requires Full(AddReaders(s, reqs)) ==> ok(TooManyReaders)
    ensures Says(before, AddReaders(s, reqs).log, ok)
    ensures AddReaders(s, reqs).conf == s.conf && s.readers <= AddReaders(s, reqs).readers
    decreases |reqs|
  {
    if reqs != [] {
      hide Says, JoinReader, AddReaders;
      AddReadersStep(s, reqs);
      var s' := AddReaderPost(s, reqs[0]);
      AddReadersGrow(s', reqs[1..]);
      AddReaderPostAdds(s, reqs[0]);
      if s'.log == s.log + [Replied(reqs[0].id, TooManyReaders)] {
        SmallerSet(s.readers, AddReaders(s, reqs).readers);
      }
      SaysOneMore(before, s.log, s'.log[|s.log|], ok);
      AddReadersSay(before, s', reqs[1..], ok);
    }
  }

  lemma AddReadersStep(s: State, reqs: seq<ReaderRequest>)
    requires s.stream.Some? && reqs != []
    ensures AddReaders(s, reqs) == AddReaders(AddReaderPost(s, reqs[0]), reqs[1..])
  {
  }

  lemma AddReaderPostAdds(s: State, req: ReaderRequest)
    requires s.stream.Some?
    ensures var s' := AddReaderPost(s, req);
      && s'.conf == s.conf && s.readers <= s'.readers
      && (s'.log == s.log + [Replied(req.id, WithStream(s.stream.value))]
          || (s'.log == s.log + [Replied(req.id, TooManyReaders)] && Full(s)))
  {
  }

  lemma {:induction false} AddReadersGrow(s: State, reqs: seq<ReaderRequest>)
    requires s.stream.Some?
    ensures AddReaders(s, reqs).conf == s.conf && s.readers <= AddReaders(s, reqs).readers
    decreases |reqs|
  {
    if reqs != [] {
      AddReaderPostAdds(s, reqs[0]);
      AddReadersGrow(AddReaderPost(s, reqs[0]), reqs[1..]);
    }
  }

  lemma ConsumeOnHoldSays(before: seq<Action>, s: State, ok: Response -> bool)
    requires s.stream.Some? && Says(before, s.log, ok) && ok(WithStream(s.stream.value))
    requires Full(ConsumeOnHold(s)) ==> ok(TooManyReaders)
    ensures Says(before, ConsumeOnHold(s).log, ok)
  {
    hide Says, AddReaders;
    SaysReplies(before, s.log, s.describeOnHold, WithStream(s.stream.value), ok);
    var s1 := s.(log := s.log + Replies(s.describeOnHold, WithStream(s.stream.value)), describeOnHold := []);
    AddReadersSay(before, s1, s1.readerAddOnHold, ok);
  }

  // --- The events ------------------------------------------------------------------------------

  lemma ReadySays(s: State, s2: State, ok: Response -> bool)
    requires s2.stream.Some? && s2.log == s.log + [OnReadyHook] + [PathReady]
    requires ok(WithStream(s2.stream.value)) && (Full(ConsumeOnHold(s2)) ==> ok(TooManyReaders))
    ensures Says(s.log, ConsumeOnHold(s2).log, ok)
  {
    SaysOneMore(s.log, s.log, OnReadyHook, ok);
    SaysOneMore(s.log, s.log + [OnReadyHook], PathReady, ok);
    ConsumeOnHoldSays(s.log, s2, ok);
  }

  lemma StaticReadyIsTruthful(s: State, e: Event)
    requires e.StaticSetReady?
    ensures Says(s.log, Step(s, e).log, r => Truthful(s, e, Step(s, e), r))
  {
    hide Says, ConsumeOnHold;
    if e.result.Some? {
      var s1 := SetReady(s, e.result);
      var s2 :=
        if s1.conf.HasOnDemandStaticSource()
        then StaticScheduleClose(s1.(staticSource := s1.staticSource.(readyTimer := false))) else s1;
      assert Step(s, e) == ConsumeOnHold(s2);
      ConsumeKeepsStream(s2);
      ReadySays(s, s2, r => Truthful(s, e, Step(s, e), r));
    } else {
      SaysNothing(s.log, r => Truthful(s, e, Step(s, e), r));
    }
  }

  lemma PublisherReadyIsTruthful(s: State, e: Event)
    requires e.StartPublisher?
    ensures Says(s.log, Step(s, e).log, r => Truthful(s, e, Step(s, e), r))
  {
    hide Says, ConsumeOnHold;
    if e.result.Some? && s.source == Publisher(e.author) {
      var s1 := SetReady(s, e.result);
      var s2 :=
        if s1.conf.HasOnDemandPublisher() && s1.publisher.state != Initial
        then PublisherScheduleClose(s1.(publisher := s1.publisher.(readyTimer := false))) else s1;
      assert Step(s, e) == ConsumeOnHold(s2);
      ConsumeKeepsStream(s2);
      ReadySays(s, s2, r => Truthful(s, e, Step(s, e), r));
    } else {
      SaysNothing(s.log, r => Truthful(s, e, Step(s, e), r));
    }
  }

  lemma ConsumeKeepsStream(s: State)
    requires s.stream.Some?
    ensures ConsumeOnHold(s).stream == s.stream
  {
  }

  lemma TimeoutIsTruthful(s: State, e: Event)
    requires Inv(s) && Enabled(s, e) && (e.StaticReadyTimerFired? || e.PublisherReadyTimerFired?)
    ensures Says(s.log, Step(s, e).log, r => Truthful(s, e, Step(s, e), r))
  {
    var ok: Response -> bool := r => Truthful(s, e, Step(s, e), r);
    assert Step(s, e).stream.None?;
    SaysReplies(s.log, s.log, s.describeOnHold, TimedOut, ok);
    SaysReplies(s.log, s.log + Replies(s.describeOnHold, TimedOut), Ids(s.readerAddOnHold), TimedOut, ok);
    hide Summarize, Replies, Ids;
  }

  // What a handler does to the log besides replying.
  lemma SetNotReadySays(before: seq<Action>, s: State, ok: Response -> bool)
    requires Says(before, s.log, ok)
    ensures Says(before, SetNotReady(s).log, ok) && SetNotReady(s).stream.None?
  {
    hide Says;
    var log := s.log + [PathNotReady] + [ReadersClosed(s.readers)];
    SaysOneMore(before, s.log, PathNotReady, ok);
    SaysOneMore(before, s.log + [PathNotReady], ReadersClosed(s.readers), ok);
    SaysOneMore(before, log, OnNotReadyHook, ok);
    SaysOneMore(before, log, Panic, ok);
  }

  lemma HandlerSays(before: seq<Action>, s: State, ok: Response -> bool)
    requires Says(before, s.log, ok)
    ensures Says(before, StaticStop(s).log, ok) && Says(before, StaticStart(s).log, ok)
    ensures Says(before, PublisherStop(s).log, ok) && Says(before, PublisherStart(s).log, ok)
  {
    hide Says;
    SaysOneMore(before, s.log, Panic, ok);
    SaysOneMore(before, s.log, HandlerStarted, ok);
    SaysOneMore(before, s.log, HandlerStopped, ok);
    SaysOneMore(before, s.log, OnDemandHook, ok);
    SaysOneMore(before, s.log, OnUnDemandHook, ok);
  }

  lemma DescribeIsTruthful(s: State, e: Event)
    requires e.Describe?
    ensures Says(s.log, Step(s, e).log, r => Truthful(s, e, Step(s, e), r))
  {
    var s' := Step(s, e);
    var ok: Response -> bool := r => Truthful(s, e, s', r);
    HandlerSays(s.log, s, ok);
    hide Says;
    if s'.log == s.log + [Replied(e.request, RedirectTo)] && s.source == Redirect {
      SaysOneMore(s.log, s.log, Replied(e.request, RedirectTo), ok);
    } else if s.stream.Some? {
      SaysOneMore(s.log, s.log, Replied(e.request, WithStream(s.stream.value)), ok);
    } else if OnDemandSource(s.conf) {
      SaysNothing(s.log, ok);
    } else {
      SaysOneMore(s.log, s.log, Replied(e.request, if s.conf.fallback then FallbackTo else NoOnePublishing), ok);
    }
  }

  lemma SaysNothing(log: seq<Action>, ok: Response -> bool)
    ensures Says(log, log, ok)
  {
  }

  lemma AddReaderIsTruthful(s: State, e: Event)
    requires e.AddReader?
    ensures Says(s.log, Step(s, e).log, r => Truthful(s, e, Step(s, e), r))
  {
    var s' := Step(s, e);
    var ok: Response -> bool := r => Truthful(s, e, s', r);
    SaysNothing(s.log, ok);
    HandlerSays(s.log, s, ok);
    hide Says, JoinReader, AddReaderPost;
    if s.stream.Some? {
      AddReaderPostAdds(s, e.req);
      if Full(s) {
        SmallerSet(s.readers, s'.readers);
      }
      SaysOneMore(s.log, s.log, s'.log[|s.log|], ok);
    } else if !OnDemandSource(s.conf) {
      SaysOneMore(s.log, s.log, Replied(e.req.id, NoOnePublishing), ok);
    }
  }

  // The events that concern sources and timers, and give no reply.
  lemma SourceSaysNothing(s: State, e: Event)
    requires e.StaticCloseTimerFired? || e.PublisherCloseTimerFired? || e.StaticSetNotReady? || e.StopPublisher?
    ensures Says(s.log, Step(s, e).log, r => Truthful(s, e, Step(s, e), r))
  {
    var ok: Response -> bool := r => Truthful(s, e, Step(s, e), r);
    SaysNothing(s.log, ok);
    hide Says, SetNotReady, StaticStop, PublisherStop, Truthful;
    match e {
      case StaticCloseTimerFired =>
        var s1 := s.(staticSource := s.staticSource.(closeTimer := false));
        SetNotReadySays(s.log, s1, ok);
        HandlerSays(s.log, SetNotReady(s1), ok);
      case PublisherCloseTimerFired =>
        HandlerSays(s.log, s.(publisher := s.publisher.(closeTimer := false)), ok);
      case StaticSetNotReady =>
        SetNotReadySays(s.log, s, ok);
        HandlerSays(s.log, SetNotReady(s), ok);
      case StopPublisher(author) =>
        SetNotReadySays(s.log, s, ok);
    }
  }

  lemma PublisherSaysNothing(s: State, e: Event)
    requires e.AddPublisher? || e.RemovePublisher? || e.RemoveReader? || e.ReloadConf? || e.APIPathsGet?
    ensures Says(s.log, Step(s, e).log, r => Truthful(s, e, Step(s, e), r))
  {
    var ok: Response -> bool := r => Truthful(s, e, Step(s, e), r);
    SaysNothing(s.log, ok);
    SetNotReadySays(s.log, s, ok);
    hide Says, SetNotReady, Truthful;
    if e.AddPublisher? {
      var a := if s.source.Publisher? then PublisherClosed(s.source.id) else Panic;
      SaysOneMore(s.log, s.log, a, ok);
      SetNotReadySays(s.log, s.Do(a), ok);
    }
  }

  // Every reply of every event is true: a stream that is handed out is the one the path has, nobody is told that
  // nobody publishes while there is a stream, nobody is refused while there is room.
  lemma RepliesAreTruthful(s: State, e: Event)
    requires Inv(s) && Enabled(s, e)
    ensures Says(s.log, Step(s, e).log, r => Truthful(s, e, Step(s, e), r))
  {
    hide Inv, Step, Says;
    if e.StaticSetReady? {
      StaticReadyIsTruthful(s, e);
    } else if e.StartPublisher? {
      PublisherReadyIsTruthful(s, e);
    } else if e.StaticReadyTimerFired? || e.PublisherReadyTimerFired? {
      TimeoutIsTruthful(s, e);
    } else if e.Describe? {
      DescribeIsTruthful(s, e);
    } else if e.AddReader? {
      AddReaderIsTruthful(s, e);
    } else if e.AddPublisher? || e.RemovePublisher? || e.RemoveReader? || e.ReloadConf? || e.APIPathsGet? {
      PublisherSaysNothing(s, e);
    } else {
      SourceSaysNothing(s, e);
    }
  }

  // --- Runs ------------------------------------------------------------------------------------

  ghost predicate TruthfulRun(s: State, events: seq<Event>)
    decreases |events|
  {
    events == [] ||
    (&& Says(s.log, Step(s, events[0]).log, r => Truthful(s, events[0], Step(s, events[0]), r))
     && TruthfulRun(Step(s, events[0]), events[1..]))
  }

  lemma {:induction false} RunIsTruthful(s: State, events: seq<Event>)
    requires Inv(s) && Legal(s, events)
    ensures TruthfulRun(s, events)
    decreases |events|
  {
    hide Inv, Step, Says;
    if events != [] {
      RepliesAreTruthful(s, events[0]);
      StepKeeps(s, events[0]);
      RunIsTruthful(Step(s, events[0]), events[1..]);
    }
  }

  // Over a whole life: the replies of the run are true, and those after it say that the path has terminated.
  lemma LifeIsTruthful(conf: Conf, events: seq<Event>)
    requires conf.Checked() && Legal(Start(conf), events)
    ensures TruthfulRun(Start(conf), events)
    ensures var s := After(Start(conf), events); Says(s.log, Finish(s).log, r => r == Terminated)
  {
    StartKeeps(conf);
    RunIsTruthful(Start(conf), events);
    FinishSays(After(Start(conf), events));
  }

  lemma FinishSays(s: State)
    ensures Says(s.log, Finish(s).log, r => r == Terminated)
  {
    var ok: Response -> bool := r => r == Terminated;
    SaysReplies(s.log, s.log, s.describeOnHold, Terminated, ok);
    SaysReplies(s.log, s.log + Replies(s.describeOnHold, Terminated), Ids(s.readerAddOnHold), Terminated, ok);
    var s1 := AnswerLeft(s);
    SetNotReadySays(s.log, s1, ok);
    hide Says, Replies, Ids, AnswerLeft, SetNotReady;
    var s2 := if s1.stream.Some? then SetNotReady(s1) else s1;
    CloseSourceSays(s.log, s2, ok);
    hide CloseSource;
    SaysOneMore(s.log, CloseSource(s2).log, OnUnDemandHook, ok);
  }

  lemma CloseSourceSays(before: seq<Action>, s: State, ok: Response -> bool)
    requires Says(before, s.log, ok)
    ensures Says(before, CloseSource(s).log, ok)
  {
    hide Says;
    SaysOneMore(before, s.log, Panic, ok);
    SaysOneMore(before, s.log, HandlerStopped, ok);
    if s.source.Publisher? {
      SaysOneMore(before, s.log, PublisherClosed(s.source.id), ok);
    }
  }
}
