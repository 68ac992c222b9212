/** The path actor on values: its state, the events it reacts to, and what each handler does. */
module PathModel {
  import opened Wrappers

  type RequestId = nat
  type ReaderId = nat
  type PublisherId = nat
  type StreamId = nat

  datatype SourceKind = FromPublisher | FromUrl | FromRedirect

  // The configuration fields the handlers look at.
  datatype Conf = Conf(
    source: SourceKind,
    sourceOnDemand: bool,
    runOnDemand: bool,
    regexp: bool,
    maxReaders: int,
    overridePublisher: bool,
    fallback: bool,
    record: bool)
  {
    predicate HasStaticSource() { source == FromUrl }

    predicate HasOnDemandStaticSource() { HasStaticSource() && sourceOnDemand }

    predicate HasOnDemandPublisher() { runOnDemand }

    // The configuration check refuses runOnDemand unless the source is a publisher.
    predicate Checked() { runOnDemand ==> source == FromPublisher }
  }

  datatype Source = NoSource | Redirect | StaticHandler | Publisher(id: PublisherId)

  datatype OnDemandState = Initial | WaitingReady | Ready | Closing

  // One of the two on-demand state machines: its state, and which of its timers are armed.
  datatype OnDemand = OnDemand(state: OnDemandState, readyTimer: bool, closeTimer: bool) {
    function Started(): OnDemand {
      OnDemand(WaitingReady, true, closeTimer)
    }

    function CloseScheduled(): OnDemand {
      OnDemand(Closing, readyTimer, true)
    }

    function Stopped(): OnDemand {
      OnDemand(Initial, readyTimer, if state == Closing then false else closeTimer)
    }

    // A reader joins.
    function Used(): OnDemand {
      if state == Closing then OnDemand(Ready, readyTimer, false) else this
    }

    // Each timer is armed in exactly one of the states.
    ghost predicate Timed() {
      && (readyTimer <==> state == WaitingReady)
      && (closeTimer <==> state == Closing)
    }
  }

  const IDLE := OnDemand(Initial, false, false)

  datatype ReaderRequest = ReaderRequest(id: RequestId, author: ReaderId)

  datatype Response =
    | WithStream(stream: StreamId)
    | RedirectTo
    | FallbackTo
    | TimedOut
    | NoOnePublishing
    | TooManyReaders
    | Terminated

  // What the path does to the rest of the server.
  datatype Action =
    | Replied(request: RequestId, response: Response)
    | OnDemandHook
    | OnUnDemandHook
    | OnReadyHook
    | OnNotReadyHook
    | PathReady
    | PathNotReady
    | ReadersClosed(readers: set<ReaderId>)
    | PublisherClosed(id: PublisherId)
    | HandlerStarted
    | HandlerStopped
    | Panic

  datatype State = State(
    conf: Conf,
    source: Source,
    handlerRunning: bool,
    stream: Option<StreamId>,
    recording: bool,
    onUnDemandHook: bool,
    onNotReadyHook: bool,
    readers: set<ReaderId>,
    describeOnHold: seq<RequestId>,
    readerAddOnHold: seq<ReaderRequest>,
    staticSource: OnDemand,
    publisher: OnDemand,
    log: seq<Action>)
  {
    function Do(a: Action): State {
      this.(log := log + [a])
    }
  }

  datatype Event =
    | StaticReadyTimerFired
    | StaticCloseTimerFired
    | PublisherReadyTimerFired
    | PublisherCloseTimerFired
    | ReloadConf(conf: Conf)
    | StaticSetReady(result: Option<StreamId>)
    | StaticSetNotReady
    | Describe(request: RequestId)
    | AddPublisher(author: PublisherId)
    | RemovePublisher(author: PublisherId)
    | StartPublisher(author: PublisherId, result: Option<StreamId>)
    | StopPublisher(author: PublisherId)
    | AddReader(req: ReaderRequest)
    | RemoveReader(reader: ReaderId)
    | APIPathsGet

  // --- The pieces the handlers share -----------------------------------------------------------

  function StartHandler(s: State): State {
    if s.handlerRunning then s.Do(Panic) else s.(handlerRunning := true).Do(HandlerStarted)
  }

  function StopHandler(s: State): State {
    if !s.handlerRunning then s.Do(Panic) else s.(handlerRunning := false).Do(HandlerStopped)
  }

  function StaticStart(s: State): State {
    StartHandler(s).(staticSource := s.staticSource.Started())
  }

  function StaticScheduleClose(s: State): State {
    s.(staticSource := s.staticSource.CloseScheduled())
  }

  function StaticStop(s: State): State {
    StopHandler(s.(staticSource := s.staticSource.Stopped()))
  }

  function PublisherStart(s: State): State {
    s.(onUnDemandHook := true, publisher := s.publisher.Started()).Do(OnDemandHook)
  }

  function PublisherScheduleClose(s: State): State {
    s.(publisher := s.publisher.CloseScheduled())
  }

  function CallUnDemandHook(s: State): State {
    if s.onUnDemandHook then s.Do(OnUnDemandHook) else s.Do(Panic)
  }

  function PublisherStop(s: State): State {
    CallUnDemandHook(s).(publisher := s.publisher.Stopped(), onUnDemandHook := false)
  }

  // stream.New may fail, and then leaves no stream behind.
  function SetReady(s: State, result: Option<StreamId>): State {
    var s1 := s.(stream := result);
    if result.None? then s1
    else s1.(recording := s.recording || s.conf.record, onNotReadyHook := true).Do(OnReadyHook).Do(PathReady)
  }

  function CallNotReadyHook(s: State): State {
    if s.onNotReadyHook then s.Do(OnNotReadyHook) else s.Do(Panic)
  }

  function SetNotReady(s: State): State {
    var s1 := s.Do(PathNotReady).(readers := {}).Do(ReadersClosed(s.readers));
    CallNotReadyHook(s1).(recording := false, stream := None)
  }

  function JoinReader(s: State, author: ReaderId): (s': State)
    ensures s'.log == s.log && s'.stream == s.stream
  {
    var s1 := s.(readers := s.readers + {author});
    if s.conf.HasOnDemandStaticSource() then s1.(staticSource := s.staticSource.Used())
    else if s.conf.HasOnDemandPublisher() then s1.(publisher := s.publisher.Used())
    else s1
  }

  // A reader the path has a stream for.
  function AddReaderPost(s: State, req: ReaderRequest): (s': State)
    requires s.stream.Some?
    ensures s'.stream == s.stream
  {
    if req.author in s.readers then s.Do(Replied(req.id, WithStream(s.stream.value)))
    else if s.conf.maxReaders != 0 && |s.readers| >= s.conf.maxReaders then s.Do(Replied(req.id, TooManyReaders))
    else
      JoinReader(s, req.author).Do(Replied(req.id, WithStream(s.stream.value)))
  }

  function AddReaders(s: State, reqs: seq<ReaderRequest>): (s': State)
    requires s.stream.Some?
    ensures s'.stream == s.stream
    decreases |reqs|
  {
    if reqs == [] then s else AddReaders(AddReaderPost(s, reqs[0]), reqs[1..])
  }

  function Replies(requests: seq<RequestId>, response: Response): (actions: seq<Action>)
    ensures |actions| == |requests|
  {
    if requests == [] then [] else [Replied(requests[0], response)] + Replies(requests[1..], response)
  }

  function Ids(reqs: seq<ReaderRequest>): (ids: seq<RequestId>)
    ensures |ids| == |reqs|
  {
    if reqs == [] then [] else [reqs[0].id] + Ids(reqs[1..])
  }

  function ConsumeOnHold(s: State): State
    requires s.stream.Some?
  {
    var s1 := s.(log := s.log + Replies(s.describeOnHold, WithStream(s.stream.value)), describeOnHold := []);
    AddReaders(s1, s1.readerAddOnHold).(readerAddOnHold := [])
  }

  // Every held request gets the same answer.
  function AnswerOnHold(s: State, response: Response): State {
    s.(log := s.log + Replies(s.describeOnHold, response) + Replies(Ids(s.readerAddOnHold), response),
       describeOnHold := [], readerAddOnHold := [])
  }

  function RemoveSource(s: State): State {
    (if s.stream.Some? then SetNotReady(s) else s).(source := NoSource)
  }

  // --- The handlers ----------------------------------------------------------------------------

  function DoStaticReadyTimer(s: State): State {
    StaticStop(AnswerOnHold(s.(staticSource := s.staticSource.(readyTimer := false)), TimedOut))
  }

  function DoStaticCloseTimer(s: State): State {
    StaticStop(SetNotReady(s.(staticSource := s.staticSource.(closeTimer := false))))
  }

  function DoPublisherReadyTimer(s: State): State {
    PublisherStop(AnswerOnHold(s.(publisher := s.publisher.(readyTimer := false)), TimedOut))
  }

  function DoPublisherCloseTimer(s: State): State {
    PublisherStop(s.(publisher := s.publisher.(closeTimer := false)))
  }

  function DoReloadConf(s: State, conf: Conf): State {
    s.(conf := conf, recording := conf.record && (s.recording || s.stream.Some?))
  }

  function DoStaticSetReady(s: State, result: Option<StreamId>): State {
    var s1 := SetReady(s, result);
    if result.None? then s1
    else
      var s2 := if s1.conf.HasOnDemandStaticSource() then StaticScheduleClose(s1.(staticSource := s1.staticSource.(readyTimer := false))) else s1;
      ConsumeOnHold(s2)
  }

  function DoStaticSetNotReady(s: State): State {
    var s1 := SetNotReady(s);
    if s1.conf.HasOnDemandStaticSource() && s1.staticSource.state != Initial then StaticStop(s1) else s1
  }

  function DoDescribe(s: State, request: RequestId): State {
    if s.source == Redirect then s.Do(Replied(request, RedirectTo))
    else if s.stream.Some? then s.Do(Replied(request, WithStream(s.stream.value)))
    else if s.conf.HasOnDemandStaticSource() then
      var s1 := if s.staticSource.state == Initial then StaticStart(s) else s;
      s1.(describeOnHold := s1.describeOnHold + [request])
    else if s.conf.HasOnDemandPublisher() then
      var s1 := if s.publisher.state == Initial then PublisherStart(s) else s;
      s1.(describeOnHold := s1.describeOnHold + [request])
    else s.Do(Replied(request, if s.conf.fallback then FallbackTo else NoOnePublishing))
  }

  function DoRemovePublisher(s: State, author: PublisherId): State {
    if s.source == Publisher(author) then RemoveSource(s) else s
  }

  function DoAddPublisher(s: State, author: PublisherId): State {
    if s.conf.source != FromPublisher then s
    else if s.source == NoSource then s.(source := Publisher(author))
    else if !s.conf.overridePublisher then s
    else
      var s1 := if s.source.Publisher? then s.Do(PublisherClosed(s.source.id)) else s.Do(Panic);
      RemoveSource(s1).(source := Publisher(author))
  }

  function DoStartPublisher(s: State, author: PublisherId, result: Option<StreamId>): State {
    if s.source != Publisher(author) then s
    else
      var s1 := SetReady(s, result);
      if result.None? then s1
      else
        var s2 := if s1.conf.HasOnDemandPublisher() && s1.publisher.state != Initial
                  then PublisherScheduleClose(s1.(publisher := s1.publisher.(readyTimer := false))) else s1;
        ConsumeOnHold(s2)
  }

  function DoStopPublisher(s: State, author: PublisherId): State {
    if s.source == Publisher(author) && s.stream.Some? then SetNotReady(s) else s
  }

  function DoAddReader(s: State, req: ReaderRequest): State {
    if s.stream.Some? then AddReaderPost(s, req)
    else if s.conf.HasOnDemandStaticSource() then
      var s1 := if s.staticSource.state == Initial then StaticStart(s) else s;
      s1.(readerAddOnHold := s1.readerAddOnHold + [req])
    else if s.conf.HasOnDemandPublisher() then
      var s1 := if s.publisher.state == Initial then PublisherStart(s) else s;
      s1.(readerAddOnHold := s1.readerAddOnHold + [req])
    else s.Do(Replied(req.id, NoOnePublishing))
  }

  function DoRemoveReader(s: State, reader: ReaderId): State {
    var s1 := s.(readers := s.readers - {reader});
    if s1.readers != {} then s1
    else if s1.conf.HasOnDemandStaticSource() then
      if s1.staticSource.state == Ready then StaticScheduleClose(s1) else s1
    else if s1.conf.HasOnDemandPublisher() then
      if s1.publisher.state == Ready then PublisherScheduleClose(s1) else s1
    else s1
  }

  function Step(s: State, e: Event): State {
    match e
    case StaticReadyTimerFired => DoStaticReadyTimer(s)
    case StaticCloseTimerFired => DoStaticCloseTimer(s)
    case PublisherReadyTimerFired => DoPublisherReadyTimer(s)
    case PublisherCloseTimerFired => DoPublisherCloseTimer(s)
    case ReloadConf(conf) => DoReloadConf(s, conf)
    case StaticSetReady(result) => DoStaticSetReady(s, result)
    case StaticSetNotReady => DoStaticSetNotReady(s)
    case Describe(request) => DoDescribe(s, request)
    case AddPublisher(author) => DoAddPublisher(s, author)
    case RemovePublisher(author) => DoRemovePublisher(s, author)
    case StartPublisher(author, result) => DoStartPublisher(s, author, result)
    case StopPublisher(author) => DoStopPublisher(s, author)
    case AddReader(req) => DoAddReader(s, req)
    case RemoveReader(reader) => DoRemoveReader(s, reader)
    case APIPathsGet => s
  }

  predicate ShouldClose(s: State) {
    s.conf.regexp && s.source == NoSource && s.readers == {} && s.describeOnHold == [] && s.readerAddOnHold == []
  }

  // The branches of the event loop that look at ShouldClose after their handler.
  predicate ChecksClose(e: Event) {
    e.StaticReadyTimerFired? || e.StaticCloseTimerFired? || e.PublisherReadyTimerFired? || e.StaticSetNotReady?
    || e.Describe? || e.RemovePublisher? || e.StopPublisher? || e.AddReader?
  }

  // The path when its event loop starts.
  function Start(conf: Conf): State {
    var source := match conf.source
      case FromRedirect => Redirect
      case FromUrl => StaticHandler
      case FromPublisher => NoSource;
    var s := State(conf, source, false, None, false, false, false, {}, [], [],
                   IDLE, IDLE, []);
    if conf.HasStaticSource() && !conf.sourceOnDemand then StartHandler(s) else s
  }

  // What run does after the event loop has returned: timers stopped and waiting requests answered, ...
  function AnswerLeft(s: State): State {
    s.(staticSource := OnDemand(s.staticSource.state, false, false),
       publisher := OnDemand(s.publisher.state, false, false),
       log := s.log + Replies(s.describeOnHold, Terminated) + Replies(Ids(s.readerAddOnHold), Terminated))
  }

  // ... the source closed, ...
  function CloseSource(s: State): State {
    match s.source
    case StaticHandler => if !s.conf.sourceOnDemand || s.staticSource.state != Initial then StopHandler(s) else s
    case Publisher(id) => s.Do(PublisherClosed(id))
    case _ => s
  }

  // ... and the on-demand command stopped.
  function Finish(s: State): State {
    var s1 := AnswerLeft(s);
    var s2 := CloseSource(if s1.stream.Some? then SetNotReady(s1) else s1);
    if s2.onUnDemandHook then CallUnDemandHook(s2) else s2
  }
}
