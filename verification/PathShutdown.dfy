/**
 * Who waits for whom: the manager, a path, the handler of its static source and the source instance are
 * goroutines that meet on unbuffered channels. None of them gets stuck waiting for another, and among themselves
 * they can only go on for so long.
 */
module PathShutdown {
  // Stopping the source: its context is to be cancelled, or has been and the path waits for the handler.
  datatype Stop = NoStop | ToStop | Waiting

  // What the path has yet to do, in this order, before it is back at its select statement, or done:
  //   tells:   pathReady, pathNotReady, closePath; the manager receives, or the path context is done
  //   answer:  reply to the source instance
  //   cancel:  cancel the path context
  //   after:   more messages to the manager
  //   stop:    stop the source
  //   finish:  close(done)
  datatype Todo = Todo(tells: nat, answer: bool, cancel: bool, after: nat, stop: Stop, finish: bool)

  const Nothing := Todo(0, false, false, 0, NoStop, false)

  datatype Act = Tell | Answer | Cancel | TellAfter | StopSource | WaitStop | Finish | Idle

  function Head(t: Todo): Act {
    if t.tells > 0 then Tell
    else if t.answer then Answer
    else if t.cancel then Cancel
    else if t.after > 0 then TellAfter
    else if t.stop == ToStop then StopSource
    else if t.stop == Waiting then WaitStop
    else if t.finish then Finish
    else Idle
  }

  // The loop of the source handler.
  datatype Handler =
    | Ended
    | Looping(recreating: bool)
    | Forwarding(ready: bool)
    | Refusing(ready: bool)
    | WaitingErr

  // The source instance. `ready` says that the stream was set ready and has to be set not ready before the end.
  datatype Instance =
    | Off
    | Running(ready: bool)
    | Sending(ready: bool)
    | Awaiting(ready: bool)
    | Exiting

  datatype State = State(
    todo: Todo,
    closing: bool,
    ended: bool,
    pathDone: bool,
    handler: Handler,
    instance: Instance,
    sourceDone: bool,
    runDone: bool)

  const Start := State(Nothing, false, false, false, Ended, Off, false, false)

  predicate Selecting(s: State) {
    s.todo == Nothing && !s.closing
  }

  datatype Label =
    // the path
    | Event(tells: nat, stop: bool)
    | StartSource
    | Return(tell: bool)
    | Tells
    | Answers(ok: bool)
    | Stops
    | Stopped
    | Cancels
    | Finishes
    // the handler
    | Accepts
    | Delivers(tell: bool, stop: bool)
    | GivesUp
    | Refuses
    | SeesDone
    | SeesError
    | Recreates
    | Ends
    // the instance
    | SetsReady
    | SetsNotReady
    | SendFails
    | Exits

  // `listening`: the manager is at its select statement.
  predicate Enabled(s: State, listening: bool, l: Label) {
    match l
    case Event(tells, stop) => Selecting(s) && (stop ==> s.handler != Ended)
    case StartSource => Selecting(s) && s.handler == Ended
    case Return(tell) => Selecting(s)
    case Tells => (Head(s.todo) == Tell || Head(s.todo) == TellAfter) && (listening || s.pathDone)
    case Answers(ok) => Head(s.todo) == Answer && s.instance.Awaiting?
    case Stops => Head(s.todo) == StopSource
    case Stopped => Head(s.todo) == WaitStop && s.handler == Ended
    case Cancels => Head(s.todo) == Cancel
    case Finishes => Head(s.todo) == Finish
    case Accepts => s.handler == Looping(false) && s.instance.Sending?
    case Delivers(tell, stop) => s.handler.Forwarding? && Selecting(s) && (stop ==> s.handler.ready)
    case GivesUp => s.handler.Forwarding? && (s.pathDone || s.sourceDone)
    case Refuses => s.handler.Refusing? && s.instance.Awaiting?
    case SeesDone => s.handler.Looping? && s.sourceDone
    case SeesError => s.handler == Looping(false) && s.instance == Exiting
    case Recreates => s.handler == Looping(true)
    case Ends => s.handler == WaitingErr && s.instance == Exiting
    case SetsReady => s.instance == Running(false)
    case SetsNotReady => s.instance == Running(true)
    case SendFails => s.instance.Sending? && s.sourceDone
    case Exits => s.instance == Running(false)
  }

  function StopIf(b: bool): Stop {
    if b then ToStop else NoStop
  }

  function Next(s: State, listening: bool, l: Label): State
    requires Enabled(s, listening, l)
  {
    match l
    // any event that ends in `tells` messages to the manager, and maybe in stopping the source
    case Event(tells, stop) => s.(todo := Nothing.(tells := tells, stop := StopIf(stop)))
    case StartSource => s.(handler := Looping(false), instance := Running(false), sourceDone := false, runDone := false)
    // runInner returns: closePath, cancel, setNotReady when there is a stream, stop the source when it runs
    case Return(tell) =>
      s.(closing := true, todo := Todo(1, false, true, if tell then 1 else 0, StopIf(s.handler != Ended), true))
    case Tells =>
      s.(todo := if s.todo.tells > 0 then s.todo.(tells := s.todo.tells - 1) else s.todo.(after := s.todo.after - 1))
    case Answers(ok) =>
      s.(todo := s.todo.(answer := false), instance := Running(if s.instance.ready then false else ok))
    case Stops => s.(todo := s.todo.(stop := Waiting), sourceDone := true)
    case Stopped => s.(todo := s.todo.(stop := NoStop))
    case Cancels => s.(todo := s.todo.(cancel := false), pathDone := true)
    case Finishes => s.(todo := s.todo.(finish := false), ended := true)
    case Accepts => s.(handler := Forwarding(s.instance.ready), instance := Awaiting(s.instance.ready))
    // setReady or setNotReady, the answer, and after setNotReady maybe stopping the source
    case Delivers(tell, stop) =>
      s.(handler := Looping(false),
         todo := Nothing.(tells := if tell then 1 else 0, answer := true, stop := StopIf(stop)))
    case GivesUp => s.(handler := Refusing(s.handler.ready))
    case Refuses => s.(handler := Looping(false), instance := Running(false))
    case SeesDone => if s.handler.recreating then s.(handler := Ended) else s.(handler := WaitingErr, runDone := true)
    case SeesError => s.(handler := Looping(true), instance := Off, runDone := true)
    case Recreates => s.(handler := Looping(false), instance := Running(false), runDone := false)
    case Ends => s.(handler := Ended, instance := Off)
    case SetsReady => s.(instance := Sending(false))
    case SetsNotReady => s.(instance := Sending(true))
    case SendFails => s.(instance := Running(false))
    case Exits => s.(instance := Exiting)
  }

  ghost predicate Inv(s: State) {
    && (s.todo.finish <==> s.closing && !s.ended)
    && (s.closing ==> !s.todo.answer)
    && (s.todo.cancel ==> s.closing)
    && (s.closing && !s.todo.cancel ==> s.pathDone)
    && (s.ended ==> s.closing && s.todo == Nothing && s.handler == Ended)
    && (s.todo.stop == Waiting ==> s.todo.tells == 0 && !s.todo.answer && !s.todo.cancel && s.todo.after == 0)
    // the source runs until it has been stopped
    && (s.todo.stop == ToStop ==> s.handler != Ended)
    && (s.closing && s.todo.stop == NoStop ==> s.handler == Ended)
    && (s.handler != Ended ==> (s.sourceDone <==> s.todo.stop == Waiting))
    // an instance awaiting an answer will get exactly one: from the handler or from the path
    && (s.instance.Awaiting? <==> s.handler.Forwarding? || s.handler.Refusing? || s.todo.answer)
    && (s.todo.answer ==> !s.handler.Forwarding? && !s.handler.Refusing?)
    && (s.handler.Forwarding? || s.handler.Refusing? ==> s.handler.ready == s.instance.ready)
    // there is an instance exactly while the handler has one to wait for
    && (s.instance == Off <==> s.handler == Ended || s.handler == Looping(true))
    && (s.handler == WaitingErr ==> s.sourceDone && s.runDone)
  }

  predicate IsPathStep(l: Label) {
    l.Tells? || l.Answers? || l.Stops? || l.Stopped? || l.Cancels? || l.Finishes?
  }

  predicate IsSelectStep(l: Label) {
    l.Event? || l.StartSource? || l.Return? || l.Delivers?
  }

  lemma PathStepKeepsInv(s: State, listening: bool, l: Label)
    requires Inv(s) && Enabled(s, listening, l) && IsPathStep(l)
    ensures Inv(Next(s, listening, l))
  {
  }

  lemma SelectStepKeepsInv(s: State, listening: bool, l: Label)
    requires Inv(s) && Enabled(s, listening, l) && IsSelectStep(l)
    ensures Inv(Next(s, listening, l))
  {
  }

  predicate IsInstanceStep(l: Label) {
    l.SetsReady? || l.SetsNotReady? || l.SendFails? || l.Exits?
  }

  lemma HandlerStepKeepsInv(s: State, listening: bool, l: Label)
    requires Inv(s) && Enabled(s, listening, l) && !IsPathStep(l) && !IsSelectStep(l) && !IsInstanceStep(l)
    ensures Inv(Next(s, listening, l))
  {
    hide Head;
  }

  lemma InstanceStepKeepsInv(s: State, listening: bool, l: Label)
    requires Inv(s) && Enabled(s, listening, l) && IsInstanceStep(l)
    ensures Inv(Next(s, listening, l))
  {
    hide Head;
  }

  lemma StepKeepsInv(s: State, listening: bool, l: Label)
    requires Inv(s) && Enabled(s, listening, l)
    ensures Inv(Next(s, listening, l))
  {
    hide Inv, Enabled, Next;
    if IsPathStep(l) {
      PathStepKeepsInv(s, listening, l);
    } else if IsSelectStep(l) {
      SelectStepKeepsInv(s, listening, l);
    } else if IsInstanceStep(l) {
      InstanceStepKeepsInv(s, listening, l);
    } else {
      HandlerStepKeepsInv(s, listening, l);
    }
  }

  // --- Progress --------------------------------------------------------------------------------

  // The path is in a handler, on its way out, or has been told to close.
  predicate Busy(s: State) {
    !s.ended && (s.todo != Nothing || s.pathDone)
  }

  // The next step towards the end of what the path is doing; of the source when the path waits for it.
  function Progress(s: State): Label
    requires Inv(s) && Busy(s)
  {
    match Head(s.todo)
      case Idle => Return(false)
      case Tell => Tells
      case Answer => Answers(true)
      case Cancel => Cancels
      case TellAfter => Tells
      case StopSource => Stops
      case Finish => Finishes
      case WaitStop =>
        match s.handler
        case Ended => Stopped
        case Looping(_) => SeesDone
        case Forwarding(_) => GivesUp
        case Refusing(_) => Refuses
        case WaitingErr =>
          if s.instance == Exiting then Ends
          else if s.instance == Running(true) then SetsNotReady
          else if s.instance == Running(false) then Exits
          else SendFails
  }

  predicate HasToTell(s: State) {
    Head(s.todo) == Tell || Head(s.todo) == TellAfter
  }

  // A busy path is blocked exactly when it has something to tell a manager that does not listen and its context
  // is not done. Otherwise it moves on by itself, or the source it waits for does.
  lemma ProgressIsEnabled(s: State, listening: bool)
    requires Inv(s) && Busy(s)
    ensures Enabled(s, listening, Progress(s)) <==> (HasToTell(s) ==> listening || s.pathDone)
    ensures !Enabled(s, listening, Progress(s)) ==>
      forall l :: IsPathStep(l) || IsSelectStep(l) ==> !Enabled(s, listening, l)
  {
  }

  // What is decided outside: the path takes an event or starts the source, a source connects again or announces
  // a stream.
  predicate IsDecision(l: Label) {
    l.Event? || l.StartSource? || l.Recreates? || l.SetsReady?
  }

  // How many steps a decision gives rise to, at most.
  function Cost(l: Label): nat {
    match l
    case Event(tells, _) => tells + 3
    case StartSource => 5
    case Recreates => 3
    case SetsReady => 14
    case _ => 0
  }

  function CostOf(labels: seq<Label>): nat {
    if labels == [] then 0 else Cost(labels[0]) + CostOf(labels[1..])
  }

  function TodoWork(t: Todo): nat {
    t.tells + t.after
    + (if t.answer then 1 else 0) + (if t.cancel then 1 else 0) + (if t.finish then 1 else 0)
    + (match t.stop case NoStop => 0 case ToStop => 2 case Waiting => 1)
  }

  function HandlerWork(h: Handler): nat {
    match h
    case Ended => 0
    case WaitingErr => 1
    case Looping(_) => 2
    case Refusing(_) => 3
    case Forwarding(_) => 7
  }

  function InstanceWork(i: Instance): nat {
    match i
    case Off => 0
    case Exiting => 1
    case Running(ready) => if ready then 9 else 2
    case Awaiting(ready) => if ready then 2 else 9
    case Sending(ready) => if ready then 8 else 15
  }

  // The steps that are left, when nothing more is decided.
  function Work(s: State): nat {
    (if s.closing then 0 else 20) + TodoWork(s.todo) + HandlerWork(s.handler) + InstanceWork(s.instance)
  }

  lemma PathStepDoesWork(s: State, listening: bool, l: Label)
    requires Enabled(s, listening, l) && IsPathStep(l)
    ensures Work(Next(s, listening, l)) < Work(s)
  {
  }

  lemma SelectStepDoesWork(s: State, listening: bool, l: Label)
    requires Inv(s) && Enabled(s, listening, l) && IsSelectStep(l)
    ensures 1 + Work(Next(s, listening, l)) <= Work(s) + Cost(l)
  {
  }

  lemma SourceStepDoesWork(s: State, listening: bool, l: Label)
    requires Inv(s) && Enabled(s, listening, l) && !IsPathStep(l) && !IsSelectStep(l)
    ensures 1 + Work(Next(s, listening, l)) <= Work(s) + Cost(l)
  {
    hide Head, TodoWork;
    assert Next(s, listening, l).todo == s.todo;
  }

  // Every step of anyone takes one off the work left, except what a decision adds.
  lemma StepDoesWork(s: State, listening: bool, l: Label)
    requires Inv(s) && Enabled(s, listening, l)
    ensures 1 + Work(Next(s, listening, l)) <= Work(s) + Cost(l)
  {
    hide Inv, Enabled, Next, Work, Cost;
    if IsPathStep(l) {
      PathStepDoesWork(s, listening, l);
    } else if IsSelectStep(l) {
      SelectStepDoesWork(s, listening, l);
    } else {
      SourceStepDoesWork(s, listening, l);
    }
  }

  lemma ProgressIsNoDecision(s: State)
    requires Inv(s) && Busy(s)
    ensures !IsDecision(Progress(s)) && Cost(Progress(s)) == 0
  {
  }

  lemma DoneStaysDone(s: State, listening: bool, l: Label)
    requires Enabled(s, listening, l) && s.pathDone
    ensures Next(s, listening, l).pathDone
  {
  }

  ghost predicate Reaches(s: State, listening: bool, labels: seq<Label>, s': State)
    decreases |labels|
  {
    if labels == [] then s == s'
    else Enabled(s, listening, labels[0]) && Reaches(Next(s, listening, labels[0]), listening, labels[1..], s')
  }

  // Whatever is chosen, a run is no longer than its decisions allow.
  lemma {:induction false} RunIsBounded(s: State, listening: bool, labels: seq<Label>, s': State)
    requires Inv(s) && Reaches(s, listening, labels, s')
    ensures Inv(s') && (s.pathDone ==> s'.pathDone)
    ensures |labels| + Work(s') <= Work(s) + CostOf(labels)
    decreases |labels|
  {
    hide Inv, Enabled, Next, Work, Cost;
    if labels != [] {
      var l := labels[0];
      StepKeepsInv(s, listening, l);
      StepDoesWork(s, listening, l);
      if s.pathDone {
        DoneStaysDone(s, listening, l);
      }
      RunIsBounded(Next(s, listening, l), listening, labels[1..], s');
    }
  }

  // Nothing can happen any more unless somebody outside decides something.
  ghost predicate Settled(s: State, listening: bool) {
    forall l :: Enabled(s, listening, l) ==> IsDecision(l)
  }

  // A path that was told to close comes to its end on every run: no run has more steps than its decisions
  // allow, and a run that cannot be continued without one has ended - whether the manager listens or not.
  lemma ToldToCloseEnds(s: State, listening: bool, labels: seq<Label>, s': State)
    requires Inv(s) && s.pathDone && Reaches(s, listening, labels, s')
    ensures |labels| + Work(s') <= Work(s) + CostOf(labels)
    ensures Settled(s', listening) ==> s'.ended
  {
    RunIsBounded(s, listening, labels, s');
    hide Inv, Enabled, Work, CostOf;
    if Settled(s', listening) && !s'.ended {
      ProgressIsEnabled(s', listening);
      ProgressIsNoDecision(s');
    }
  }

  // While the manager listens every handler gets to its end on every run, in the same sense.
  lemma HandlersEnd(s: State, labels: seq<Label>, s': State)
    requires Inv(s) && Reaches(s, true, labels, s')
    ensures |labels| + Work(s') <= Work(s) + CostOf(labels)
    ensures Settled(s', true) ==> Selecting(s') || s'.ended
  {
    RunIsBounded(s, true, labels, s');
    if !Busy(s') {
      NotBusy(s');
    }
    hide Inv, Enabled, Work, CostOf, Selecting;
    if Settled(s', true) && Busy(s') {
      ProgressIsEnabled(s', true);
      ProgressIsNoDecision(s');
    }
  }

  lemma NotBusy(s: State)
    requires Inv(s) && !Busy(s)
    ensures Selecting(s) || s.ended
  {
  }

  // --- The manager and all its paths -----------------------------------------------------------

  datatype System = System(waitsFor: int, paths: seq<State>)

  function StartSystem(n: nat): System {
    System(-1, seq(n, _ => Start))
  }

  predicate Listening(y: System) {
    y.waitsFor < 0
  }

  datatype Move =
    | PathMoves(i: nat, l: Label)
    | CloseAndWait(i: nat)
    | Resume

  predicate CanMove(y: System, v: Move) {
    match v
    case PathMoves(i, l) => i < |y.paths| && Enabled(y.paths[i], Listening(y), l)
    case CloseAndWait(i) => i < |y.paths| && Listening(y)
    case Resume => 0 <= y.waitsFor < |y.paths| && y.paths[y.waitsFor].ended
  }

  function Moved(y: System, v: Move): System
    requires CanMove(y, v)
  {
    match v
    case PathMoves(i, l) => y.(paths := y.paths[i := Next(y.paths[i], Listening(y), l)])
    // close() and wait() of a path that a reload removes
    case CloseAndWait(i) => System(i, y.paths[i := y.paths[i].(pathDone := true)])
    case Resume => y.(waitsFor := -1)
  }

  ghost predicate SystemInv(y: System) {
    && (forall i :: 0 <= i < |y.paths| ==> Inv(y.paths[i]))
    && (!Listening(y) ==> y.waitsFor < |y.paths| && y.paths[y.waitsFor].pathDone)
  }

  lemma MoveKeepsInv(y: System, v: Move)
    requires SystemInv(y) && CanMove(y, v)
    ensures SystemInv(Moved(y, v))
  {
    hide Enabled, Next;
    match v
    case PathMoves(i, l) =>
      StepKeepsInv(y.paths[i], Listening(y), l);
      if y.paths[i].pathDone {
        DoneStaysDone(y.paths[i], Listening(y), l);
      }
    case CloseAndWait(i) =>
    case Resume =>
  }

  ghost predicate SystemReaches(y: System, moves: seq<Move>, y': System)
    decreases |moves|
  {
    if moves == [] then y == y'
    else CanMove(y, moves[0]) && SystemReaches(Moved(y, moves[0]), moves[1..], y')
  }

  lemma {:induction false} RunKeepsInv(y: System, moves: seq<Move>, y': System)
    requires SystemInv(y) && SystemReaches(y, moves, y')
    ensures SystemInv(y')
    decreases |moves|
  {
    hide SystemInv, CanMove, Moved;
    if moves != [] {
      MoveKeepsInv(y, moves[0]);
      RunKeepsInv(Moved(y, moves[0]), moves[1..], y');
    }
  }

  // Every state that any number of new paths and their manager can reach.
  lemma ReachableKeepsInv(n: nat, moves: seq<Move>, y: System)
    requires SystemReaches(StartSystem(n), moves, y)
    ensures SystemInv(y)
  {
    assert SystemInv(StartSystem(n));
    RunKeepsInv(StartSystem(n), moves, y);
  }

  // The steps of one path among the moves.
  function StepsOf(moves: seq<Move>, i: nat): seq<Label> {
    if moves == [] then []
    else (if moves[0].PathMoves? && moves[0].i == i then [moves[0].l] else []) + StepsOf(moves[1..], i)
  }

  predicate OnlyPaths(moves: seq<Move>) {
    forall k :: 0 <= k < |moves| ==> moves[k].PathMoves?
  }

  // While the manager waits, each path goes its own way.
  lemma {:induction false} PathsAreApart(y: System, moves: seq<Move>, y': System, i: nat)
    requires SystemReaches(y, moves, y') && OnlyPaths(moves) && i < |y.paths|
    ensures y'.waitsFor == y.waitsFor && |y'.paths| == |y.paths|
    ensures Reaches(y.paths[i], Listening(y), StepsOf(moves, i), y'.paths[i])
    decreases |moves|
  {
    hide Enabled, Next;
    if moves != [] {
      var y1 := Moved(y, moves[0]);
      PathsAreApart(y1, moves[1..], y', i);
      var rest := StepsOf(moves[1..], i);
      if moves[0].i == i {
        assert ([moves[0].l] + rest)[1..] == rest;
        assert y1.paths[i] == Next(y.paths[i], Listening(y), moves[0].l);
      } else {
        assert y1.paths[i] == y.paths[i] && StepsOf(moves, i) == rest;
      }
    }
  }

  // The wait of a reload ends on every run, whatever all the other paths do meanwhile: the path waited for has
  // no more steps than its decisions allow, and once it cannot go on without one, the manager can.
  lemma WaitingEnds(y: System, moves: seq<Move>, y': System)
    requires SystemInv(y) && !Listening(y) && SystemReaches(y, moves, y') && OnlyPaths(moves)
    ensures SystemInv(y') && y'.waitsFor == y.waitsFor < |y.paths| == |y'.paths|
    ensures var i := y.waitsFor;
      && |StepsOf(moves, i)| + Work(y'.paths[i]) <= Work(y.paths[i]) + CostOf(StepsOf(moves, i))
      && (Settled(y'.paths[i], false) ==> CanMove(y', Resume))
  {
    hide Work, CostOf, Settled, Inv, Reaches, SystemReaches;
    var i := y.waitsFor;
    PathsAreApart(y, moves, y', i);
    RunKeepsInv(y, moves, y');
    ToldToCloseEnds(y.paths[i], false, StepsOf(moves, i), y'.paths[i]);
  }
}
