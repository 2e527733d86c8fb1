/** When the Go relay can come to rest: how queues that are full can stay so for good, and that otherwise
    everything can be sent. */
module GoProgress {
  import opened Options
  import opened GoRelay

  // What stays stuck.

  /** A worker that is delivering its message still has agent `e` before it. */
  predicate HeadsFor(p: Phase, w: nat, e: nat) {
    (p.Turning? || p.HalfStamped? || p.Stamped?) && p.target <= e && w != e
  }

  /** The queue of an agent is full and its gate is closed, and its reader, which alone could open it, has
      ended or is on its way to the full queue of another such agent. */
  ghost predicate StuckAt(s: State, stuck: set<nat>, i: nat) {
    && i < |s.agents| && i < |s.workers|
    && |s.agents[i].queue| >= CAPACITY && s.agents[i].first.Some? && s.agents[i].streaming && !s.agents[i].ready
    && (s.workers[i].Ended? || exists e :: e in stuck && HeadsFor(s.workers[i], i, e))
  }

  ghost predicate Stuck(s: State, stuck: set<nat>) {
    forall i :: i in stuck ==> StuckAt(s, stuck, i)
  }

  lemma WorkerStaysStuck(s: State, step: Step, stuck: set<nat>, w: nat, e: nat)
    requires Stuck(s, stuck) && Enabled(s, step) && w < |s.agents| && e in stuck && HeadsFor(s.workers[w], w, e)
    ensures w < |Next(s, step).workers| && HeadsFor(Next(s, step).workers[w], w, e)
  {
    assert StuckAt(s, stuck, e);
  }

  lemma AgentStaysStuck(s: State, step: Step, stuck: set<nat>, i: nat)
    requires Stuck(s, stuck) && Enabled(s, step) && i in stuck
    ensures i < |Next(s, step).agents| && Next(s, step).agents[i].queue == s.agents[i].queue && Next(s, step).agents[i].sent == s.agents[i].sent
    ensures Next(s, step).agents[i].first.Some? && Next(s, step).agents[i].streaming && !Next(s, step).agents[i].ready
    ensures i < |Next(s, step).workers| && (s.workers[i].Ended? ==> Next(s, step).workers[i].Ended?)
  {
    assert StuckAt(s, stuck, i);
  }

  lemma StepKeepsStuck(s: State, step: Step, stuck: set<nat>)
    requires Stuck(s, stuck) && Enabled(s, step)
    ensures Stuck(Next(s, step), stuck)
  {
    var t := Next(s, step);
    forall i | i in stuck
      ensures StuckAt(t, stuck, i)
    {
      assert StuckAt(s, stuck, i);
      AgentStaysStuck(s, step, stuck, i);
      if !s.workers[i].Ended? {
        var e :| e in stuck && HeadsFor(s.workers[i], i, e);
        WorkerStaysStuck(s, step, stuck, i, e);
      }
    }
  }

  /** However the run goes on, nothing more is sent to an agent of a stuck group and nothing more fits into
      its queue: whatever is to be enqueued for it waits for ever. */
  lemma {:induction false} StuckForGood(s: State, steps: seq<Step>, stuck: set<nat>, i: nat)
    requires CanRun(s, steps) && Stuck(s, stuck) && i in stuck
    ensures Stuck(After(s, steps), stuck)
    ensures i < |s.agents| && i < |After(s, steps).agents|
    ensures After(s, steps).agents[i].queue == s.agents[i].queue && After(s, steps).agents[i].sent == s.agents[i].sent
    ensures forall w: nat :: PhaseOf(After(s, steps), w).Stamped? && PhaseOf(After(s, steps), w).target == i ==> !Enabled(After(s, steps), Enqueue(w))
  {
    assert StuckAt(s, stuck, i);
    if steps != [] {
      var before, last := steps[..|steps| - 1], steps[|steps| - 1];
      StuckForGood(s, before, stuck, i);
      AgentStaysStuck(After(s, before), last, stuck, i);
      StepKeepsStuck(After(s, before), last, stuck);
      assert After(s, steps) == Next(After(s, before), last);
    }
  }

  // It happens to an agent whose stream ends before it has announced its task.

  /** The agent's stream opens with what it was sent first, and ends. */
  lemma EndSteps(a: Agent, typed: seq<Message>, one: Request)
    requires a == Agent("a", "", "", [one], false, None, false, None, false, false, [one], [])
    ensures var b := a.(first := Some(one), queue := []);
      var c := b.(streaming := true, sent := [one]);
      && Enabled(One(a, Idle, Idle, [], typed), TakeFirst(0))
      && Next(One(a, Idle, Idle, [], typed), TakeFirst(0)) == One(b, Idle, Idle, [], typed)
      && Enabled(One(b, Idle, Idle, [], typed), OpenStream(0))
      && Next(One(b, Idle, Idle, [], typed), OpenStream(0)) == One(c, Idle, Idle, [], typed)
      && Enabled(One(c, Idle, Idle, [], typed), EndStream(0))
      && Next(One(c, Idle, Idle, [], typed), EndStream(0)) == One(c, Ended, Idle, [], typed)
  {
    assert [one][1..] == [] && [] + [one] == [one];
  }

  /** The user goes on typing: each line takes a place in the queue. */
  lemma {:induction false} Fill(s: State, steps: seq<Step>, a: Agent, typed: seq<Message>) returns (longer: seq<Step>, b: Agent, more: seq<Message>)
    requires a.taskId == "" && a.contextId == "" && !a.taskRecorded && !a.contextRecorded && |a.queue| <= CAPACITY
    requires CanRun(s, steps) && After(s, steps) == One(a, Ended, Idle, [], typed)
    ensures CanRun(s, longer) && After(s, longer) == One(b, Ended, Idle, [], more)
    ensures |b.queue| == CAPACITY && b.first == a.first && b.streaming == a.streaming && b.ready == a.ready
    decreases CAPACITY - |a.queue|
  {
    if |a.queue| == CAPACITY {
      longer, b, more := steps, a, typed;
    } else {
      longer := Cast(s, steps, a, Ended, [], typed, "y");
      longer, b, more := Fill(s, longer, Grown(a, Unaddressed("y")), typed + [NewMessage("y")]);
    }
  }

  /** One more line is stamped. */
  lemma StampSteps(a: Agent, typed: seq<Message>)
    ensures var msg, s := NewMessage("z"), One(a, Ended, Idle, [], typed);
      && Enabled(s, Broadcast("z")) && PhaseOf(Next(s, Broadcast("z")), 1) == Turning(msg, 0)
      && Next(s, Broadcast("z")) == One(a, Ended, Turning(msg, 0), [], typed + [msg])
      && var t := Next(s, Broadcast("z"));
         && Enabled(t, ReadTask(1)) && Next(t, ReadTask(1)) == One(a, Ended, HalfStamped(msg, 0, a.taskId, a.taskRecorded), [], typed + [msg])
         && var u := Next(t, ReadTask(1));
            && Enabled(u, ReadContext(1)) && Next(u, ReadContext(1)).agents == [a] && |Next(u, ReadContext(1)).workers| == 2 && Next(u, ReadContext(1)).workers[0] == Ended
            && PhaseOf(Next(u, ReadContext(1)), 1).Stamped? && PhaseOf(Next(u, ReadContext(1)), 1).target == 0
  {
  }

  ghost predicate Jammed(steps: seq<Step>) {
    && CanRun(Start(["a"]), steps) && Stuck(After(Start(["a"]), steps), {0})
    && PhaseOf(After(Start(["a"]), steps), 1).Stamped? && PhaseOf(After(Start(["a"]), steps), 1).target == 0
  }

  lemma Extended(s: State, steps: seq<Step>, step: Step) returns (longer: seq<Step>)
    requires CanRun(s, steps) && Enabled(After(s, steps), step)
    ensures CanRun(s, longer) && After(s, longer) == Next(After(s, steps), step)
  {
    RunSnoc(s, steps, step);
    longer := steps + [step];
  }

  /** The first line typed opens the stream, which ends without a task. */
  lemma OpenAndEnd() returns (steps: seq<Step>, c: Agent)
    ensures CanRun(Start(["a"]), steps) && After(Start(["a"]), steps) == One(c, Ended, Idle, [], [NewMessage("x")])
    ensures c == Agent("a", "", "", [], false, Some(Unaddressed("x")), true, None, false, false, [Unaddressed("x")], [Unaddressed("x")])
  {
    var s, typed := Start(["a"]), [NewMessage("x")];
    var a, one := Agent("a", "", "", [], false, None, false, None, false, false, [], []), Unaddressed("x");
    assert s == One(a, Idle, Idle, [], []);
    assert [] + [NewMessage("x")] == typed;
    steps := Cast(s, [], a, Idle, [], [], "x");
    var b := Grown(a, one);
    assert b == Agent("a", "", "", [one], false, None, false, None, false, false, [one], []);
    EndSteps(b, typed, one);
    steps := Extended(s, steps, TakeFirst(0));
    steps := Extended(s, steps, OpenStream(0));
    steps := Extended(s, steps, EndStream(0));
    c := b.(first := Some(one), queue := [], streaming := true, sent := [one]);
  }

  lemma LastLine(s: State, steps: seq<Step>, a: Agent, typed: seq<Message>) returns (longer: seq<Step>)
    requires CanRun(s, steps) && After(s, steps) == One(a, Ended, Idle, [], typed)
    ensures CanRun(s, longer) && After(s, longer).agents == [a] && |After(s, longer).workers| == 2 && After(s, longer).workers[0] == Ended
    ensures PhaseOf(After(s, longer), 1).Stamped? && PhaseOf(After(s, longer), 1).target == 0
  {
    StampSteps(a, typed);
    longer := Extended(s, steps, Broadcast("z"));
    longer := Extended(s, longer, ReadTask(1));
    longer := Extended(s, longer, ReadContext(1));
  }

  lemma FullAndEnded(s: State, a: Agent)
    requires s.agents == [a] && |s.workers| == 2 && s.workers[0] == Ended
    requires |a.queue| == CAPACITY && a.first.Some? && a.streaming && !a.ready
    ensures Stuck(s, {0})
  {
  }

  /** So it can happen: a hundred more lines fill the queue, and the worker that has the next one waits for
      ever. */
  lemma JamHappens()
    ensures exists steps :: Jammed(steps)
  {
    var steps, c := OpenAndEnd();
    var typed;
    steps, c, typed := Fill(Start(["a"]), steps, c, [NewMessage("x")]);
    steps := LastLine(Start(["a"]), steps, c, typed);
    FullAndEnded(After(Start(["a"]), steps), c);
    assert Jammed(steps);
  }

  // An agent whose reader has ended behind a closed gate.

  /** The stream of an agent has ended, and its gate is still closed. */
  predicate EndedAt(s: State, i: nat) {
    i < |s.agents| && i < |s.workers| && s.agents[i].streaming && s.agents[i].first.Some? && !s.agents[i].ready && s.workers[i].Ended?
  }

  lemma StepKeepsEnded(s: State, step: Step, i: nat)
    requires EndedAt(s, i) && Enabled(s, step)
    ensures EndedAt(Next(s, step), i)
    ensures Next(s, step).agents[i].sent == s.agents[i].sent && s.agents[i].queue <= Next(s, step).agents[i].queue
  {
  }

  /** Nothing more is ever sent to it, whether or not its queue is full, and no place in its queue gets free. */
  lemma {:induction false} EndedForGood(s: State, steps: seq<Step>, longer: seq<Step>, i: nat)
    requires CanRun(s, steps) && CanRun(s, longer) && steps <= longer && EndedAt(After(s, steps), i)
    ensures EndedAt(After(s, longer), i)
    ensures After(s, longer).agents[i].sent == After(s, steps).agents[i].sent
    ensures After(s, steps).agents[i].queue <= After(s, longer).agents[i].queue
  {
    if |steps| < |longer| {
      var before, last := longer[..|longer| - 1], longer[|longer| - 1];
      EndedForGood(s, steps, before, i);
      StepKeepsEnded(After(s, before), last, i);
      assert After(s, longer) == Next(After(s, before), last);
    } else {
      assert steps == longer;
    }
  }

  // What a reader with a closed gate can be doing.

  predicate Delivering(p: Phase) {
    p.Turning? || p.HalfStamped? || p.Stamped?
  }

  /** A task that was announced behind a closed gate is being recorded, and a reader without a stream waits
      for one. */
  predicate ReaderOk(a: Agent, p: Phase) {
    (a.given.Some? && !a.ready ==> Recording(p)) && (!a.streaming ==> p.Idle?)
  }

  ghost predicate ReadersOk(s: State) {
    Shape(s) && forall i :: 0 <= i < |s.agents| ==> ReaderOk(s.agents[i], s.workers[i])
  }

  lemma ReaderStepKeeps(s: State, step: Step, i: nat)
    requires Shape(s) && i < |s.agents| && ReaderOk(s.agents[i], s.workers[i]) && Enabled(s, step)
    requires step.Hear? || step.Record? || step.EndStream?
    ensures Shape(Next(s, step)) && i < |Next(s, step).agents| && ReaderOk(Next(s, step).agents[i], Next(s, step).workers[i])
  {
  }

  lemma StepKeepsReader(s: State, step: Step, i: nat)
    requires Shape(s) && i < |s.agents| && ReaderOk(s.agents[i], s.workers[i]) && Enabled(s, step)
    ensures Shape(Next(s, step)) && i < |Next(s, step).agents| && ReaderOk(Next(s, step).agents[i], Next(s, step).workers[i])
  {
    if step.Hear? || step.Record? || step.EndStream? {
      ReaderStepKeeps(s, step, i);
    }
  }

  lemma StepKeepsReaders(s: State, step: Step)
    requires ReadersOk(s) && Enabled(s, step)
    ensures ReadersOk(Next(s, step))
  {
    var t := Next(s, step);
    StepKeepsCount(s, step);
    forall i | 0 <= i < |t.agents|
      ensures ReaderOk(t.agents[i], t.workers[i])
    {
      StepKeepsReader(s, step, i);
    }
  }

  /** The two invariants along every run. */
  lemma {:induction false} RunKeepsReaders(names: seq<string>, steps: seq<Step>)
    requires CanRun(Start(names), steps)
    ensures Inv(After(Start(names), steps)) && ReadersOk(After(Start(names), steps))
  {
    StartInv(names);
    RunKeepsInv(Start(names), steps);
    if steps != [] {
      var before, last := steps[..|steps| - 1], steps[|steps| - 1];
      RunKeepsReaders(names, before);
      StepKeepsReaders(After(Start(names), before), last);
      assert After(Start(names), steps) == Next(After(Start(names), before), last);
    }
  }

  /** The gate of an agent is open, or its reader is about to open it, or has not announced the task yet
      and is free to. */
  predicate OpenAt(s: State, i: nat) {
    && i < |s.agents| && i < |s.workers|
    && (s.agents[i].ready || Recording(s.workers[i]) || (s.workers[i].Idle? && s.agents[i].given == None))
  }

  /** The gate is closed, and its reader is in the middle of a delivery. */
  predicate MidDelivery(s: State, i: nat) {
    i < |s.agents| && i < |s.workers| && !s.agents[i].ready && Delivering(s.workers[i])
  }

  lemma OpenOrNot(s: State, i: nat)
    requires Inv(s) && ReadersOk(s) && i < |s.agents|
    ensures OpenAt(s, i) || MidDelivery(s, i) || EndedAt(s, i)
    ensures EndedAt(s, i) ==> !OpenAt(s, i) && !MidDelivery(s, i)
  {
    assert AgentOk(s.agents[i], i) && ReaderOk(s.agents[i], s.workers[i]);
  }

  lemma OpenOrNotAfter(names: seq<string>, steps: seq<Step>, i: nat)
    requires CanRun(Start(names), steps) && i < |After(Start(names), steps).agents|
    ensures OpenAt(After(Start(names), steps), i) || MidDelivery(After(Start(names), steps), i) || EndedAt(After(Start(names), steps), i)
    ensures EndedAt(After(Start(names), steps), i) ==> !OpenAt(After(Start(names), steps), i)
  {
    RunKeepsReaders(names, steps);
    OpenOrNot(After(Start(names), steps), i);
  }

  // How much there is left to do.

  predicate AtRest(p: Phase) {
    p.Idle? || p.Ended?
  }

  predicate Empties(a: Agent) {
    a.queue == [] && (a.first.Some? ==> a.streaming)
  }

  function SumOf<T>(f: T -> nat, xs: seq<T>): nat {
    if xs == [] then 0 else SumOf(f, xs[..|xs| - 1]) + f(xs[|xs| - 1])
  }

  lemma {:induction false} SumUpdated<T>(f: T -> nat, xs: seq<T>, i: nat, x: T)
    requires i < |xs|
    ensures SumOf(f, xs[i := x]) + f(xs[i]) == SumOf(f, xs) + f(x)
  {
    var init := xs[..|xs| - 1];
    if i == |init| {
      assert xs[i := x][..|init|] == init;
    } else {
      SumUpdated(f, init, i, x);
      assert xs[i := x][..|init|] == init[i := x];
    }
  }

  /** What is left to do for one agent: to announce its task, and to send what is queued. */
  function AgentLeft(n: nat): Agent -> nat {
    (a: Agent) => (if a.given == None then 10 * n + 7 else 0) + 2 * |a.queue| + (if a.first.Some? && !a.streaming then 1 else 0)
  }

  /** What a worker has left to do of its message. */
  function WorkerLeft(n: nat): Phase -> nat {
    (p: Phase) =>
      match p
      case Idle => 0
      case Ended => 0
      case RecordTask(_) => 10 * n + 6
      case RecordContext(_) => 10 * n + 5
      case OpenGate(_) => 10 * n + 4
      case Turning(_, target) => if target <= n then 10 * (n - target) + 3 else 0
      case HalfStamped(_, target, _, _) => if target <= n then 10 * (n - target) + 2 else 0
      case Stamped(_, target, _) => if target <= n then 10 * (n - target) + 1 else 0
  }

  function Left(s: State): nat {
    SumOf(AgentLeft(|s.agents|), s.agents) + SumOf(WorkerLeft(|s.agents|), s.workers)
  }

  lemma LeftUpdated(s: State, t: State, i: nat, a: Agent, w: nat, p: Phase)
    requires i < |s.agents| && w < |s.workers| && t.agents == s.agents[i := a] && t.workers == s.workers[w := p]
    requires AgentLeft(|s.agents|)(a) + WorkerLeft(|s.agents|)(p) < AgentLeft(|s.agents|)(s.agents[i]) + WorkerLeft(|s.agents|)(s.workers[w])
    ensures Left(t) < Left(s)
  {
    SumUpdated(AgentLeft(|s.agents|), s.agents, i, a);
    SumUpdated(WorkerLeft(|s.agents|), s.workers, w, p);
  }

  /** A step that only an agent's sender takes. */
  predicate Sends(step: Step) {
    step.TakeFirst? || step.OpenStream? || step.SendRest?
  }

  lemma SendingLeavesLess(s: State, step: Step)
    requires Inv(s) && Enabled(s, step) && Sends(step)
    ensures Left(Next(s, step)) < Left(s)
  {
    assert s.workers == s.workers[0 := s.workers[0]];
    LeftUpdated(s, Next(s, step), step.i, Next(s, step).agents[step.i], 0, s.workers[0]);
  }

  lemma ReadingLeavesLess(s: State, i: nat, step: Step)
    requires Inv(s) && Enabled(s, step) && step == Record(i)
    ensures Left(Next(s, step)) < Left(s)
  {
    assert WorkerOk(s, i) && AgentOk(s.agents[i], i);
    var t := Next(s, step);
    LeftUpdated(s, t, i, t.agents[i], i, t.workers[i]);
  }

  lemma AnnouncingLeavesLess(s: State, i: nat, task: Event)
    requires Inv(s) && Enabled(s, Hear(i, task)) && task.TaskEvent?
    ensures Left(Next(s, Hear(i, task))) < Left(s)
  {
    var t := Next(s, Hear(i, task));
    LeftUpdated(s, t, i, t.agents[i], i, t.workers[i]);
  }

  lemma DeliveringLeavesLess(s: State, w: nat, step: Step)
    requires Inv(s) && Enabled(s, step) && step in {Skip(w), ReadTask(w), ReadContext(w), Finish(w)}
    ensures Left(Next(s, step)) < Left(s)
  {
    assert WorkerOk(s, w);
    var t := Next(s, step);
    if s.agents == [] {
      SumUpdated(WorkerLeft(|s.agents|), s.workers, w, t.workers[w]);
    } else {
      assert s.agents == s.agents[0 := s.agents[0]];
      LeftUpdated(s, t, 0, s.agents[0], w, t.workers[w]);
    }
  }

  lemma EnqueuingLeavesLess(s: State, w: nat)
    requires Inv(s) && Enabled(s, Enqueue(w))
    ensures Left(Next(s, Enqueue(w))) < Left(s)
  {
    assert WorkerOk(s, w);
    var t, i := Next(s, Enqueue(w)), s.workers[w].target;
    LeftUpdated(s, t, i, t.agents[i], w, t.workers[w]);
  }

  /** A step that neither begins a message nor ends a stream. */
  predicate Tidies(step: Step) {
    !step.Broadcast? && !step.EndStream? && (step.Hear? ==> step.event.TaskEvent?)
  }

  lemma StaysOpen(s: State, step: Step, i: nat)
    requires Shape(s) && OpenAt(s, i) && Enabled(s, step) && Tidies(step)
    ensures OpenAt(Next(s, step), i)
  {
  }

  /** A step to go on with. */
  ghost predicate Advances(s: State, step: Step) {
    Enabled(s, step) && Tidies(step) && Left(Next(s, step)) < Left(s)
  }

  // What can be sent to one agent, by its own steps.

  /** A step of the agent's sender, or by which its reader announces its task. */
  predicate OwnStep(step: Step, i: nat) {
    || step == TakeFirst(i) || step == OpenStream(i) || step == SendRest(i) || step == Record(i)
    || (step.Hear? && step.i == i && step.event.TaskEvent?)
  }

  /** Everybody else stays as they are, and nothing is enqueued. */
  predicate OnlyMoves(s: State, t: State, i: nat) {
    && |t.agents| == |s.agents| && |t.workers| == |s.workers|
    && (forall j :: 0 <= j < |s.agents| && j != i ==> t.agents[j] == s.agents[j])
    && (forall w :: 0 <= w < |s.workers| && w != i ==> t.workers[w] == s.workers[w])
    && (i < |s.agents| ==> t.agents[i].enqueued == s.agents[i].enqueued)
  }

  lemma OwnStepMoves(s: State, step: Step, i: nat)
    requires Shape(s) && OpenAt(s, i) && Enabled(s, step) && OwnStep(step, i)
    ensures OnlyMoves(s, Next(s, step), i) && OpenAt(Next(s, step), i)
  {
  }

  /** The next step of an agent that has something queued. */
  lemma SomethingQueued(s: State, i: nat) returns (step: Step)
    requires Inv(s) && OpenAt(s, i) && !Empties(s.agents[i])
    ensures Advances(s, step) && OwnStep(step, i)
  {
    var a := s.agents[i];
    assert AgentOk(a, i);
    if a.first == None {
      step := TakeFirst(i);
      SendingLeavesLess(s, step);
    } else if !a.streaming {
      step := OpenStream(i);
      SendingLeavesLess(s, step);
    } else if a.ready {
      step := SendRest(i);
      SendingLeavesLess(s, step);
    } else if s.workers[i].Idle? {
      step := Hear(i, TaskEvent("t", ""));
      AnnouncingLeavesLess(s, i, TaskEvent("t", ""));
    } else {
      step := Record(i);
      ReadingLeavesLess(s, i, step);
    }
  }

  lemma {:induction false} Drains(s: State, steps: seq<Step>, i: nat) returns (longer: seq<Step>)
    requires Inv(s) && CanRun(s, steps) && OpenAt(After(s, steps), i)
    ensures steps <= longer && CanRun(s, longer)
    ensures OnlyMoves(After(s, steps), After(s, longer), i) && OpenAt(After(s, longer), i)
    ensures Empties(After(s, longer).agents[i])
    decreases Left(After(s, steps))
  {
    if Empties(After(s, steps).agents[i]) {
      longer := steps;
    } else {
      RunKeepsInv(s, steps);
      var step := SomethingQueued(After(s, steps), i);
      OwnStepMoves(After(s, steps), step, i);
      RunSnoc(s, steps, step);
      longer := Drains(s, steps + [step], i);
    }
  }

  /** From a state of any run everything that was enqueued for an open agent can be sent to it, whatever the
      other agents are doing, and without any step of theirs. */
  lemma OpenAgentDrains(names: seq<string>, steps: seq<Step>, i: nat) returns (longer: seq<Step>)
    requires CanRun(Start(names), steps) && OpenAt(After(Start(names), steps), i)
    ensures steps <= longer && CanRun(Start(names), longer)
    ensures var s, t := After(Start(names), steps), After(Start(names), longer);
      && OnlyMoves(s, t, i)
      && t.agents[i].queue == [] && t.agents[i].sent == s.agents[i].enqueued
  {
    StartInv(names);
    longer := Drains(Start(names), steps, i);
    RunKeepsInv(Start(names), longer);
    assert AgentOk(After(Start(names), longer).agents[i], i);
  }

  /** In a continuation of the run more is sent to the agent. */
  ghost predicate SendsMore(s: State, steps: seq<Step>, longer: seq<Step>, i: nat) {
    && steps <= longer && CanRun(s, steps) && CanRun(s, longer)
    && i < |After(s, steps).agents| && i < |After(s, longer).agents|
    && |After(s, steps).agents[i].sent| < |After(s, longer).agents[i].sent|
  }

  /** If something is held back from an agent, more can be sent to it exactly if its gate is open or can still
      be opened by its reader, unless that is in the middle of a delivery. */
  lemma MoreIsSentIff(names: seq<string>, steps: seq<Step>, i: nat)
    requires CanRun(Start(names), steps) && i < |After(Start(names), steps).agents|
    requires !Empties(After(Start(names), steps).agents[i]) && !MidDelivery(After(Start(names), steps), i)
    ensures (exists longer :: SendsMore(Start(names), steps, longer, i)) <==> OpenAt(After(Start(names), steps), i)
  {
    OpenOrNotAfter(names, steps, i);
    if OpenAt(After(Start(names), steps), i) {
      var longer := OpenAgentDrains(names, steps, i);
      StartInv(names);
      RunKeepsInv(Start(names), steps);
      assert AgentOk(After(Start(names), steps).agents[i], i);
      assert SendsMore(Start(names), steps, longer, i);
    } else if exists longer :: SendsMore(Start(names), steps, longer, i) {
      var longer :| SendsMore(Start(names), steps, longer, i);
      EndedForGood(Start(names), steps, longer, i);
      assert false;
    }
  }

  /** In a continuation of the run the worker, which has not moved, finds room for its request. */
  ghost predicate FindsRoom(s: State, steps: seq<Step>, longer: seq<Step>, w: nat) {
    && steps <= longer && CanRun(s, steps) && CanRun(s, longer)
    && PhaseOf(After(s, longer), w) == PhaseOf(After(s, steps), w) && Enabled(After(s, longer), Enqueue(w))
  }

  lemma RoomForWorker(s: State, t: State, w: nat, i: nat)
    requires Inv(s) && Shape(t) && PhaseOf(s, w).Stamped? && PhaseOf(s, w).target == i
    requires OnlyMoves(s, t, i) && i < |t.agents| && t.agents[i].queue == []
    ensures PhaseOf(t, w) == PhaseOf(s, w) && Enabled(t, Enqueue(w))
  {
    assert WorkerOk(s, w);
  }

  lemma OpenMakesRoom(names: seq<string>, steps: seq<Step>, w: nat, i: nat) returns (longer: seq<Step>)
    requires CanRun(Start(names), steps) && OpenAt(After(Start(names), steps), i)
    requires PhaseOf(After(Start(names), steps), w).Stamped? && PhaseOf(After(Start(names), steps), w).target == i
    ensures FindsRoom(Start(names), steps, longer, w)
  {
    longer := OpenAgentDrains(names, steps, i);
    RunKeepsReaders(names, steps);
    RunKeepsReaders(names, longer);
    RoomForWorker(After(Start(names), steps), After(Start(names), longer), w, i);
  }

  lemma RoomIsThere(names: seq<string>, steps: seq<Step>, w: nat, i: nat)
    requires CanRun(Start(names), steps) && i < |After(Start(names), steps).agents|
    requires PhaseOf(After(Start(names), steps), w).Stamped? && PhaseOf(After(Start(names), steps), w).target == i
    requires |After(Start(names), steps).agents[i].queue| < CAPACITY
    ensures FindsRoom(Start(names), steps, steps, w)
  {
    RunKeepsReaders(names, steps);
  }

  lemma EndedMakesNoRoom(s: State, steps: seq<Step>, longer: seq<Step>, w: nat)
    requires CanRun(s, steps) && PhaseOf(After(s, steps), w).Stamped?
    requires EndedAt(After(s, steps), PhaseOf(After(s, steps), w).target)
    requires |After(s, steps).agents[PhaseOf(After(s, steps), w).target].queue| >= CAPACITY
    ensures !FindsRoom(s, steps, longer, w)
  {
    if FindsRoom(s, steps, longer, w) {
      EndedForGood(s, steps, longer, PhaseOf(After(s, steps), w).target);
      assert false;
    }
  }

  /** A worker with a request for an agent can go on exactly if there is room in the agent's queue, or its
      gate is open or can still be opened; without room, unless its reader is in the middle of a delivery. */
  lemma WorkerGoesOnIff(names: seq<string>, steps: seq<Step>, w: nat, i: nat)
    requires CanRun(Start(names), steps) && i < |After(Start(names), steps).agents|
    requires PhaseOf(After(Start(names), steps), w).Stamped? && PhaseOf(After(Start(names), steps), w).target == i
    requires |After(Start(names), steps).agents[i].queue| < CAPACITY || !MidDelivery(After(Start(names), steps), i)
    ensures (exists longer :: FindsRoom(Start(names), steps, longer, w))
            <==> |After(Start(names), steps).agents[i].queue| < CAPACITY || OpenAt(After(Start(names), steps), i)
  {
    var s := After(Start(names), steps);
    if |s.agents[i].queue| < CAPACITY {
      RoomIsThere(names, steps, w, i);
    } else if OpenAt(s, i) {
      var longer := OpenMakesRoom(names, steps, w, i);
    } else {
      OpenOrNotAfter(names, steps, i);
      forall longer
        ensures !FindsRoom(Start(names), steps, longer, w)
      {
        EndedMakesNoRoom(Start(names), steps, longer, w);
      }
    }
  }

  // How far the whole relay can go on.

  /** A worker has a request for an agent whose queue is full. */
  predicate Waits(s: State, w: nat) {
    && w < |s.workers| && s.workers[w].Stamped? && s.workers[w].target < |s.agents|
    && |s.agents[s.workers[w].target].queue| >= CAPACITY
  }

  /** The agents that workers wait for. */
  ghost function WaitedFor(s: State): set<nat> {
    set w | 0 <= w < |s.workers| && Waits(s, w) :: s.workers[w].target
  }

  /** Whatever was enqueued for an open agent is on its way, and every worker is at rest or waits. */
  ghost predicate ComeToRest(s: State) {
    && (forall i :: 0 <= i < |s.agents| && OpenAt(s, i) ==> Empties(s.agents[i]))
    && (forall w :: 0 <= w < |s.workers| ==> AtRest(s.workers[w]) || Waits(s, w))
  }

  /** The next step of a worker that neither rests nor waits. */
  lemma SomethingBegun(s: State, w: nat) returns (step: Step)
    requires Inv(s) && w < |s.workers| && !AtRest(s.workers[w]) && !Waits(s, w)
    ensures Advances(s, step)
  {
    assert WorkerOk(s, w);
    match s.workers[w]
    case RecordTask(_) =>
      step := Record(w);
      ReadingLeavesLess(s, w, step);
    case RecordContext(_) =>
      step := Record(w);
      ReadingLeavesLess(s, w, step);
    case OpenGate(_) =>
      step := Record(w);
      ReadingLeavesLess(s, w, step);
    case Turning(_, target) =>
      step := if target == |s.agents| then Finish(w) else if target == w then Skip(w) else ReadTask(w);
      DeliveringLeavesLess(s, w, step);
    case HalfStamped(_, _, _, _) =>
      step := ReadContext(w);
      DeliveringLeavesLess(s, w, step);
    case Stamped(_, target, _) =>
      step := Enqueue(w);
      EnqueuingLeavesLess(s, w);
  }

  lemma NotAtRest(s: State) returns (step: Step)
    requires Inv(s) && !ComeToRest(s)
    ensures Advances(s, step)
  {
    if i :| 0 <= i < |s.agents| && OpenAt(s, i) && !Empties(s.agents[i]) {
      step := SomethingQueued(s, i);
    } else {
      var w :| 0 <= w < |s.workers| && !AtRest(s.workers[w]) && !Waits(s, w);
      step := SomethingBegun(s, w);
    }
  }

  /** Whatever was open still is. */
  ghost predicate StayOpen(s: State, t: State) {
    forall i :: OpenAt(s, i) ==> OpenAt(t, i)
  }

  lemma AdvanceStaysOpen(s: State, step: Step)
    requires Shape(s) && Advances(s, step)
    ensures StayOpen(s, Next(s, step))
  {
    forall i | OpenAt(s, i)
      ensures OpenAt(Next(s, step), i)
    {
      StaysOpen(s, step, i);
    }
  }

  lemma StayOpenOn(s: State, t: State, u: State)
    requires StayOpen(s, t) && StayOpen(t, u)
    ensures StayOpen(s, u)
  {
  }

  lemma {:induction false} ComesToRest(s: State, steps: seq<Step>) returns (longer: seq<Step>)
    requires Inv(s) && CanRun(s, steps)
    ensures steps <= longer && CanRun(s, longer) && ComeToRest(After(s, longer))
    ensures StayOpen(After(s, steps), After(s, longer))
    decreases Left(After(s, steps))
  {
    if ComeToRest(After(s, steps)) {
      longer := steps;
    } else {
      RunKeepsInv(s, steps);
      var step := NotAtRest(After(s, steps));
      RunSnoc(s, steps, step);
      AdvanceStaysOpen(After(s, steps), step);
      longer := ComesToRest(s, steps + [step]);
      StayOpenOn(After(s, steps), After(s, steps + [step]), After(s, longer));
    }
  }

  lemma ComesToRestFrom(names: seq<string>, steps: seq<Step>) returns (longer: seq<Step>)
    requires CanRun(Start(names), steps)
    ensures steps <= longer && CanRun(Start(names), longer) && ComeToRest(After(Start(names), longer))
    ensures StayOpen(After(Start(names), steps), After(Start(names), longer))
  {
    StartInv(names);
    longer := ComesToRest(Start(names), steps);
  }

  /** When everything else has come to rest, those that are waited for are a stuck group. */
  lemma WaitedForIsStuck(s: State)
    requires Inv(s) && ReadersOk(s) && ComeToRest(s)
    ensures Stuck(s, WaitedFor(s))
  {
    forall i | i in WaitedFor(s)
      ensures StuckAt(s, WaitedFor(s), i)
    {
      assert AgentOk(s.agents[i], i);
      OpenOrNot(s, i);
      if MidDelivery(s, i) {
        assert WorkerOk(s, i) && Waits(s, i);
        assert HeadsFor(s.workers[i], i, s.workers[i].target);
      }
    }
  }

  /** From a state of any run the relay can go on until everything that was enqueued for an agent whose gate is
      open, or can still be opened by its reader, has been sent, and every worker is at rest or waits for an
      agent of a group that is stuck for good, and was not open before. */
  lemma OpenRelayDrains(names: seq<string>, steps: seq<Step>) returns (longer: seq<Step>)
    requires CanRun(Start(names), steps)
    ensures steps <= longer && CanRun(Start(names), longer)
    ensures var s, t := After(Start(names), steps), After(Start(names), longer);
      && Stuck(t, WaitedFor(t))
      && (forall w :: 0 <= w < |t.workers| ==>
            AtRest(t.workers[w]) || (t.workers[w].Stamped? && t.workers[w].target in WaitedFor(t) && !OpenAt(s, t.workers[w].target)))
      && (forall i :: OpenAt(s, i) ==> OpenAt(t, i))
      && forall i :: 0 <= i < |t.agents| && OpenAt(t, i) ==> t.agents[i].queue == [] && t.agents[i].sent == t.agents[i].enqueued
  {
    longer := ComesToRestFrom(names, steps);
    RunKeepsReaders(names, longer);
    var t := After(Start(names), longer);
    WaitedForIsStuck(t);
    forall i | 0 <= i < |t.agents| && OpenAt(t, i)
      ensures t.agents[i].queue == [] && t.agents[i].sent == t.agents[i].enqueued
    {
      assert AgentOk(t.agents[i], i) && Empties(t.agents[i]);
    }
    forall w | 0 <= w < |t.workers| && !AtRest(t.workers[w])
      ensures t.workers[w].Stamped? && t.workers[w].target in WaitedFor(t) && !OpenAt(t, t.workers[w].target)
    {
      assert Waits(t, w);
    }
  }
}
