/** The Go relay: bounded queues, a first request that opens an agent's stream, a gate that holds the
    rest back until the agent's task is known, and ids stamped per target. Workers 0 to n-1 are the
    readers; worker n broadcasts what the user types. Every field read or write is one step, so a
    stamp can be out of date when its request is enqueued. */
module GoRelay {
  import opened Options
  import opened Sequences

  const CAPACITY := 100

  datatype Event = TaskEvent(id: string, contextId: string) | StatusEvent(payload: string) | ArtifactEvent(payload: string) | OtherEvent

  datatype Part = Words(text: string) | EventPart(event: Event, mediaType: string)

  /** A message of the user's role; `sender` is its message-sender, if it has one. */
  datatype Message = Message(taskId: string, contextId: string, sender: Option<string>, parts: seq<Part>)

  function NewMessage(text: string): Message {
    Message("", "", None, [Words(text)])
  }

  function EventMessage(event: Event, mediaType: string, sender: string): Message {
    Message("", "", Some(sender), [EventPart(event, mediaType)])
  }

  function TranslateEvent(event: Event, sender: string): Option<Message> {
    match event
    case TaskEvent(_, _) => Some(EventMessage(event, "application/vnd.a2a.task+json", sender))
    case StatusEvent(_) => Some(EventMessage(event, "application/vnd.a2a.task-status-update+json", sender))
    case ArtifactEvent(_) => Some(EventMessage(event, "application/vnd.a2a.task-artifact-update+json", sender))
    case OtherEvent => None
  }

  /** A copy for one target, with that target's ids. */
  function Clone(msg: Message, taskId: string, contextId: string): Message {
    msg.(taskId := taskId, contextId := contextId)
  }

  function Unstamped(msg: Message): Message {
    Clone(msg, "", "")
  }

  /** A request in an agent's queue. `origin` is the worker it comes from; the two flags record whether
      the target's ids were on record when the request was stamped. */
  datatype Request = Request(origin: nat, message: Message, taskKnown: bool, contextKnown: bool)

  /** `given` is the task the agent announced; `enqueued` and `sent` record history. */
  datatype Agent = Agent(
    name: string,
    taskId: string,
    contextId: string,
    queue: seq<Request>,
    ready: bool,
    first: Option<Request>,
    streaming: bool,
    given: Option<Event>,
    taskRecorded: bool,
    contextRecorded: bool,
    enqueued: seq<Request>,
    sent: seq<Request>)

  datatype Phase =
    | Idle
    | RecordTask(task: Event)
    | RecordContext(task: Event)
    | OpenGate(task: Event)
    | Turning(message: Message, target: nat)
    | HalfStamped(message: Message, target: nat, taskId: string, taskKnown: bool)
    | Stamped(message: Message, target: nat, request: Request)
    | Ended

  /** `begun` records the messages each worker has started to deliver. */
  datatype State = State(agents: seq<Agent>, workers: seq<Phase>, begun: seq<seq<Message>>)

  datatype Step =
    | Broadcast(text: string)
    | Hear(i: nat, event: Event)
    | Record(i: nat)
    | Skip(w: nat)
    | ReadTask(w: nat)
    | ReadContext(w: nat)
    | Enqueue(w: nat)
    | Finish(w: nat)
    | EndStream(i: nat)
    | TakeFirst(i: nat)
    | OpenStream(i: nat)
    | SendRest(i: nat)

  function Start(names: seq<string>): State {
    State(seq(|names|, i requires 0 <= i < |names| => Agent(names[i], "", "", [], false, None, false, None, false, false, [], [])),
          seq(|names| + 1, w => Idle),
          seq(|names| + 1, w => []))
  }

  predicate Enabled(s: State, step: Step) {
    && |s.workers| == |s.agents| + 1 && |s.begun| == |s.agents| + 1
    && match step
       case Broadcast(_) => s.workers[|s.agents|].Idle?
       case Hear(i, event) =>
         && i < |s.agents| && s.agents[i].streaming && s.workers[i].Idle?
         // An agent announces at most one task, and its id is not empty.
         && (event.TaskEvent? ==> s.agents[i].given == None && event.id != "")
       case Record(i) => i < |s.agents| && (s.workers[i].RecordTask? || s.workers[i].RecordContext? || s.workers[i].OpenGate?)
       case Skip(w) => w < |s.agents| && s.workers[w].Turning? && s.workers[w].target == w
       case ReadTask(w) => w <= |s.agents| && s.workers[w].Turning? && s.workers[w].target < |s.agents| && s.workers[w].target != w
       case ReadContext(w) => w <= |s.agents| && s.workers[w].HalfStamped? && s.workers[w].target < |s.agents|
       case Enqueue(w) =>
         w <= |s.agents| && s.workers[w].Stamped? && s.workers[w].target < |s.agents| && |s.agents[s.workers[w].target].queue| < CAPACITY
       case Finish(w) => w <= |s.agents| && s.workers[w].Turning? && s.workers[w].target == |s.agents|
       case EndStream(i) => i < |s.agents| && s.agents[i].streaming && s.workers[i].Idle?
       case TakeFirst(i) => i < |s.agents| && s.agents[i].first == None && s.agents[i].queue != []
       case OpenStream(i) => i < |s.agents| && s.agents[i].first.Some? && !s.agents[i].streaming
       case SendRest(i) => i < |s.agents| && s.agents[i].first.Some? && s.agents[i].streaming && s.agents[i].ready && s.agents[i].queue != []
  }

  function SetAgent(s: State, i: nat, a: Agent): State
    requires i < |s.agents|
  {
    s.(agents := s.agents[i := a])
  }

  function SetWorker(s: State, w: nat, p: Phase): State
    requires w < |s.workers|
  {
    s.(workers := s.workers[w := p])
  }

  /** A worker starts on a message for everybody but itself. */
  function Deliver(s: State, w: nat, msg: Option<Message>): State
    requires w < |s.workers| && w < |s.begun|
  {
    match msg
    case None => SetWorker(s, w, Idle)
    case Some(m) => SetWorker(s, w, Turning(m, 0)).(begun := s.begun[w := s.begun[w] + [m]])
  }

  function IdOf(task: Event): string {
    if task.TaskEvent? then task.id else ""
  }

  function ContextOf(task: Event): string {
    if task.TaskEvent? then task.contextId else ""
  }

  function Next(s: State, step: Step): State
    requires Enabled(s, step)
  {
    match step
    case Broadcast(text) => Deliver(s, |s.agents|, Some(NewMessage(text)))
    case Hear(i, event) =>
      if event.TaskEvent? then SetAgent(SetWorker(s, i, RecordTask(event)), i, s.agents[i].(given := Some(event)))
      else Deliver(s, i, TranslateEvent(event, s.agents[i].name))
    case Record(i) =>
      var a := s.agents[i];
      (match s.workers[i]
       case RecordTask(task) =>
         SetAgent(SetWorker(s, i, RecordContext(task)), i, a.(taskId := IdOf(task), taskRecorded := true))
       case RecordContext(task) =>
         SetAgent(SetWorker(s, i, OpenGate(task)), i, a.(contextId := ContextOf(task), contextRecorded := true))
       case OpenGate(task) => SetAgent(Deliver(s, i, TranslateEvent(task, a.name)), i, a.(ready := true)))
    case Skip(w) => SetWorker(s, w, Turning(s.workers[w].message, w + 1))
    case ReadTask(w) =>
      var a := s.agents[s.workers[w].target];
      SetWorker(s, w, HalfStamped(s.workers[w].message, s.workers[w].target, a.taskId, a.taskRecorded))
    case ReadContext(w) =>
      var p, a := s.workers[w], s.agents[s.workers[w].target];
      SetWorker(s, w, Stamped(p.message, p.target, Request(w, Clone(p.message, p.taskId, a.contextId), p.taskKnown, a.contextRecorded)))
    case Enqueue(w) =>
      var p, a := s.workers[w], s.agents[s.workers[w].target];
      SetAgent(SetWorker(s, w, Turning(p.message, p.target + 1)), p.target,
               a.(queue := a.queue + [p.request], enqueued := a.enqueued + [p.request]))
    case Finish(w) => SetWorker(s, w, Idle)
    case EndStream(i) => SetWorker(s, i, Ended)
    case TakeFirst(i) =>
      var a := s.agents[i];
      SetAgent(s, i, a.(first := Some(a.queue[0]), queue := a.queue[1..]))
    case OpenStream(i) =>
      var a := s.agents[i];
      SetAgent(s, i, a.(streaming := true, sent := a.sent + [a.first.value]))
    case SendRest(i) =>
      var a := s.agents[i];
      SetAgent(s, i, a.(queue := a.queue[1..], sent := a.sent + [a.queue[0]]))
  }

  // What every state keeps.

  /** A request for an agent carries that agent's own ids as far as they were on record. */
  predicate StampFits(a: Agent, request: Request) {
    && request.message.taskId == (if request.taskKnown then a.taskId else "")
    && request.message.contextId == (if request.contextKnown then a.contextId else "")
    && (request.taskKnown ==> a.taskRecorded)
    && (request.contextKnown ==> a.contextRecorded)
  }

  /** What an agent's record amounts to. */
  predicate IdsFit(a: Agent) {
    && (a.given.Some? ==> a.given.value.TaskEvent? && a.given.value.id != "")
    && a.taskId == (if a.taskRecorded && a.given.Some? then IdOf(a.given.value) else "")
    && a.contextId == (if a.contextRecorded && a.given.Some? then ContextOf(a.given.value) else "")
    && (a.taskRecorded ==> a.given.Some?) && (a.contextRecorded ==> a.taskRecorded) && (a.ready ==> a.contextRecorded)
    && (a.given.Some? ==> a.streaming)
  }

  /** What was sent, the first request that is about to be, and the queue are what was enqueued. */
  predicate Flows(a: Agent) {
    && |a.queue| <= CAPACITY
    && (a.streaming ==> a.first.Some? && a.sent != [] && a.sent[0] == a.first.value && a.sent + a.queue == a.enqueued)
    && (!a.streaming ==> a.sent == [] && (if a.first.Some? then [a.first.value] + a.queue else a.queue) == a.enqueued)
    && (|a.sent| > 1 ==> a.ready)
  }

  ghost predicate AgentOk(a: Agent, j: nat) {
    && IdsFit(a) && Flows(a)
    && forall k :: 0 <= k < |a.enqueued| ==> a.enqueued[k].origin != j && StampFits(a, a.enqueued[k])
  }

  ghost predicate WorkerOk(s: State, w: nat)
    requires w < |s.workers|
  {
    match s.workers[w]
    case Idle => true
    case Ended => true
    case RecordTask(task) => w < |s.agents| && s.agents[w].given == Some(task) && !s.agents[w].taskRecorded
    case RecordContext(task) => w < |s.agents| && s.agents[w].given == Some(task) && s.agents[w].taskRecorded && !s.agents[w].contextRecorded
    case OpenGate(task) => w < |s.agents| && s.agents[w].given == Some(task) && s.agents[w].contextRecorded && !s.agents[w].ready
    case Turning(msg, target) => target <= |s.agents| && Unstamped(msg) == msg
    case HalfStamped(msg, target, taskId, taskKnown) =>
      && target < |s.agents| && target != w && Unstamped(msg) == msg
      && taskId == (if taskKnown then s.agents[target].taskId else "") && (taskKnown ==> s.agents[target].taskRecorded)
    case Stamped(msg, target, request) =>
      && target < |s.agents| && target != w && Unstamped(msg) == msg
      && request.origin == w && Unstamped(request.message) == msg && StampFits(s.agents[target], request)
  }

  ghost predicate Shape(s: State) {
    |s.workers| == |s.agents| + 1 && |s.begun| == |s.agents| + 1
  }

  ghost predicate AgentsOk(agents: seq<Agent>) {
    forall j :: 0 <= j < |agents| ==> AgentOk(agents[j], j)
  }

  ghost predicate WorkersOk(s: State) {
    forall w :: 0 <= w < |s.workers| ==> WorkerOk(s, w)
  }

  // Delivery: what a worker has begun reaches everybody else, in order, once.

  function From(enqueued: seq<Request>, w: nat): seq<Message> {
    if enqueued == [] then []
    else
      var last := enqueued[|enqueued| - 1];
      From(enqueued[..|enqueued| - 1], w) + if last.origin == w then [Unstamped(last.message)] else []
  }

  /** A worker still has its latest message to deliver to agent `j`. */
  predicate Owes(p: Phase, j: nat) {
    (p.Turning? || p.HalfStamped? || p.Stamped?) && p.target <= j
  }

  ghost predicate Reaches(p: Phase, begun: seq<Message>, enqueued: seq<Request>, w: nat, j: nat) {
    if Owes(p, j) then begun != [] && begun[|begun| - 1] == p.message && From(enqueued, w) == begun[..|begun| - 1]
    else From(enqueued, w) == begun
  }

  ghost predicate AllReach(s: State)
    requires Shape(s)
  {
    forall w, j :: 0 <= w < |s.workers| && 0 <= j < |s.agents| && j != w ==>
      Reaches(s.workers[w], s.begun[w], s.agents[j].enqueued, w, j)
  }

  ghost predicate Inv(s: State) {
    Shape(s) && AgentsOk(s.agents) && WorkersOk(s) && AllReach(s)
  }

  lemma StartInv(names: seq<string>)
    ensures Inv(Start(names))
  {
  }

  /** Ids and gate as before; nothing new enqueued. */
  predicate SameRecord(a: Agent, b: Agent) {
    && a.taskId == b.taskId && a.contextId == b.contextId && a.given == b.given && a.ready == b.ready
    && a.taskRecorded == b.taskRecorded && a.contextRecorded == b.contextRecorded && a.enqueued == b.enqueued
  }

  /** Ids that are on record stay, and a stamp that fits goes on fitting. */
  predicate KeepsRecord(a: Agent, b: Agent) {
    && (a.taskRecorded ==> b.taskRecorded && b.taskId == a.taskId)
    && (a.contextRecorded ==> b.contextRecorded && b.contextId == a.contextId)
  }

  lemma StampsStay(a: Agent, b: Agent, j: nat)
    requires AgentOk(a, j) && KeepsRecord(a, b) && b.enqueued == a.enqueued && IdsFit(b) && Flows(b)
    ensures AgentOk(b, j)
  {
    forall k | 0 <= k < |b.enqueued|
      ensures b.enqueued[k].origin != j && StampFits(b, b.enqueued[k])
    {
      assert StampFits(a, a.enqueued[k]);
    }
  }

  /** A worker that is not recording anything itself goes on as it was. */
  lemma WorkerStays(s: State, t: State, w: nat)
    requires w < |s.workers| && |t.workers| == |s.workers| && t.workers[w] == s.workers[w] && |t.agents| == |s.agents|
    requires forall j :: 0 <= j < |s.agents| ==> KeepsRecord(s.agents[j], t.agents[j])
    requires w < |s.agents| ==> SameRecord(s.agents[w], t.agents[w])
    requires WorkerOk(s, w)
    ensures WorkerOk(t, w)
  {
  }

  lemma AgentMoves(s: State, i: nat, b: Agent)
    requires Inv(s) && i < |s.agents| && SameRecord(s.agents[i], b) && IdsFit(b) && Flows(b)
    ensures Inv(SetAgent(s, i, b))
  {
    var t := SetAgent(s, i, b);
    forall w | 0 <= w < |t.workers|
      ensures WorkerOk(t, w)
    {
      WorkerStays(s, t, w);
    }
    forall j | 0 <= j < |t.agents|
      ensures AgentOk(t.agents[j], j)
    {
      StampsStay(s.agents[j], t.agents[j], j);
    }
  }

  lemma TakeFirstKeepsInv(s: State, i: nat)
    requires Inv(s) && Enabled(s, TakeFirst(i))
    ensures Inv(Next(s, TakeFirst(i)))
  {
    var a := s.agents[i];
    assert AgentOk(a, i);
    assert [a.queue[0]] + a.queue[1..] == a.queue;
    AgentMoves(s, i, a.(first := Some(a.queue[0]), queue := a.queue[1..]));
  }

  lemma OpenStreamKeepsInv(s: State, i: nat)
    requires Inv(s) && Enabled(s, OpenStream(i))
    ensures Inv(Next(s, OpenStream(i)))
  {
    var a := s.agents[i];
    assert AgentOk(a, i);
    assert a.sent + [a.first.value] == [a.first.value];
    AgentMoves(s, i, a.(streaming := true, sent := a.sent + [a.first.value]));
  }

  lemma SendRestKeepsInv(s: State, i: nat)
    requires Inv(s) && Enabled(s, SendRest(i))
    ensures Inv(Next(s, SendRest(i)))
  {
    var a := s.agents[i];
    assert AgentOk(a, i);
    assert (a.sent + [a.queue[0]]) + a.queue[1..] == a.sent + a.queue;
    AgentMoves(s, i, a.(queue := a.queue[1..], sent := a.sent + [a.queue[0]]));
  }

  /** A worker moves on without having delivered or begun anything. */
  lemma WorkerMoves(s: State, w: nat, p: Phase)
    requires Inv(s) && w < |s.workers|
    requires WorkerOk(SetWorker(s, w, p), w)
    requires forall j :: 0 <= j < |s.agents| && j != w ==>
               (Owes(p, j) <==> Owes(s.workers[w], j)) && (Owes(p, j) ==> p.message == s.workers[w].message)
    ensures Inv(SetWorker(s, w, p))
  {
    var t := SetWorker(s, w, p);
    forall v | 0 <= v < |t.workers|
      ensures WorkerOk(t, v)
    {
      assert WorkerOk(s, v);
    }
    forall v, j | 0 <= v < |t.workers| && 0 <= j < |t.agents| && j != v
      ensures Reaches(t.workers[v], t.begun[v], t.agents[j].enqueued, v, j)
    {
      assert Reaches(s.workers[v], s.begun[v], s.agents[j].enqueued, v, j);
    }
  }

  /** A worker that owes nothing begins a message, or finds there is none to deliver. */
  lemma DeliverKeepsInv(s: State, w: nat, msg: Option<Message>)
    requires Inv(s) && w < |s.workers| && (forall j :: 0 <= j < |s.agents| ==> !Owes(s.workers[w], j))
    requires msg.Some? ==> Unstamped(msg.value) == msg.value
    ensures Inv(Deliver(s, w, msg))
  {
    var t := Deliver(s, w, msg);
    forall v | 0 <= v < |t.workers|
      ensures WorkerOk(t, v)
    {
      assert WorkerOk(s, v);
    }
    forall v, j | 0 <= v < |t.workers| && 0 <= j < |t.agents| && j != v
      ensures Reaches(t.workers[v], t.begun[v], t.agents[j].enqueued, v, j)
    {
      assert Reaches(s.workers[v], s.begun[v], s.agents[j].enqueued, v, j);
    }
  }

  lemma TranslationIsUnstamped(event: Event, sender: string)
    ensures var msg := TranslateEvent(event, sender); msg.Some? ==> Unstamped(msg.value) == msg.value
  {
  }

  /** An agent's record is extended by its own reader. */
  lemma RecordKeepsAgents(s: State, t: State, i: nat, b: Agent)
    requires Inv(s) && i < |s.agents| && Shape(t) && t.agents == s.agents[i := b] && t.begun == s.begun
    requires |t.workers| == |s.workers| && (forall w :: 0 <= w < |s.workers| && w != i ==> t.workers[w] == s.workers[w])
    requires !Owes(s.workers[i], |s.agents|) && !Owes(t.workers[i], |s.agents|)
    requires IdsFit(b) && Flows(b) && b.enqueued == s.agents[i].enqueued
    requires KeepsRecord(s.agents[i], b) && WorkerOk(t, i)
    ensures Inv(t)
  {
    forall v | 0 <= v < |t.workers|
      ensures WorkerOk(t, v)
    {
      if v != i {
        WorkerStays(s, t, v);
      }
    }
    forall j | 0 <= j < |t.agents|
      ensures AgentOk(t.agents[j], j)
    {
      StampsStay(s.agents[j], t.agents[j], j);
    }
    forall v, j | 0 <= v < |t.workers| && 0 <= j < |t.agents| && j != v
      ensures Reaches(t.workers[v], t.begun[v], t.agents[j].enqueued, v, j)
    {
      assert Reaches(s.workers[v], s.begun[v], s.agents[j].enqueued, v, j);
    }
  }

  lemma HearKeepsInv(s: State, i: nat, event: Event)
    requires Inv(s) && Enabled(s, Hear(i, event))
    ensures Inv(Next(s, Hear(i, event)))
  {
    var a := s.agents[i];
    assert AgentOk(a, i) && WorkerOk(s, i);
    if event.TaskEvent? {
      RecordKeepsAgents(s, Next(s, Hear(i, event)), i, a.(given := Some(event)));
    } else {
      TranslationIsUnstamped(event, a.name);
      DeliverKeepsInv(s, i, TranslateEvent(event, a.name));
    }
  }

  lemma RecordKeepsInv(s: State, i: nat)
    requires Inv(s) && Enabled(s, Record(i))
    ensures Inv(Next(s, Record(i)))
  {
    var a := s.agents[i];
    assert AgentOk(a, i) && WorkerOk(s, i);
    match s.workers[i] {
      case RecordTask(task) =>
        RecordKeepsAgents(s, Next(s, Record(i)), i, a.(taskId := IdOf(task), taskRecorded := true));
      case RecordContext(task) =>
        RecordKeepsAgents(s, Next(s, Record(i)), i, a.(contextId := ContextOf(task), contextRecorded := true));
      case OpenGate(task) =>
        var b := a.(ready := true);
        var t := SetAgent(SetWorker(s, i, Idle), i, b);
        RecordKeepsAgents(s, t, i, b);
        TranslationIsUnstamped(task, a.name);
        DeliverKeepsInv(t, i, TranslateEvent(task, a.name));
        assert Next(s, Record(i)) == Deliver(t, i, TranslateEvent(task, a.name));
    }
  }

  lemma StampingKeepsInv(s: State, w: nat)
    requires Inv(s)
    ensures Enabled(s, ReadTask(w)) ==> Inv(Next(s, ReadTask(w)))
    ensures Enabled(s, ReadContext(w)) ==> Inv(Next(s, ReadContext(w)))
  {
    if Enabled(s, ReadTask(w)) {
      var p := s.workers[w];
      var a := s.agents[p.target];
      assert WorkerOk(s, w) && AgentOk(a, p.target);
      WorkerMoves(s, w, HalfStamped(p.message, p.target, a.taskId, a.taskRecorded));
    }
    if Enabled(s, ReadContext(w)) {
      var p := s.workers[w];
      var a := s.agents[p.target];
      assert WorkerOk(s, w) && AgentOk(a, p.target);
      WorkerMoves(s, w, Stamped(p.message, p.target, Request(w, Clone(p.message, p.taskId, a.contextId), p.taskKnown, a.contextRecorded)));
    }
  }

  lemma FromSnoc(enqueued: seq<Request>, request: Request, w: nat)
    ensures From(enqueued + [request], w) == From(enqueued, w) + if request.origin == w then [Unstamped(request.message)] else []
  {
    assert (enqueued + [request])[..|enqueued|] == enqueued;
  }

  /** Enqueueing pays what was owed to this target and nothing else. */
  lemma EnqueueReaches(p: Phase, begun: seq<Message>, enqueued: seq<Request>, w: nat, j: nat)
    requires p.Stamped? && p.target == j && Reaches(p, begun, enqueued, w, j)
    requires p.request.origin == w && Unstamped(p.request.message) == p.message
    ensures Reaches(Turning(p.message, j + 1), begun, enqueued + [p.request], w, j)
    ensures forall v :: v != w ==> From(enqueued + [p.request], v) == From(enqueued, v)
  {
    FromSnoc(enqueued, p.request, w);
    forall v | v != w
      ensures From(enqueued + [p.request], v) == From(enqueued, v)
    {
      FromSnoc(enqueued, p.request, v);
    }
  }

  lemma LongerQueueFlows(a: Agent, request: Request)
    requires Flows(a) && |a.queue| < CAPACITY
    ensures Flows(a.(queue := a.queue + [request], enqueued := a.enqueued + [request]))
  {
    assert a.sent + (a.queue + [request]) == (a.sent + a.queue) + [request];
    if a.first.Some? {
      assert [a.first.value] + (a.queue + [request]) == ([a.first.value] + a.queue) + [request];
    }
  }

  lemma EnqueueFlows(a: Agent, j: nat, request: Request)
    requires AgentOk(a, j) && |a.queue| < CAPACITY && request.origin != j && StampFits(a, request)
    ensures AgentOk(a.(queue := a.queue + [request], enqueued := a.enqueued + [request]), j)
  {
    LongerQueueFlows(a, request);
    var b := a.(queue := a.queue + [request], enqueued := a.enqueued + [request]);
    forall k | 0 <= k < |b.enqueued|
      ensures b.enqueued[k].origin != j && StampFits(b, b.enqueued[k])
    {
      assert k < |a.enqueued| ==> StampFits(a, a.enqueued[k]);
    }
  }

  /** A request more in one queue: nobody's stamps are out of date for it. */
  lemma EnqueueKeepsWorkers(s: State, w: nat, k: nat, b: Agent, p: Phase)
    requires Inv(s) && w < |s.workers| && k < |s.agents| && p.Turning? && p.target <= |s.agents| && Unstamped(p.message) == p.message
    requires b == s.agents[k].(queue := b.queue, enqueued := b.enqueued) && AgentOk(b, k)
    ensures var t := SetAgent(SetWorker(s, w, p), k, b); AgentsOk(t.agents) && WorkersOk(t)
  {
    var t := SetAgent(SetWorker(s, w, p), k, b);
    forall v | 0 <= v < |t.workers|
      ensures WorkerOk(t, v)
    {
      assert WorkerOk(s, v);
    }
    forall j | 0 <= j < |t.agents|
      ensures AgentOk(t.agents[j], j)
    {
      assert AgentOk(s.agents[j], j);
    }
  }

  lemma EnqueueKeepsReach(s: State, w: nat, k: nat, b: Agent, p: Phase)
    requires Inv(s) && w < |s.workers| && k < |s.agents| && k != w && Reaches(p, s.begun[w], b.enqueued, w, k)
    requires forall v :: v != w ==> From(b.enqueued, v) == From(s.agents[k].enqueued, v)
    requires forall j :: 0 <= j < |s.agents| && j != w && j != k ==>
               (Owes(p, j) <==> Owes(s.workers[w], j)) && (Owes(p, j) ==> p.message == s.workers[w].message)
    ensures AllReach(SetAgent(SetWorker(s, w, p), k, b))
  {
    var t := SetAgent(SetWorker(s, w, p), k, b);
    forall v, j | 0 <= v < |t.workers| && 0 <= j < |t.agents| && j != v
      ensures Reaches(t.workers[v], t.begun[v], t.agents[j].enqueued, v, j)
    {
      assert Reaches(s.workers[v], s.begun[v], s.agents[j].enqueued, v, j);
    }
  }

  /** The record and the worker after an enqueue. */
  function Grown(a: Agent, request: Request): Agent {
    a.(queue := a.queue + [request], enqueued := a.enqueued + [request])
  }

  lemma EnqueueFits(s: State, w: nat)
    requires Inv(s) && Enabled(s, Enqueue(w))
    ensures var p := s.workers[w]; var k := p.target; var b := Grown(s.agents[k], p.request);
      && k != w && Unstamped(p.message) == p.message
      && AgentOk(b, k) && Reaches(Turning(p.message, k + 1), s.begun[w], b.enqueued, w, k)
      && forall v :: v != w ==> From(b.enqueued, v) == From(s.agents[k].enqueued, v)
  {
    var p := s.workers[w];
    var k, a := p.target, s.agents[p.target];
    assert WorkerOk(s, w) && AgentOk(a, k) && Reaches(p, s.begun[w], a.enqueued, w, k);
    EnqueueFlows(a, k, p.request);
    EnqueueReaches(p, s.begun[w], a.enqueued, w, k);
  }

  lemma EnqueueKeepsInv(s: State, w: nat)
    requires Inv(s) && Enabled(s, Enqueue(w))
    ensures Inv(Next(s, Enqueue(w)))
  {
    EnqueueFits(s, w);
    var p := s.workers[w];
    var k := p.target;
    var b, q := Grown(s.agents[k], p.request), Turning(p.message, k + 1);
    EnqueueKeepsWorkers(s, w, k, b, q);
    EnqueueKeepsReach(s, w, k, b, q);
    assert Next(s, Enqueue(w)) == SetAgent(SetWorker(s, w, q), k, b);
  }

  lemma StepKeepsInv(s: State, step: Step)
    requires Inv(s) && Enabled(s, step)
    ensures Inv(Next(s, step))
  {
    match step
    case Broadcast(text) => DeliverKeepsInv(s, |s.agents|, Some(NewMessage(text)));
    case Hear(i, event) => HearKeepsInv(s, i, event);
    case Record(i) => RecordKeepsInv(s, i);
    case Skip(w) =>
      assert WorkerOk(s, w);
      WorkerMoves(s, w, Turning(s.workers[w].message, w + 1));
    case ReadTask(w) => StampingKeepsInv(s, w);
    case ReadContext(w) => StampingKeepsInv(s, w);
    case Enqueue(w) => EnqueueKeepsInv(s, w);
    case Finish(w) =>
      assert WorkerOk(s, w);
      WorkerMoves(s, w, Idle);
    case EndStream(i) => WorkerMoves(s, i, Ended);
    case TakeFirst(i) => TakeFirstKeepsInv(s, i);
    case OpenStream(i) => OpenStreamKeepsInv(s, i);
    case SendRest(i) => SendRestKeepsInv(s, i);
  }

  // Runs.

  ghost predicate CanRun(s: State, steps: seq<Step>)
    decreases |steps|, 0
  {
    steps == [] ||
    (var before := steps[..|steps| - 1];
     CanRun(s, before) && Enabled(After(s, before), steps[|steps| - 1]))
  }

  ghost function After(s: State, steps: seq<Step>): State
    requires CanRun(s, steps)
    decreases |steps|, 1
  {
    if steps == [] then s else Next(After(s, steps[..|steps| - 1]), steps[|steps| - 1])
  }

  lemma {:induction false} RunKeepsInv(s: State, steps: seq<Step>)
    requires Inv(s) && CanRun(s, steps)
    ensures Inv(After(s, steps))
  {
    if steps != [] {
      var before := steps[..|steps| - 1];
      RunKeepsInv(s, before);
      var t := After(s, before);
      StepKeepsInv(t, steps[|steps| - 1]);
      assert After(s, steps) == Next(t, steps[|steps| - 1]);
    }
  }

  // What every run guarantees.

  lemma StepKeepsCount(s: State, step: Step)
    requires Enabled(s, step)
    ensures |Next(s, step).agents| == |s.agents|
  {
  }

  lemma {:induction false} AgentCount(s: State, steps: seq<Step>)
    requires CanRun(s, steps)
    ensures |After(s, steps).agents| == |s.agents|
  {
    if steps != [] {
      AgentCount(s, steps[..|steps| - 1]);
      StepKeepsCount(After(s, steps[..|steps| - 1]), steps[|steps| - 1]);
      assert After(s, steps) == Next(After(s, steps[..|steps| - 1]), steps[|steps| - 1]);
    }
  }

  /** In every reachable state, what was sent to an agent is what was enqueued for it, in order, each at
      most once; the first request opens its stream, and none of the rest is sent before its task has
      arrived; nothing in its queue comes from itself; and every request carries no ids or its own. */
  lemma RequestsArriveInOrder(names: seq<string>, steps: seq<Step>, j: nat)
    requires j < |names| && CanRun(Start(names), steps)
    ensures |After(Start(names), steps).agents| == |names|
    ensures var a := After(Start(names), steps).agents[j];
      && a.sent <= a.enqueued && |a.queue| <= 100
      && |a.enqueued| == |a.sent| + |a.queue| + (if a.first.Some? && !a.streaming then 1 else 0)
      && (a.sent != [] ==> a.streaming && Some(a.sent[0]) == a.first)
      && (|a.sent| > 1 ==> a.given.Some? && a.given.value.TaskEvent?)
      && forall k :: 0 <= k < |a.enqueued| ==>
           && a.enqueued[k].origin != j
           && (a.enqueued[k].message.taskId == "" || (a.given.Some? && a.enqueued[k].message.taskId == IdOf(a.given.value)))
           && (a.enqueued[k].message.contextId == "" || (a.given.Some? && a.enqueued[k].message.contextId == ContextOf(a.given.value)))
  {
    StartInv(names);
    RunKeepsInv(Start(names), steps);
    AgentCount(Start(names), steps);
    assert AgentOk(After(Start(names), steps).agents[j], j);
  }

  function Utters(names: seq<string>, step: Step, w: nat): seq<Message> {
    match step
    case Broadcast(text) => if w == |names| then [NewMessage(text)] else []
    case Hear(i, event) =>
      if i == w && w < |names| && TranslateEvent(event, names[w]).Some? then [TranslateEvent(event, names[w]).value] else []
    case _ => []
  }

  /** What a worker has to say in a run: the user's lines, or the events heard on an agent's stream that
      translate to a message. */
  function Uttered(names: seq<string>, steps: seq<Step>, w: nat): seq<Message> {
    if steps == [] then []
    else Uttered(names, steps[..|steps| - 1], w) + Utters(names, steps[|steps| - 1], w)
  }

  function Translated(event: Event, name: string): seq<Message> {
    if TranslateEvent(event, name).Some? then [TranslateEvent(event, name).value] else []
  }

  /** A task that was heard is delivered only after it has been recorded. */
  function Unbegun(p: Phase, name: string): seq<Message> {
    match p
    case RecordTask(task) => Translated(task, name)
    case RecordContext(task) => Translated(task, name)
    case OpenGate(task) => Translated(task, name)
    case _ => []
  }

  function SpeakerName(names: seq<string>, w: nat): string {
    if w < |names| then names[w] else ""
  }

  ghost predicate NamesStay(names: seq<string>, s: State) {
    Shape(s) && |s.agents| == |names| && forall i :: 0 <= i < |names| ==> s.agents[i].name == names[i]
  }

  lemma StepKeepsNames(names: seq<string>, s: State, step: Step)
    requires NamesStay(names, s) && Enabled(s, step)
    ensures NamesStay(names, Next(s, step))
  {
  }

  lemma HearUtters(names: seq<string>, s: State, i: nat, event: Event, w: nat)
    requires NamesStay(names, s) && Enabled(s, Hear(i, event)) && w <= |names|
    ensures w < |Next(s, Hear(i, event)).begun| && w < |Next(s, Hear(i, event)).workers|
    ensures Next(s, Hear(i, event)).begun[w] + Unbegun(Next(s, Hear(i, event)).workers[w], SpeakerName(names, w)) ==
              s.begun[w] + Unbegun(s.workers[w], SpeakerName(names, w)) + Utters(names, Hear(i, event), w)
  {
  }

  lemma RecordUtters(names: seq<string>, s: State, i: nat, w: nat)
    requires NamesStay(names, s) && Enabled(s, Record(i)) && w <= |names|
    ensures w < |Next(s, Record(i)).begun| && w < |Next(s, Record(i)).workers|
    ensures Next(s, Record(i)).begun[w] + Unbegun(Next(s, Record(i)).workers[w], SpeakerName(names, w)) ==
              s.begun[w] + Unbegun(s.workers[w], SpeakerName(names, w))
  {
  }

  /** What a step adds to what a worker has begun, and to what it has still to begin. */
  lemma StepUtters(names: seq<string>, s: State, step: Step, w: nat)
    requires NamesStay(names, s) && Enabled(s, step) && w <= |names|
    ensures w < |Next(s, step).begun| && w < |Next(s, step).workers|
    ensures Next(s, step).begun[w] + Unbegun(Next(s, step).workers[w], SpeakerName(names, w)) ==
              s.begun[w] + Unbegun(s.workers[w], SpeakerName(names, w)) + Utters(names, step, w)
  {
    match step
    case Hear(i, event) => HearUtters(names, s, i, event, w);
    case Record(i) => RecordUtters(names, s, i, w);
    case _ =>
  }

  lemma {:induction false} UtteredIsBegun(names: seq<string>, steps: seq<Step>, w: nat)
    requires w <= |names| && CanRun(Start(names), steps)
    ensures NamesStay(names, After(Start(names), steps)) && Inv(After(Start(names), steps))
    ensures Uttered(names, steps, w) ==
              After(Start(names), steps).begun[w] + Unbegun(After(Start(names), steps).workers[w], SpeakerName(names, w))
  {
    StartInv(names);
    RunKeepsInv(Start(names), steps);
    if steps != [] {
      var before, last := steps[..|steps| - 1], steps[|steps| - 1];
      UtteredIsBegun(names, before, w);
      var s := After(Start(names), before);
      StepKeepsNames(names, s, last);
      StepUtters(names, s, last, w);
      assert After(Start(names), steps) == Next(s, last);
    }
  }

  predicate Recording(p: Phase) {
    p.RecordTask? || p.RecordContext? || p.OpenGate?
  }

  /** A worker has its latest message still before it, at least for agent `j`: to record it or to deliver it. */
  predicate StillHas(p: Phase, j: nat) {
    Owes(p, j) || Recording(p)
  }

  lemma UnbegunIsLatest(s: State, w: nat, name: string, uttered: seq<Message>)
    requires Inv(s) && w < |s.workers| && uttered == s.begun[w] + Unbegun(s.workers[w], name)
    ensures if Recording(s.workers[w]) then uttered != [] && s.begun[w] == uttered[..|uttered| - 1] else s.begun[w] == uttered
  {
    assert WorkerOk(s, w);
    if Recording(s.workers[w]) {
      assert AgentOk(s.agents[w], w);
      assert |Unbegun(s.workers[w], name)| == 1;
    }
  }

  lemma AllButLatest(p: Phase, j: nat, begun: seq<Message>, uttered: seq<Message>)
    requires if Recording(p) then uttered != [] && begun == uttered[..|uttered| - 1] else begun == uttered
    requires Owes(p, j) ==> begun != []
    ensures StillHas(p, j) ==> uttered != []
    ensures (if Owes(p, j) && begun != [] then begun[..|begun| - 1] else begun) == if StillHas(p, j) then uttered[..|uttered| - 1] else uttered
  {
  }

  lemma BegunIsDelivered(names: seq<string>, steps: seq<Step>, w: nat, j: nat)
    requires w <= |names| && j < |names| && j != w && CanRun(Start(names), steps)
    ensures Shape(After(Start(names), steps)) && |After(Start(names), steps).agents| == |names|
    ensures var s := After(Start(names), steps);
      From(s.agents[j].enqueued, w) == if Owes(s.workers[w], j) && s.begun[w] != [] then s.begun[w][..|s.begun[w]| - 1] else s.begun[w]
    ensures var s := After(Start(names), steps); Owes(s.workers[w], j) ==> s.begun[w] != []
    ensures var s := After(Start(names), steps); s.workers[w].Idle? || s.workers[w].Ended? ==> From(s.agents[j].enqueued, w) == s.begun[w]
  {
    StartInv(names);
    RunKeepsInv(Start(names), steps);
    AgentCount(Start(names), steps);
    var s := After(Start(names), steps);
    assert Reaches(s.workers[w], s.begun[w], s.agents[j].enqueued, w, j);
  }

  /** Every line typed, and every event heard that translates to a message, is enqueued for every other
      agent, each once and in the order of the run, but for the latest one while its worker still has it
      before it; so any two agents are sent a third party's messages in the same order. */
  lemma EverythingIsDelivered(names: seq<string>, steps: seq<Step>, w: nat, j: nat)
    requires w <= |names| && j < |names| && j != w && CanRun(Start(names), steps)
    ensures Shape(After(Start(names), steps)) && |After(Start(names), steps).agents| == |names|
    ensures var s, uttered := After(Start(names), steps), Uttered(names, steps, w);
      && (StillHas(s.workers[w], j) ==> uttered != [])
      && From(s.agents[j].enqueued, w) == if StillHas(s.workers[w], j) then uttered[..|uttered| - 1] else uttered
  {
    UtteredIsBegun(names, steps, w);
    BegunIsDelivered(names, steps, w, j);
    var s, uttered := After(Start(names), steps), Uttered(names, steps, w);
    UnbegunIsLatest(s, w, SpeakerName(names, w), uttered);
    AllButLatest(s.workers[w], j, s.begun[w], uttered);
  }

  // What is delivered, event by event and line by line.

  function PhaseOf(s: State, w: nat): Phase {
    if w < |s.workers| then s.workers[w] else Idle
  }

  function HearsRelevant(w: nat): Step -> bool {
    (step: Step) => step.Hear? && step.i == w && !step.event.OtherEvent?
  }

  function EventOf(step: Step): Event {
    if step.Hear? then step.event else OtherEvent
  }

  predicate IsTyped(step: Step) {
    step.Broadcast?
  }

  function LineTyped(step: Step): string {
    if step.Broadcast? then step.text else ""
  }

  function ComesFrom(w: nat): Request -> bool {
    (request: Request) => request.origin == w
  }

  function MessageOf(request: Request): Message {
    request.message
  }

  /** The message names its sender and holds nothing but the event, under the media type of its kind. */
  predicate Carries(message: Message, event: Event, name: string) {
    && message.sender == Some(name)
    && message.parts ==
         [EventPart(event, match event
                           case TaskEvent(_, _) => "application/vnd.a2a.task+json"
                           case StatusEvent(_) => "application/vnd.a2a.task-status-update+json"
                           case ArtifactEvent(_) => "application/vnd.a2a.task-artifact-update+json"
                           case OtherEvent => "")]
  }

  /** The requests for an agent that come from worker `w` hold, one to one and in order, the task, status and
      artifact events heard on the stream of `w`, but for the latest while the worker still has it. */
  ghost predicate HoldsEvents(name: string, s: State, steps: seq<Step>, w: nat, j: nat, events: seq<Event>, messages: seq<Message>) {
    && ListsSome(steps, HearsRelevant(w), EventOf, events)
    && j < |s.agents| && ListsSome(s.agents[j].enqueued, ComesFrom(w), MessageOf, messages)
    && |messages| + (if StillHas(PhaseOf(s, w), j) then 1 else 0) == |events|
    && forall k :: 0 <= k < |messages| ==> Carries(messages[k], events[k], name)
  }

  ghost predicate HoldsLines(s: State, steps: seq<Step>, w: nat, j: nat, lines: seq<string>, messages: seq<Message>) {
    && ListsSome(steps, IsTyped, LineTyped, lines)
    && j < |s.agents| && ListsSome(s.agents[j].enqueued, ComesFrom(w), MessageOf, messages)
    && |messages| + (if StillHas(PhaseOf(s, w), j) then 1 else 0) == |lines|
    && forall k :: 0 <= k < |messages| ==> messages[k].sender == None && messages[k].parts == [Words(lines[k])]
  }

  lemma UttersHeard(names: seq<string>, step: Step, w: nat)
    requires w < |names|
    ensures |Utters(names, step, w)| == if HearsRelevant(w)(step) then 1 else 0
    ensures HearsRelevant(w)(step) ==> Carries(Utters(names, step, w)[0], EventOf(step), names[w])
  {
  }

  lemma {:induction false} UtteredEvents(names: seq<string>, steps: seq<Step>, w: nat)
    requires w < |names|
    ensures var events, uttered := Picked(HearsRelevant(w), EventOf, steps), Uttered(names, steps, w);
      |events| == |uttered| && forall k :: 0 <= k < |events| ==> Carries(uttered[k], events[k], names[w])
  {
    if steps != [] {
      var init, last := steps[..|steps| - 1], steps[|steps| - 1];
      UtteredEvents(names, init, w);
      UttersHeard(names, last, w);
      assert Uttered(names, steps, w) == Uttered(names, init, w) + Utters(names, last, w);
      assert Picked(HearsRelevant(w), EventOf, steps) ==
             Picked(HearsRelevant(w), EventOf, init) + if HearsRelevant(w)(last) then [EventOf(last)] else [];
    }
  }

  lemma {:induction false} UtteredLines(names: seq<string>, steps: seq<Step>)
    ensures var lines, uttered := Picked(IsTyped, LineTyped, steps), Uttered(names, steps, |names|);
      |lines| == |uttered| && forall k :: 0 <= k < |lines| ==> uttered[k].sender == None && uttered[k].parts == [Words(lines[k])]
  {
    if steps != [] {
      UtteredLines(names, steps[..|steps| - 1]);
    }
  }

  lemma {:induction false} FromIsPicked(enqueued: seq<Request>, w: nat)
    ensures var messages := Picked(ComesFrom(w), MessageOf, enqueued);
      |messages| == |From(enqueued, w)| && forall k :: 0 <= k < |messages| ==> From(enqueued, w)[k] == Unstamped(messages[k])
  {
    if enqueued != [] {
      FromIsPicked(enqueued[..|enqueued| - 1], w);
    }
  }

  /** What is enqueued for `j` from worker `w` are the messages that `w` has begun, but for one it still has. */
  lemma EnqueuedAreUttered(names: seq<string>, steps: seq<Step>, w: nat, j: nat)
    requires w <= |names| && j < |names| && j != w && CanRun(Start(names), steps)
    ensures var s, uttered := After(Start(names), steps), Uttered(names, steps, w);
      && j < |s.agents|
      && var messages := Picked(ComesFrom(w), MessageOf, s.agents[j].enqueued);
         && |messages| + (if StillHas(PhaseOf(s, w), j) then 1 else 0) == |uttered|
         && forall k :: 0 <= k < |messages| ==> uttered[k] == Unstamped(messages[k])
  {
    var s := After(Start(names), steps);
    EverythingIsDelivered(names, steps, w, j);
    FromIsPicked(s.agents[j].enqueued, w);
  }

  /** In every run, what agent `j` is sent of another agent's stream is that stream's events, each under the
      name of its agent and nothing else besides. */
  lemma EventsAreForwarded(names: seq<string>, steps: seq<Step>, w: nat, j: nat)
    requires w < |names| && j < |names| && j != w && CanRun(Start(names), steps)
    ensures exists events, messages :: HoldsEvents(names[w], After(Start(names), steps), steps, w, j, events, messages)
  {
    var s := After(Start(names), steps);
    EnqueuedAreUttered(names, steps, w, j);
    UtteredEvents(names, steps, w);
    PickedIsListed(HearsRelevant(w), EventOf, steps);
    PickedIsListed(ComesFrom(w), MessageOf, s.agents[j].enqueued);
    assert HoldsEvents(names[w], s, steps, w, j, Picked(HearsRelevant(w), EventOf, steps), Picked(ComesFrom(w), MessageOf, s.agents[j].enqueued));
  }

  /** And what it is sent by the user is the lines typed, without a sender. */
  lemma LinesAreForwarded(names: seq<string>, steps: seq<Step>, j: nat)
    requires j < |names| && CanRun(Start(names), steps)
    ensures exists lines, messages :: HoldsLines(After(Start(names), steps), steps, |names|, j, lines, messages)
  {
    var s, w := After(Start(names), steps), |names|;
    EnqueuedAreUttered(names, steps, w, j);
    UtteredLines(names, steps);
    PickedIsListed(IsTyped, LineTyped, steps);
    PickedIsListed(ComesFrom(w), MessageOf, s.agents[j].enqueued);
    assert HoldsLines(s, steps, w, j, Picked(IsTyped, LineTyped, steps), Picked(ComesFrom(w), MessageOf, s.agents[j].enqueued));
  }

  // When a request is stamped.

  /** The state after the first `i` steps. */
  ghost function At(s: State, steps: seq<Step>, i: nat): State {
    if i <= |steps| && CanRun(s, steps[..i]) then After(s, steps[..i]) else s
  }

  /** From the state after `a` steps to that after `b` steps worker `w` does nothing. */
  ghost predicate Rests(s: State, steps: seq<Step>, w: nat, a: nat, b: nat) {
    forall i: nat :: a <= i <= b ==> PhaseOf(At(s, steps, i), w) == PhaseOf(At(s, steps, a), w)
  }

  lemma {:induction false} PrefixRuns(s: State, steps: seq<Step>, i: nat)
    requires CanRun(s, steps) && i <= |steps|
    ensures CanRun(s, steps[..i])
  {
    if i == |steps| {
      assert steps[..i] == steps;
    } else {
      PrefixRuns(s, steps[..|steps| - 1], i);
      assert steps[..|steps| - 1][..i] == steps[..i];
    }
  }

  /** The states along a run, and along its part without the last step. */
  lemma RunStates(s: State, steps: seq<Step>)
    requires CanRun(s, steps)
    ensures At(s, steps, |steps|) == After(s, steps)
    ensures steps != [] ==> forall i: nat :: i < |steps| ==> At(s, steps[..|steps| - 1], i) == At(s, steps, i)
    ensures steps != [] ==>
              var t := At(s, steps, |steps| - 1);
              Enabled(t, steps[|steps| - 1]) && After(s, steps) == Next(t, steps[|steps| - 1]) && t == After(s, steps[..|steps| - 1])
  {
    assert steps[..|steps|] == steps;
    if steps != [] {
      var before := steps[..|steps| - 1];
      forall i: nat | i < |steps|
        ensures before[..i] == steps[..i]
      {
      }
    }
  }

  lemma StepAt(s: State, steps: seq<Step>, i: nat)
    requires CanRun(s, steps) && i < |steps|
    ensures Enabled(At(s, steps, i), steps[i]) && At(s, steps, i + 1) == Next(At(s, steps, i), steps[i])
  {
    PrefixRuns(s, steps, i);
    PrefixRuns(s, steps, i + 1);
    RunStates(s, steps[..i + 1]);
    assert steps[..i + 1][..i] == steps[..i];
  }

  lemma RestsOn(s: State, steps: seq<Step>, w: nat, a: nat)
    requires CanRun(s, steps) && steps != [] && a < |steps|
    requires Rests(s, steps[..|steps| - 1], w, a, |steps| - 1)
    ensures Rests(s, steps, w, a, |steps| - 1)
    ensures PhaseOf(At(s, steps, |steps| - 1), w) == PhaseOf(After(s, steps), w) ==> Rests(s, steps, w, a, |steps|)
  {
    RunStates(s, steps);
    forall i: nat | a <= i < |steps|
      ensures PhaseOf(At(s, steps, i), w) == PhaseOf(At(s, steps, a), w)
    {
      assert At(s, steps[..|steps| - 1], i) == At(s, steps, i);
    }
  }

  lemma RestsBefore(s: State, steps: seq<Step>, w: nat, a: nat, b: nat)
    requires CanRun(s, steps) && steps != [] && b < |steps| && Rests(s, steps[..|steps| - 1], w, a, b)
    ensures Rests(s, steps, w, a, b)
  {
    RunStates(s, steps);
    forall i: nat | a <= i <= b
      ensures PhaseOf(At(s, steps, i), w) == PhaseOf(At(s, steps, a), w)
    {
      assert At(s, steps[..|steps| - 1], i) == At(s, steps, i);
    }
  }

  /** Which step brings a worker into the phases of stamping. */
  lemma StepStamps(s: State, step: Step, w: nat)
    requires Enabled(s, step) && PhaseOf(Next(s, step), w) != PhaseOf(s, w)
    ensures var before, after := PhaseOf(s, w), PhaseOf(Next(s, step), w);
      && (after.HalfStamped? ==> step == ReadTask(w) && before.Turning? && after.target == before.target)
      && (after.Stamped? ==> step == ReadContext(w) && before.HalfStamped? && after.target == before.target)
  {
  }

  lemma StepEnqueues(s: State, step: Step, j: nat)
    requires Enabled(s, step) && j < |s.agents|
    ensures j < |Next(s, step).agents|
    ensures Next(s, step).agents[j].enqueued ==
              s.agents[j].enqueued
              + if step.Enqueue? && PhaseOf(s, step.w).Stamped? && PhaseOf(s, step.w).target == j then [PhaseOf(s, step.w).request] else []
  {
  }

  /** Step `p` reads the task id with which worker `w` is stamping a request for agent `j`. */
  ghost predicate ReadsTaskAt(s: State, steps: seq<Step>, w: nat, j: nat, p: nat) {
    p < |steps| && steps[p] == ReadTask(w) && PhaseOf(At(s, steps, p), w).Turning? && PhaseOf(At(s, steps, p), w).target == j
  }

  /** Request `k` of agent `j` is enqueued by step `q`; step `p` has read the task id it carries, and step
      `c` the context id; meanwhile its worker does nothing else. */
  ghost predicate StampedBy(s: State, steps: seq<Step>, j: nat, k: nat, p: nat, c: nat, q: nat) {
    && p < c < q < |steps| && steps[p].ReadTask?
    && var w := steps[p].w;
    && ReadsTaskAt(s, steps, w, j, p)
    && steps[c] == ReadContext(w) && Rests(s, steps, w, p + 1, c)
    && steps[q] == Enqueue(w) && Rests(s, steps, w, c + 1, q)
    && j < |At(s, steps, q).agents| && |At(s, steps, q).agents[j].enqueued| == k
  }

  lemma ReadsTaskBefore(s: State, steps: seq<Step>, w: nat, j: nat, p: nat)
    requires CanRun(s, steps) && steps != [] && ReadsTaskAt(s, steps[..|steps| - 1], w, j, p)
    ensures ReadsTaskAt(s, steps, w, j, p)
  {
    RunStates(s, steps);
    assert At(s, steps[..|steps| - 1], p) == At(s, steps, p);
  }

  lemma StartIsIdle(names: seq<string>, w: nat)
    ensures PhaseOf(Start(names), w).Idle?
  {
  }

  lemma {:induction false} HalfHistory(names: seq<string>, steps: seq<Step>, w: nat) returns (p: nat)
    requires CanRun(Start(names), steps) && PhaseOf(After(Start(names), steps), w).HalfStamped?
    ensures ReadsTaskAt(Start(names), steps, w, PhaseOf(After(Start(names), steps), w).target, p)
    ensures Rests(Start(names), steps, w, p + 1, |steps|)
  {
    var s := Start(names);
    StartIsIdle(names, w);
    RunStates(s, steps);
    var before, last := steps[..|steps| - 1], steps[|steps| - 1];
    if PhaseOf(After(s, before), w) == PhaseOf(After(s, steps), w) {
      p := HalfHistory(names, before, w);
      ReadsTaskBefore(s, steps, w, PhaseOf(After(s, steps), w).target, p);
      RestsOn(s, steps, w, p + 1);
    } else {
      StepStamps(After(s, before), last, w);
      p := |before|;
    }
  }

  /** The request that worker `w` is about to enqueue for agent `j` was stamped by steps `p` and `c`. */
  ghost predicate StampedSince(s: State, steps: seq<Step>, w: nat, j: nat, p: nat, c: nat) {
    && ReadsTaskAt(s, steps, w, j, p)
    && p < c < |steps| && steps[c] == ReadContext(w)
    && Rests(s, steps, w, p + 1, c) && Rests(s, steps, w, c + 1, |steps|)
  }

  lemma StampStays(s: State, steps: seq<Step>, w: nat, j: nat, p: nat, c: nat)
    requires CanRun(s, steps) && steps != [] && StampedSince(s, steps[..|steps| - 1], w, j, p, c)
    requires PhaseOf(At(s, steps, |steps| - 1), w) == PhaseOf(After(s, steps), w)
    ensures StampedSince(s, steps, w, j, p, c)
  {
    ReadsTaskBefore(s, steps, w, j, p);
    RestsBefore(s, steps, w, p + 1, c);
    RestsOn(s, steps, w, c + 1);
  }

  lemma RestsAtOnce(s: State, steps: seq<Step>, w: nat, a: nat)
    ensures Rests(s, steps, w, a, a)
  {
  }

  lemma StampBegins(s: State, steps: seq<Step>, w: nat, j: nat, p: nat)
    requires CanRun(s, steps) && steps != [] && steps[|steps| - 1] == ReadContext(w)
    requires ReadsTaskAt(s, steps[..|steps| - 1], w, j, p) && Rests(s, steps[..|steps| - 1], w, p + 1, |steps| - 1)
    ensures StampedSince(s, steps, w, j, p, |steps| - 1)
  {
    ReadsTaskBefore(s, steps, w, j, p);
    RestsBefore(s, steps, w, p + 1, |steps| - 1);
    RestsAtOnce(s, steps, w, |steps|);
  }

  lemma {:induction false} StampHistory(names: seq<string>, steps: seq<Step>, w: nat) returns (p: nat, c: nat)
    requires CanRun(Start(names), steps) && PhaseOf(After(Start(names), steps), w).Stamped?
    ensures StampedSince(Start(names), steps, w, PhaseOf(After(Start(names), steps), w).target, p, c)
  {
    var s := Start(names);
    StartIsIdle(names, w);
    RunStates(s, steps);
    var before, j := steps[..|steps| - 1], PhaseOf(After(s, steps), w).target;
    if PhaseOf(After(s, before), w) == PhaseOf(After(s, steps), w) {
      p, c := StampHistory(names, before, w);
      StampStays(s, steps, w, j, p, c);
    } else {
      StepStamps(After(s, before), steps[|steps| - 1], w);
      p := HalfHistory(names, before, w);
      c := |before|;
      StampBegins(s, steps, w, j, p);
    }
  }

  lemma StampedBefore(s: State, steps: seq<Step>, j: nat, k: nat, p: nat, c: nat, q: nat)
    requires CanRun(s, steps) && steps != [] && StampedBy(s, steps[..|steps| - 1], j, k, p, c, q)
    ensures StampedBy(s, steps, j, k, p, c, q)
  {
    var w := steps[p].w;
    RunStates(s, steps);
    assert At(s, steps[..|steps| - 1], q) == At(s, steps, q);
    ReadsTaskBefore(s, steps, w, j, p);
    RestsBefore(s, steps, w, p + 1, c);
    RestsBefore(s, steps, w, c + 1, q);
  }

  lemma EnqueueEnds(s: State, steps: seq<Step>, w: nat, j: nat, k: nat, p: nat, c: nat)
    requires CanRun(s, steps) && steps != [] && steps[|steps| - 1] == Enqueue(w)
    requires StampedSince(s, steps[..|steps| - 1], w, j, p, c)
    requires j < |After(s, steps[..|steps| - 1]).agents| && k == |After(s, steps[..|steps| - 1]).agents[j].enqueued|
    ensures StampedBy(s, steps, j, k, p, c, |steps| - 1)
  {
    ReadsTaskBefore(s, steps, w, j, p);
    RestsBefore(s, steps, w, p + 1, c);
    RestsBefore(s, steps, w, c + 1, |steps| - 1);
  }

  lemma LastEnqueues(s: State, steps: seq<Step>, j: nat, k: nat)
    requires CanRun(s, steps) && j < |After(s, steps).agents| && k < |After(s, steps).agents[j].enqueued|
    requires forall i :: 0 <= i < |s.agents| ==> s.agents[i].enqueued == []
    ensures steps != []
    ensures var t, last := After(s, steps[..|steps| - 1]), steps[|steps| - 1];
      && j < |t.agents|
      && (k < |t.agents[j].enqueued|
          || (last.Enqueue? && PhaseOf(t, last.w).Stamped? && PhaseOf(t, last.w).target == j && k == |t.agents[j].enqueued|))
  {
    var t, last := After(s, steps[..|steps| - 1]), steps[|steps| - 1];
    assert After(s, steps) == Next(t, last);
    StepKeepsCount(t, last);
    StepEnqueues(t, last, j);
  }

  lemma NothingEnqueued(names: seq<string>)
    ensures forall i :: 0 <= i < |Start(names).agents| ==> Start(names).agents[i].enqueued == []
  {
  }

  /** Every request that was enqueued was stamped by steps of the run. */
  lemma {:induction false} EveryRequestWasStamped(names: seq<string>, steps: seq<Step>, j: nat, k: nat) returns (p: nat, c: nat, q: nat)
    requires CanRun(Start(names), steps) && j < |After(Start(names), steps).agents| && k < |After(Start(names), steps).agents[j].enqueued|
    ensures StampedBy(Start(names), steps, j, k, p, c, q)
  {
    NothingEnqueued(names);
    LastEnqueues(Start(names), steps, j, k);
    var before := steps[..|steps| - 1];
    if k < |After(Start(names), before).agents[j].enqueued| {
      p, c, q := EveryRequestWasStamped(names, before, j, k);
      StampedBefore(Start(names), steps, j, k, p, c, q);
    } else {
      var w := steps[|before|].w;
      p, c := StampHistory(names, before, w);
      q := |before|;
      EnqueueEnds(Start(names), steps, w, j, k, p, c);
    }
  }

  lemma {:induction false} EnqueuedGrows(s: State, steps: seq<Step>, i: nat, j: nat)
    requires CanRun(s, steps) && i <= |steps| && j < |At(s, steps, i).agents|
    ensures j < |After(s, steps).agents| && At(s, steps, i).agents[j].enqueued <= After(s, steps).agents[j].enqueued
  {
    RunStates(s, steps);
    if i < |steps| {
      var before := steps[..|steps| - 1];
      assert At(s, before, i) == At(s, steps, i);
      EnqueuedGrows(s, before, i, j);
      StepEnqueues(After(s, before), steps[|steps| - 1], j);
    }
  }

  lemma TaskStep(s: State, w: nat)
    requires Enabled(s, ReadTask(w))
    ensures PhaseOf(s, w).Turning? && PhaseOf(s, w).target < |s.agents|
    ensures var j, half := PhaseOf(s, w).target, PhaseOf(Next(s, ReadTask(w)), w);
      half.HalfStamped? && half.target == j && half.taskId == s.agents[j].taskId
  {
  }

  lemma ContextStep(s: State, w: nat)
    requires Enabled(s, ReadContext(w))
    ensures PhaseOf(s, w).HalfStamped? && PhaseOf(s, w).target < |s.agents|
    ensures var half, full := PhaseOf(s, w), PhaseOf(Next(s, ReadContext(w)), w);
      && full.Stamped? && full.target == half.target && full.request.origin == w
      && full.request.message.taskId == half.taskId && full.request.message.contextId == s.agents[half.target].contextId
  {
  }

  lemma EnqueueStep(s: State, w: nat)
    requires Enabled(s, Enqueue(w))
    ensures PhaseOf(s, w).Stamped? && PhaseOf(s, w).target < |s.agents|
    ensures var j := PhaseOf(s, w).target;
      j < |Next(s, Enqueue(w)).agents| && Next(s, Enqueue(w)).agents[j].enqueued == s.agents[j].enqueued + [PhaseOf(s, w).request]
  {
  }

  lemma TaskWasRead(s: State, steps: seq<Step>, w: nat, j: nat, p: nat, c: nat)
    requires CanRun(s, steps) && ReadsTaskAt(s, steps, w, j, p) && p < c && Rests(s, steps, w, p + 1, c)
    ensures j < |At(s, steps, p).agents|
    ensures var half := PhaseOf(At(s, steps, c), w);
      half.HalfStamped? && half.target == j && half.taskId == At(s, steps, p).agents[j].taskId
  {
    StepAt(s, steps, p);
    TaskStep(At(s, steps, p), w);
    assert PhaseOf(At(s, steps, c), w) == PhaseOf(At(s, steps, p + 1), w);
  }

  lemma ContextWasRead(s: State, steps: seq<Step>, w: nat, c: nat, q: nat)
    requires CanRun(s, steps) && c < q < |steps| && steps[c] == ReadContext(w) && Rests(s, steps, w, c + 1, q)
    ensures var half, full := PhaseOf(At(s, steps, c), w), PhaseOf(At(s, steps, q), w);
      && half.HalfStamped? && half.target < |At(s, steps, c).agents|
      && full.Stamped? && full.target == half.target && full.request.origin == w
      && full.request.message.taskId == half.taskId
      && full.request.message.contextId == At(s, steps, c).agents[half.target].contextId
  {
    StepAt(s, steps, c);
    ContextStep(At(s, steps, c), w);
    assert PhaseOf(At(s, steps, q), w) == PhaseOf(At(s, steps, c + 1), w);
  }

  lemma WasEnqueued(s: State, steps: seq<Step>, w: nat, j: nat, k: nat, q: nat)
    requires CanRun(s, steps) && q < |steps| && steps[q] == Enqueue(w)
    requires PhaseOf(At(s, steps, q), w).Stamped? ==> PhaseOf(At(s, steps, q), w).target == j
    requires j < |At(s, steps, q).agents| && |At(s, steps, q).agents[j].enqueued| == k
    ensures j < |After(s, steps).agents| && k < |After(s, steps).agents[j].enqueued|
    ensures PhaseOf(At(s, steps, q), w).Stamped? && After(s, steps).agents[j].enqueued[k] == PhaseOf(At(s, steps, q), w).request
  {
    StepAt(s, steps, q);
    EnqueueStep(At(s, steps, q), w);
    EnqueuedGrows(s, steps, q + 1, j);
  }

  /** What the steps of stamping put together. */
  lemma StampHolds(s: State, steps: seq<Step>, j: nat, k: nat, p: nat, c: nat, q: nat)
    requires CanRun(s, steps) && StampedBy(s, steps, j, k, p, c, q)
    ensures j < |At(s, steps, p).agents| && j < |At(s, steps, c).agents| && j < |After(s, steps).agents|
    ensures k < |After(s, steps).agents[j].enqueued|
    ensures var request := After(s, steps).agents[j].enqueued[k];
      && request.origin == steps[p].w
      && request.message.taskId == At(s, steps, p).agents[j].taskId
      && request.message.contextId == At(s, steps, c).agents[j].contextId
  {
    var w := steps[p].w;
    TaskWasRead(s, steps, w, j, p, c);
    ContextWasRead(s, steps, w, c, q);
    WasEnqueued(s, steps, w, j, k, q);
  }

  /** The task id of a request is right exactly if its target had one on record at the step that read it,
      which comes before the request is enqueued; so is the context id, unless the target's is empty. */
  lemma StampIsRightIff(names: seq<string>, steps: seq<Step>, j: nat, k: nat, p: nat, c: nat, q: nat)
    requires CanRun(Start(names), steps) && StampedBy(Start(names), steps, j, k, p, c, q)
    ensures j < |At(Start(names), steps, p).agents| && j < |At(Start(names), steps, c).agents| && j < |After(Start(names), steps).agents|
    ensures k < |After(Start(names), steps).agents[j].enqueued|
    ensures var a, request := After(Start(names), steps).agents[j], After(Start(names), steps).agents[j].enqueued[k];
      a.given.Some? ==>
        && (request.message.taskId == IdOf(a.given.value) <==> At(Start(names), steps, p).agents[j].taskId != "")
        && (request.message.contextId == ContextOf(a.given.value) <==>
              ContextOf(a.given.value) == "" || At(Start(names), steps, c).agents[j].contextId != "")
  {
    var s := Start(names);
    StampHolds(s, steps, j, k, p, c, q);
    StartInv(names);
    RunKeepsInv(s, steps);
    var a := After(s, steps).agents[j];
    assert AgentOk(a, j);
    assert StampFits(a, a.enqueued[k]);
  }

  // A request that is held back can go out with an empty id.

  lemma RunSnoc(s: State, steps: seq<Step>, step: Step)
    requires CanRun(s, steps) && Enabled(After(s, steps), step)
    ensures CanRun(s, steps + [step]) && After(s, steps + [step]) == Next(After(s, steps), step)
  {
    assert (steps + [step])[..|steps|] == steps;
  }

  /** A relay with one agent. */
  function One(a: Agent, reader: Phase, caster: Phase, heard: seq<Message>, typed: seq<Message>): State {
    State([a], [reader, caster], [heard, typed])
  }

  function Unaddressed(text: string): Request {
    Request(1, NewMessage(text), false, false)
  }

  lemma CastSteps(a: Agent, reader: Phase, heard: seq<Message>, typed: seq<Message>, text: string)
    requires a.taskId == "" && a.contextId == "" && !a.taskRecorded && !a.contextRecorded && |a.queue| < CAPACITY
    ensures var msg, all := NewMessage(text), typed + [NewMessage(text)];
      && Enabled(One(a, reader, Idle, heard, typed), Broadcast(text))
      && Next(One(a, reader, Idle, heard, typed), Broadcast(text)) == One(a, reader, Turning(msg, 0), heard, all)
      && Enabled(One(a, reader, Turning(msg, 0), heard, all), ReadTask(1))
      && Next(One(a, reader, Turning(msg, 0), heard, all), ReadTask(1)) == One(a, reader, HalfStamped(msg, 0, "", false), heard, all)
      && Enabled(One(a, reader, HalfStamped(msg, 0, "", false), heard, all), ReadContext(1))
      && Next(One(a, reader, HalfStamped(msg, 0, "", false), heard, all), ReadContext(1)) == One(a, reader, Stamped(msg, 0, Unaddressed(text)), heard, all)
      && Enabled(One(a, reader, Stamped(msg, 0, Unaddressed(text)), heard, all), Enqueue(1))
      && Next(One(a, reader, Stamped(msg, 0, Unaddressed(text)), heard, all), Enqueue(1)) == One(Grown(a, Unaddressed(text)), reader, Turning(msg, 1), heard, all)
      && Enabled(One(Grown(a, Unaddressed(text)), reader, Turning(msg, 1), heard, all), Finish(1))
      && Next(One(Grown(a, Unaddressed(text)), reader, Turning(msg, 1), heard, all), Finish(1)) == One(Grown(a, Unaddressed(text)), reader, Idle, heard, all)
  {
  }

  /** The user types a line before the agent's task has arrived. */
  lemma Cast(s: State, steps: seq<Step>, a: Agent, reader: Phase, heard: seq<Message>, typed: seq<Message>, text: string) returns (longer: seq<Step>)
    requires a.taskId == "" && a.contextId == "" && !a.taskRecorded && !a.contextRecorded && |a.queue| < CAPACITY
    requires CanRun(s, steps) && After(s, steps) == One(a, reader, Idle, heard, typed)
    ensures CanRun(s, longer)
    ensures After(s, longer) == One(Grown(a, Unaddressed(text)), reader, Idle, heard, typed + [NewMessage(text)])
  {
    CastSteps(a, reader, heard, typed, text);
    longer := steps;
    RunSnoc(s, longer, Broadcast(text));
    longer := longer + [Broadcast(text)];
    RunSnoc(s, longer, ReadTask(1));
    longer := longer + [ReadTask(1)];
    RunSnoc(s, longer, ReadContext(1));
    longer := longer + [ReadContext(1)];
    RunSnoc(s, longer, Enqueue(1));
    longer := longer + [Enqueue(1)];
    RunSnoc(s, longer, Finish(1));
    longer := longer + [Finish(1)];
  }

  lemma OpenSteps(a: Agent, typed: seq<Message>, one: Request, two: Request)
    requires a == Agent("a", "", "", [one, two], false, None, false, None, false, false, [one, two], [])
    ensures var b, c := a.(first := Some(one), queue := [two]), a.(first := Some(one), queue := [two], streaming := true, sent := [one]);
      && Enabled(One(a, Idle, Idle, [], typed), TakeFirst(0))
      && Next(One(a, Idle, Idle, [], typed), TakeFirst(0)) == One(b, Idle, Idle, [], typed)
      && Enabled(One(b, Idle, Idle, [], typed), OpenStream(0))
      && Next(One(b, Idle, Idle, [], typed), OpenStream(0)) == One(c, Idle, Idle, [], typed)
  {
    assert [one, two][1..] == [two] && [] + [one] == [one];
  }

  function WithTask(a: Agent, task: Event): Agent
    requires task.TaskEvent?
  {
    a.(given := Some(task), taskId := task.id, taskRecorded := true, contextId := task.contextId, contextRecorded := true, ready := true)
  }

  lemma AnnounceSteps(a: Agent, typed: seq<Message>, task: Event)
    requires a.streaming && a.given == None && task.TaskEvent? && task.id != ""
    ensures var b := a.(given := Some(task));
      var c := b.(taskId := task.id, taskRecorded := true);
      var d := c.(contextId := task.contextId, contextRecorded := true);
      && Enabled(One(a, Idle, Idle, [], typed), Hear(0, task))
      && Next(One(a, Idle, Idle, [], typed), Hear(0, task)) == One(b, RecordTask(task), Idle, [], typed)
      && Enabled(One(b, RecordTask(task), Idle, [], typed), Record(0))
      && Next(One(b, RecordTask(task), Idle, [], typed), Record(0)) == One(c, RecordContext(task), Idle, [], typed)
      && Enabled(One(c, RecordContext(task), Idle, [], typed), Record(0))
      && Next(One(c, RecordContext(task), Idle, [], typed), Record(0)) == One(d, OpenGate(task), Idle, [], typed)
      && Enabled(One(d, OpenGate(task), Idle, [], typed), Record(0))
      && Next(One(d, OpenGate(task), Idle, [], typed), Record(0)) ==
           One(WithTask(a, task), Turning(TranslateEvent(task, a.name).value, 0), Idle, [TranslateEvent(task, a.name).value], typed)
  {
    assert [] + [TranslateEvent(task, a.name).value] == [TranslateEvent(task, a.name).value];
  }

  lemma RestStep(a: Agent, reader: Phase, heard: seq<Message>, typed: seq<Message>, one: Request, two: Request)
    requires a.first.Some? && a.streaming && a.ready && a.queue == [two] && a.sent == [one]
    ensures Enabled(One(a, reader, Idle, heard, typed), SendRest(0))
    ensures Next(One(a, reader, Idle, heard, typed), SendRest(0)) == One(a.(queue := [], sent := [one, two]), reader, Idle, heard, typed)
  {
    assert [two][1..] == [] && [one] + [two] == [one, two];
  }

  lemma Announce(s: State, steps: seq<Step>, a: Agent, typed: seq<Message>, task: Event) returns (longer: seq<Step>)
    requires a.streaming && a.given == None && task.TaskEvent? && task.id != ""
    requires CanRun(s, steps) && After(s, steps) == One(a, Idle, Idle, [], typed)
    ensures CanRun(s, longer)
    ensures var msg := TranslateEvent(task, a.name).value;
      After(s, longer) == One(WithTask(a, task), Turning(msg, 0), Idle, [msg], typed)
  {
    AnnounceSteps(a, typed, task);
    RunSnoc(s, steps, Hear(0, task));
    longer := steps + [Hear(0, task)];
    RunSnoc(s, longer, Record(0));
    longer := longer + [Record(0)];
    RunSnoc(s, longer, Record(0));
    longer := longer + [Record(0)];
    RunSnoc(s, longer, Record(0));
    longer := longer + [Record(0)];
  }

  /** The agent's stream opens, its task arrives and is recorded, and what was held back goes out. */
  lemma Answer(s: State, steps: seq<Step>, a: Agent, typed: seq<Message>, one: Request, two: Request, task: Event) returns (longer: seq<Step>)
    requires a == Agent("a", "", "", [one, two], false, None, false, None, false, false, [one, two], [])
    requires task.TaskEvent? && task.id != ""
    requires CanRun(s, steps) && After(s, steps) == One(a, Idle, Idle, [], typed)
    ensures CanRun(s, longer)
    ensures After(s, longer).agents == [Agent("a", task.id, task.contextId, [], true, Some(one), true, Some(task), true, true, [one, two], [one, two])]
  {
    OpenSteps(a, typed, one, two);
    RunSnoc(s, steps, TakeFirst(0));
    longer := steps + [TakeFirst(0)];
    RunSnoc(s, longer, OpenStream(0));
    longer := longer + [OpenStream(0)];
    var b := a.(first := Some(one), queue := [two], streaming := true, sent := [one]);
    longer := Announce(s, longer, b, typed, task);
    var msg := TranslateEvent(task, b.name).value;
    RestStep(WithTask(b, task), Turning(msg, 0), [msg], typed, one, two);
    RunSnoc(s, longer, SendRest(0));
    longer := longer + [SendRest(0)];
  }

  /** The gate does not help a request that was stamped too early: two lines typed before the agent's
      task arrives are both stamped with empty ids, and the second goes out that way although the
      task is known by then. */
  lemma HeldBackRequestCanBeUnstamped()
    ensures exists steps :: CanRun(Start(["a"]), steps) && |After(Start(["a"]), steps).agents| == 1
              && var a := After(Start(["a"]), steps).agents[0];
                 a.ready && a.taskId == "t" && |a.sent| == 2 && a.sent[1].message.taskId == ""
  {
    var s := Start(["a"]);
    var a := Agent("a", "", "", [], false, None, false, None, false, false, [], []);
    var one, two := Unaddressed("x"), Unaddressed("y");
    assert s == One(a, Idle, Idle, [], []);
    assert [] + [NewMessage("x")] == [NewMessage("x")];
    assert [NewMessage("x")] + [NewMessage("y")] == [NewMessage("x"), NewMessage("y")];
    var steps := Cast(s, [], a, Idle, [], [], "x");
    steps := Cast(s, steps, Grown(a, one), Idle, [], [NewMessage("x")], "y");
    var b := Grown(Grown(a, one), two);
    assert b == Agent("a", "", "", [one, two], false, None, false, None, false, false, [one, two], []);
    steps := Answer(s, steps, b, [NewMessage("x"), NewMessage("y")], one, two, TaskEvent("t", "c"));
  }
}
