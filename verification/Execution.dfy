/** The loop that all executors share: read an input, open a task on the first message, react, and
    complete the task when the input queue shuts down. The reaction itself is a parameter. */
module Execution {
  import opened Sequences
  import opened Options
  import opened Wire
  import opened Relay

  /** One status update with a message. */
  datatype Update = Update(state: TaskState, text: string)

  /** A message as an executor reads it. */
  datatype Line = Line(sender: string, text: string)

  /** `crashed` is set when the reaction raises an error, which ends the loop. */
  datatype Reaction<M> = Reaction(memory: M, updates: seq<Update>, crashed: bool)

  /** The reactions to a sequence of messages; nothing is read after a crash. */
  function Mind<M>(react: (M, Line) -> Reaction<M>, m: M, lines: seq<Line>): Reaction<M> {
    if lines == [] then Reaction(m, [], false)
    else
      var before := Mind(react, m, lines[..|lines| - 1]);
      if before.crashed then before
      else
        var next := react(before.memory, lines[|lines| - 1]);
        Reaction(next.memory, before.updates + next.updates, next.crashed)
  }

  /** `task` is set by the first message; `stopped` once the loop has ended. */
  datatype Executor<M> = Executor(name: string, memory: M, task: Option<Task>, stopped: bool)

  function NewTask(msg: Message): Task {
    Task(msg.taskId, msg.contextId)
  }

  function LineOf(msg: Message): Line {
    Line(GetMessageSender(msg), GetMessageText(msg))
  }

  function UpdateResponse(name: string, task: Task, update: Update): Response {
    StatusResponse(StatusUpdate(task.id, task.contextId, update.state, Some(MakeAgentMessage(update.text, name, task))))
  }

  function Completion(task: Task): Response {
    StatusResponse(StatusUpdate(task.id, task.contextId, Completed, None))
  }

  function UpdateResponses(name: string, task: Task, updates: seq<Update>): (r: seq<Response>)
    ensures |r| == |updates|
    ensures forall i :: 0 <= i < |r| ==> r[i] == UpdateResponse(name, task, updates[i])
  {
    seq(|updates|, i requires 0 <= i < |updates| => UpdateResponse(name, task, updates[i]))
  }

  function TaskOf<M>(x: Executor<M>, msg: Message): Task {
    if x.task.Some? then x.task.value else NewTask(msg)
  }

  /** What one input makes the executor emit: the task on the first message, then the reaction; the
      completion when the input queue shuts down, if there is a task to complete. */
  function Emit<M>(react: (M, Line) -> Reaction<M>, x: Executor<M>, slot: Slot): seq<Response> {
    if x.stopped then []
    else match slot
      case Sentinel => if x.task.Some? then [Completion(x.task.value)] else []
      case Item(request) =>
        if !request.MessageRequest? then []
        else
          var task := TaskOf(x, request.message);
          var reaction := react(x.memory, LineOf(request.message));
          (if x.task.Some? then [] else [TaskResponse(task)])
          + UpdateResponses(x.name, task, reaction.updates)
          + if reaction.crashed then [Completion(task)] else []
  }

  function Receive<M>(react: (M, Line) -> Reaction<M>, x: Executor<M>, slot: Slot): Executor<M> {
    if x.stopped then x
    else match slot
      case Sentinel => x.(stopped := true)
      case Item(request) =>
        if !request.MessageRequest? then x
        else
          var reaction := react(x.memory, LineOf(request.message));
          x.(memory := reaction.memory, task := Some(TaskOf(x, request.message)), stopped := reaction.crashed)
  }

  function Upto<M>(react: (M, Line) -> Reaction<M>, x: Executor<M>, slots: seq<Slot>): Executor<M> {
    if slots == [] then x else Receive(react, Upto(react, x, slots[..|slots| - 1]), slots[|slots| - 1])
  }

  function Events<M>(react: (M, Line) -> Reaction<M>, x: Executor<M>, slots: seq<Slot>): seq<Response> {
    if slots == [] then []
    else
      var init := slots[..|slots| - 1];
      Events(react, x, init) + Emit(react, Upto(react, x, init), slots[|slots| - 1])
  }

  function Boot<M>(name: string, m: M): Executor<M> {
    Executor(name, m, None, false)
  }

  /** The messages among the inputs before the first shutdown. */
  function Heard(slots: seq<Slot>): seq<Message> {
    if slots == [] then []
    else
      var last := slots[|slots| - 1];
      Heard(slots[..|slots| - 1])
      + if Sentinel !in slots && last.request.MessageRequest? then [last.request.message] else []
  }

  function Lines(messages: seq<Message>): (r: seq<Line>)
    ensures |r| == |messages|
    ensures forall i :: 0 <= i < |r| ==> r[i] == LineOf(messages[i])
  {
    seq(|messages|, i requires 0 <= i < |messages| => LineOf(messages[i]))
  }

  // The shape of every trace.

  /** The task, the updates, and the completion if the loop has ended; nothing without a message. */
  function Trace(name: string, messages: seq<Message>, updates: seq<Update>, ended: bool): seq<Response> {
    if messages == [] then []
    else
      var task := NewTask(messages[0]);
      [TaskResponse(task)] + UpdateResponses(name, task, updates) + if ended then [Completion(task)] else []
  }

  lemma InTrace(name: string, messages: seq<Message>, updates: seq<Update>, ended: bool, response: Response)
    requires response in Trace(name, messages, updates, ended)
    ensures messages != []
    ensures var task := NewTask(messages[0]);
      || response == TaskResponse(task)
      || response == Completion(task)
      || exists u :: u in updates && response == UpdateResponse(name, task, u)
  {
    var task := NewTask(messages[0]);
    if response in UpdateResponses(name, task, updates) {
      var k :| 0 <= k < |updates| && UpdateResponses(name, task, updates)[k] == response;
      assert updates[k] in updates;
    }
  }

  lemma UpdateText(name: string, task: Task, update: Update)
    ensures ResponseText(UpdateResponse(name, task, update)) == update.text
  {
  }

  lemma MindSnoc<M>(react: (M, Line) -> Reaction<M>, m: M, lines: seq<Line>, line: Line)
    ensures Mind(react, m, lines + [line]) ==
              var before := Mind(react, m, lines);
              if before.crashed then before
              else
                var next := react(before.memory, line);
                Reaction(next.memory, before.updates + next.updates, next.crashed)
  {
    assert (lines + [line])[..|lines|] == lines;
  }

  lemma LinesSnoc(messages: seq<Message>, msg: Message)
    ensures Lines(messages + [msg]) == Lines(messages) + [LineOf(msg)]
  {
  }

  lemma TraceParts<T>(a: seq<T>, b: seq<T>, c: seq<T>, d: seq<T>)
    ensures a + (b + c) + d == (a + b + []) + ([] + c + d)
    ensures b == [] ==> a + (b + c) + d == [] + (a + c + d)
  {
  }

  /** One more message extends the trace by its reaction. */
  lemma TraceStep(name: string, heard: seq<Message>, msg: Message, updates: seq<Update>, more: seq<Update>, crashed: bool)
    requires heard == [] ==> updates == []
    ensures var task := if heard == [] then NewTask(msg) else NewTask(heard[0]);
      Trace(name, heard + [msg], updates + more, crashed) ==
        Trace(name, heard, updates, false)
        + ((if heard == [] then [TaskResponse(task)] else [])
           + UpdateResponses(name, task, more)
           + (if crashed then [Completion(task)] else []))
  {
    var task := if heard == [] then NewTask(msg) else NewTask(heard[0]);
    assert (heard + [msg])[0] == if heard == [] then msg else heard[0];
    var said, next, tail := UpdateResponses(name, task, updates), UpdateResponses(name, task, more), if crashed then [Completion(task)] else [];
    assert UpdateResponses(name, task, updates + more) == said + next;
    TraceParts([TaskResponse(task)], said, next, tail);
    if heard == [] {
      assert said == [];
    }
  }

  lemma InputSnoc<M>(react: (M, Line) -> Reaction<M>, boot: Executor<M>, init: seq<Slot>, last: Slot)
    ensures Upto(react, boot, init + [last]) == Receive(react, Upto(react, boot, init), last)
    ensures Events(react, boot, init + [last]) == Events(react, boot, init) + Emit(react, Upto(react, boot, init), last)
    ensures Heard(init + [last]) ==
              Heard(init) + if Sentinel !in init && last.Item? && last.request.MessageRequest? then [last.request.message] else []
    ensures Sentinel in init + [last] <==> Sentinel in init || last == Sentinel
  {
    assert (init + [last])[..|init|] == init;
  }

  /** What the inputs read so far determine: the reactions to the messages heard. */
  ghost predicate Follows<M>(react: (M, Line) -> Reaction<M>, name: string, m: M, slots: seq<Slot>) {
    var x, messages := Upto(react, Boot(name, m), slots), Heard(slots);
    var mind := Mind(react, m, Lines(messages));
    && x.name == name
    && x.memory == mind.memory
    && x.task == (if messages == [] then None else Some(NewTask(messages[0])))
    && (x.stopped <==> Sentinel in slots || mind.crashed)
    && Events(react, Boot(name, m), slots) == Trace(name, messages, mind.updates, x.stopped)
  }

  lemma FollowsMessage<M>(react: (M, Line) -> Reaction<M>, name: string, m: M, init: seq<Slot>, msg: Message)
    requires Follows(react, name, m, init) && Sentinel !in init
    ensures Follows(react, name, m, init + [Item(MessageRequest(msg))])
  {
    var x, heard := Upto(react, Boot(name, m), init), Heard(init);
    InputSnoc(react, Boot(name, m), init, Item(MessageRequest(msg)));
    assert (heard + [msg])[0] == if heard == [] then msg else heard[0];
    LinesSnoc(heard, msg);
    MindSnoc(react, m, Lines(heard), LineOf(msg));
    if !x.stopped {
      var reaction := react(x.memory, LineOf(msg));
      TraceStep(name, heard, msg, Mind(react, m, Lines(heard)).updates, reaction.updates, reaction.crashed);
    }
  }

  lemma TraceEnds(name: string, heard: seq<Message>, updates: seq<Update>)
    ensures Trace(name, heard, updates, true) ==
              Trace(name, heard, updates, false) + if heard == [] then [] else [Completion(NewTask(heard[0]))]
  {
  }

  lemma FollowsSentinel<M>(react: (M, Line) -> Reaction<M>, name: string, m: M, init: seq<Slot>)
    requires Follows(react, name, m, init)
    ensures Follows(react, name, m, init + [Sentinel])
  {
    var x := Upto(react, Boot(name, m), init);
    InputSnoc(react, Boot(name, m), init, Sentinel);
    assert Heard(init) + [] == Heard(init);
    if !x.stopped {
      TraceEnds(name, Heard(init), Mind(react, m, Lines(Heard(init))).updates);
    }
  }

  lemma FollowsIgnored<M>(react: (M, Line) -> Reaction<M>, name: string, m: M, init: seq<Slot>, last: Slot)
    requires Follows(react, name, m, init)
    requires last.Item? && (Sentinel in init || !last.request.MessageRequest?)
    ensures Follows(react, name, m, init + [last])
  {
    InputSnoc(react, Boot(name, m), init, last);
    assert Heard(init) + [] == Heard(init);
    assert Events(react, Boot(name, m), init) + [] == Events(react, Boot(name, m), init);
  }

  /** On every sequence of inputs an executor emits nothing if it received no message; otherwise its
      task, then its status updates, and, exactly when the queue was shut down or a reaction crashed,
      one completion at the end. The updates are the reactions to the messages heard before the
      shutdown, and depend on nothing else in the stream. */
  lemma {:induction false} TraceShape<M>(react: (M, Line) -> Reaction<M>, name: string, m: M, slots: seq<Slot>)
    ensures Follows(react, name, m, slots)
  {
    if slots != [] {
      var init, last := slots[..|slots| - 1], slots[|slots| - 1];
      assert slots == init + [last];
      TraceShape(react, name, m, init);
      if last == Sentinel {
        FollowsSentinel(react, name, m, init);
      } else if last.request.MessageRequest? && Sentinel !in init {
        FollowsMessage(react, name, m, init, last.request.message);
      } else {
        FollowsIgnored(react, name, m, init, last);
      }
    }
  }

  // What every trace says, response by response.

  predicate IsMessage(slot: Slot) {
    slot.Item? && slot.request.MessageRequest?
  }

  function MessageIn(slot: Slot): Message {
    if slot.Item? && slot.request.MessageRequest? then slot.request.message else Message("", "", UserRole, [], map[])
  }

  /** The first `n` inputs are those before the first shutdown. */
  predicate BeforeShutdown(slots: seq<Slot>, n: nat) {
    n <= |slots| && (forall k :: 0 <= k < n ==> slots[k] != Sentinel) && (n < |slots| ==> slots[n] == Sentinel)
  }

  lemma {:induction false} HeardIsPicked(slots: seq<Slot>) returns (n: nat)
    ensures BeforeShutdown(slots, n) && Heard(slots) == Picked(IsMessage, MessageIn, slots[..n])
  {
    if slots == [] {
      n := 0;
    } else {
      var init := slots[..|slots| - 1];
      assert slots == init + [slots[|slots| - 1]];
      n := HeardIsPicked(init);
      if n < |init| {
        assert slots[..n] == init[..n];
      } else {
        assert init[..n] == init && slots[..n] == init;
        if slots[n] != Sentinel {
          n := n + 1;
          assert slots[..n] == slots && Sentinel !in slots;
        }
      }
    }
  }

  /** The messages heard are exactly those among the inputs before the first shutdown, in order. */
  lemma HeardAreListed(slots: seq<Slot>) returns (n: nat)
    ensures BeforeShutdown(slots, n) && ListsSome(slots[..n], IsMessage, MessageIn, Heard(slots))
  {
    n := HeardIsPicked(slots);
    PickedIsListed(IsMessage, MessageIn, slots[..n]);
  }

  /** A status update in the update's state, with a message that holds the update's text. */
  predicate SaysUpdate(response: Response, name: string, taskId: string, contextId: string, update: Update) {
    && response.StatusResponse? && response.status.state == update.state
    && response.status.taskId == taskId && response.status.contextId == contextId
    && response.status.message.Some? && IsAgentMessage(response.status.message.value, update.text, name, taskId, contextId)
  }

  /** The task was completed: a status without a message. */
  predicate SaysCompleted(response: Response, taskId: string, contextId: string) {
    && response.StatusResponse? && response.status.state == Completed && response.status.message == None
    && response.status.taskId == taskId && response.status.contextId == contextId
  }

  /** Nothing without a message; otherwise the task under the ids of the first message, each update, and at
      the end, if the loop has ended, that the task was completed. */
  ghost predicate ReadsAs(name: string, messages: seq<Message>, updates: seq<Update>, ended: bool, events: seq<Response>) {
    if messages == [] then events == []
    else
      var taskId, contextId := messages[0].taskId, messages[0].contextId;
      && |events| == 1 + |updates| + (if ended then 1 else 0)
      && events[0] == TaskResponse(Task(taskId, contextId))
      && (forall k :: 0 <= k < |updates| ==> SaysUpdate(events[k + 1], name, taskId, contextId, updates[k]))
      && (ended ==> SaysCompleted(events[|updates| + 1], taskId, contextId))
  }

  lemma UpdateReads(name: string, task: Task, update: Update)
    ensures SaysUpdate(UpdateResponse(name, task, update), name, task.id, task.contextId, update)
    ensures SaysCompleted(Completion(task), task.id, task.contextId)
  {
    AgentMessageIs(update.text, name, task);
  }

  lemma TraceReads(name: string, messages: seq<Message>, updates: seq<Update>, ended: bool)
    ensures ReadsAs(name, messages, updates, ended, Trace(name, messages, updates, ended))
  {
    if messages != [] {
      var task, trace := NewTask(messages[0]), Trace(name, messages, updates, ended);
      forall k | 0 <= k < |updates|
        ensures SaysUpdate(trace[k + 1], name, task.id, task.contextId, updates[k])
      {
        assert trace[k + 1] == UpdateResponse(name, task, updates[k]);
        UpdateReads(name, task, updates[k]);
      }
      if ended {
        assert trace[|updates| + 1] == Completion(task);
        UpdateReads(name, task, Update(Working, ""));
      }
    }
  }

  /** So reads what an executor emits, on every sequence of inputs. */
  lemma EventsRead<M>(react: (M, Line) -> Reaction<M>, name: string, m: M, slots: seq<Slot>)
    ensures var mind := Mind(react, m, Lines(Heard(slots)));
      ReadsAs(name, Heard(slots), mind.updates, Sentinel in slots || mind.crashed, Events(react, Boot(name, m), slots))
  {
    TraceShape(react, name, m, slots);
    var mind := Mind(react, m, Lines(Heard(slots)));
    TraceReads(name, Heard(slots), mind.updates, Sentinel in slots || mind.crashed);
  }

  /** How many responses say that a task was completed. */
  function CompletedCount(events: seq<Response>): nat {
    if events == [] then 0
    else
      var last := events[|events| - 1];
      CompletedCount(events[..|events| - 1]) + if last.StatusResponse? && last.status.state == Completed then 1 else 0
  }

  lemma {:induction false} NoneCompleted(events: seq<Response>)
    requires forall k :: 0 <= k < |events| && events[k].StatusResponse? ==> events[k].status.state != Completed
    ensures CompletedCount(events) == 0
  {
    if events != [] {
      NoneCompleted(events[..|events| - 1]);
    }
  }

  /** If no update is a completion there is exactly one, at the end, once a message was heard and the loop
      has ended, and none otherwise. */
  lemma CompletedOnce(name: string, messages: seq<Message>, updates: seq<Update>, ended: bool, events: seq<Response>)
    requires ReadsAs(name, messages, updates, ended, events) && forall u :: u in updates ==> u.state != Completed
    ensures CompletedCount(events) == if messages != [] && ended then 1 else 0
  {
    if messages != [] {
      var taskId, contextId := messages[0].taskId, messages[0].contextId;
      var body := if ended then events[..|events| - 1] else events;
      forall k | 0 <= k < |body| && body[k].StatusResponse?
        ensures body[k].status.state != Completed
      {
        assert k > 0 && SaysUpdate(events[k - 1 + 1], name, taskId, contextId, updates[k - 1]);
      }
      NoneCompleted(body);
    }
  }
}
