/** Fan-in of follow-up messages: a call for a task whose execution is running goes into that
    execution's inbox, any other call to the inner handler. Looking an inbox up and sending into it
    are two steps, between which anything can happen. */
module FanIn {
  import opened Options
  import opened Sequences

  const CAPACITY := 64

  /** A message, which may name a task. */
  datatype Message = Message(taskId: string, text: string)

  /** A message in an inbox, with the call that sent it. */
  datatype Letter = Letter(call: nat, message: Message)

  /** One inbox per execution. `accepted` and `consumed` record history. */
  datatype Inbox = Inbox(queue: seq<Letter>, accepted: seq<Letter>, consumed: seq<Letter>)

  /** The execution with number `k` has inbox `k`. `disturbed` records whether another execution of the
      same task has been started or finished since this one was started; `DisturbedSinceStart` ties it to
      the steps of the run. */
  datatype Execution = Execution(taskId: string, running: bool, disturbed: bool)

  datatype Call =
    | Arrived(request: Option<Message>)
    | Sending(request: Option<Message>, inbox: nat)
    | ToInbox(request: Option<Message>, inbox: nat)
    | ToInner(request: Option<Message>)
    | Cancelled(request: Option<Message>)

  datatype State = State(registered: map<string, nat>, inboxes: seq<Inbox>, executions: seq<Execution>, calls: seq<Call>)

  datatype Step =
    | Execute(taskId: string)
    | Consume(k: nat)
    | Finish(k: nat)
    | Arrive(request: Option<Message>)
    | LookUp(c: nat)
    | Put(c: nat)
    | Cancel(c: nat)

  const START := State(map[], [], [], [])

  predicate Enabled(s: State, step: Step) {
    && |s.inboxes| == |s.executions|
    && match step
       case Execute(_) => true
       case Consume(k) => k < |s.executions| && s.executions[k].running && s.inboxes[k].queue != []
       case Finish(k) => k < |s.executions| && s.executions[k].running
       case Arrive(_) => true
       case LookUp(c) => c < |s.calls| && s.calls[c].Arrived?
       case Put(c) =>
         c < |s.calls| && s.calls[c].Sending? && s.calls[c].request.Some?
         && s.calls[c].inbox < |s.inboxes| && |s.inboxes[s.calls[c].inbox].queue| < CAPACITY
       case Cancel(c) => c < |s.calls| && s.calls[c].Sending?
  }

  /** Another execution of the same task was started or finished. */
  function Disturb(executions: seq<Execution>, taskId: string): (r: seq<Execution>)
    ensures |r| == |executions|
    ensures forall k :: 0 <= k < |r| ==> r[k] == if executions[k].taskId == taskId then executions[k].(disturbed := true) else executions[k]
  {
    seq(|executions|, k requires 0 <= k < |executions| =>
      if executions[k].taskId == taskId then executions[k].(disturbed := true) else executions[k])
  }

  function Next(s: State, step: Step): State
    requires Enabled(s, step)
  {
    match step
    case Execute(taskId) =>
      State(s.registered[taskId := |s.inboxes|], s.inboxes + [Inbox([], [], [])],
            Disturb(s.executions, taskId) + [Execution(taskId, true, false)], s.calls)
    case Consume(k) =>
      var inbox := s.inboxes[k];
      s.(inboxes := s.inboxes[k := inbox.(queue := inbox.queue[1..], consumed := inbox.consumed + [inbox.queue[0]])])
    case Finish(k) =>
      var taskId := s.executions[k].taskId;
      s.(registered := s.registered - {taskId},
         executions := Disturb(s.executions, taskId)[k := Execution(taskId, false, true)])
    case Arrive(request) => s.(calls := s.calls + [Arrived(request)])
    case LookUp(c) =>
      var request := s.calls[c].request;
      var target :=
        if request.Some? && request.value.taskId != "" && request.value.taskId in s.registered
        then Sending(request, s.registered[request.value.taskId])
        else ToInner(request);
      s.(calls := s.calls[c := target])
    case Put(c) =>
      var request, k := s.calls[c].request, s.calls[c].inbox;
      var letter, inbox := Letter(c, request.value), s.inboxes[k];
      s.(inboxes := s.inboxes[k := inbox.(queue := inbox.queue + [letter], accepted := inbox.accepted + [letter])],
         calls := s.calls[c := ToInbox(request, k)])
    case Cancel(c) => s.(calls := s.calls[c := Cancelled(s.calls[c].request)])
  }

  // What every state keeps.

  predicate LetterOk(letter: Letter, taskId: string, k: nat, calls: seq<Call>) {
    && letter.message.taskId == taskId && taskId != ""
    && letter.call < |calls| && calls[letter.call] == ToInbox(Some(letter.message), k)
  }

  /** Inbox `k` holds letters for its own task only, each from a call that ended in it, and has
      consumed a prefix of what it accepted. */
  ghost predicate InboxOk(inbox: Inbox, taskId: string, k: nat, calls: seq<Call>) {
    && inbox.consumed + inbox.queue == inbox.accepted
    && |inbox.queue| <= CAPACITY
    && (forall i :: 0 <= i < |inbox.accepted| ==> LetterOk(inbox.accepted[i], taskId, k, calls))
    && (forall i, j :: 0 <= i < j < |inbox.accepted| ==> inbox.accepted[i].call != inbox.accepted[j].call)
  }

  /** A call that is sending, or has sent, does so to an inbox of its message's task. */
  ghost predicate CallOk(call: Call, c: nat, inboxes: seq<Inbox>, executions: seq<Execution>)
    requires |inboxes| == |executions|
  {
    match call
    case Sending(request, k) =>
      k < |inboxes| && request.Some? && request.value.taskId != "" && executions[k].taskId == request.value.taskId
    case ToInbox(request, k) => k < |inboxes| && request.Some? && Letter(c, request.value) in inboxes[k].accepted
    case _ => true
  }

  ghost predicate RegisteredOk(registered: map<string, nat>, executions: seq<Execution>) {
    && (forall t :: t in registered ==> registered[t] < |executions| && executions[registered[t]].taskId == t && executions[registered[t]].running)
    && (forall k :: 0 <= k < |executions| && executions[k].running ==>
          (!executions[k].disturbed <==> executions[k].taskId in registered && registered[executions[k].taskId] == k))
  }

  ghost predicate InboxesOk(s: State)
    requires |s.inboxes| == |s.executions|
  {
    forall k :: 0 <= k < |s.inboxes| ==> InboxOk(s.inboxes[k], s.executions[k].taskId, k, s.calls)
  }

  ghost predicate CallsOk(s: State)
    requires |s.inboxes| == |s.executions|
  {
    forall c :: 0 <= c < |s.calls| ==> CallOk(s.calls[c], c, s.inboxes, s.executions)
  }

  ghost predicate Inv(s: State) {
    |s.inboxes| == |s.executions| && InboxesOk(s) && CallsOk(s) && RegisteredOk(s.registered, s.executions)
  }

  /** Calls that ended in an inbox stay as they are. */
  ghost predicate Settles(calls: seq<Call>, later: seq<Call>) {
    |calls| <= |later| && forall c :: 0 <= c < |calls| && calls[c].ToInbox? ==> later[c] == calls[c]
  }

  lemma InboxStaysOk(inbox: Inbox, taskId: string, k: nat, calls: seq<Call>, later: seq<Call>)
    requires InboxOk(inbox, taskId, k, calls) && Settles(calls, later)
    ensures InboxOk(inbox, taskId, k, later)
  {
    forall i | 0 <= i < |inbox.accepted|
      ensures LetterOk(inbox.accepted[i], taskId, k, later)
    {
      assert LetterOk(inbox.accepted[i], taskId, k, calls);
    }
  }

  lemma ExecuteRegisters(registered: map<string, nat>, executions: seq<Execution>, taskId: string)
    requires RegisteredOk(registered, executions)
    ensures RegisteredOk(registered[taskId := |executions|], Disturb(executions, taskId) + [Execution(taskId, true, false)])
  {
  }

  lemma ExecuteKeepsCall(call: Call, c: nat, inboxes: seq<Inbox>, executions: seq<Execution>, taskId: string)
    requires |inboxes| == |executions| && CallOk(call, c, inboxes, executions)
    ensures CallOk(call, c, inboxes + [Inbox([], [], [])], Disturb(executions, taskId) + [Execution(taskId, true, false)])
  {
  }

  lemma ExecuteKeepsInv(s: State, taskId: string)
    requires Inv(s) && Enabled(s, Execute(taskId))
    ensures Inv(Next(s, Execute(taskId)))
  {
    var t := Next(s, Execute(taskId));
    ExecuteRegisters(s.registered, s.executions, taskId);
    forall k | 0 <= k < |t.inboxes|
      ensures InboxOk(t.inboxes[k], t.executions[k].taskId, k, t.calls)
    {
      if k < |s.inboxes| {
        assert InboxOk(s.inboxes[k], s.executions[k].taskId, k, s.calls);
      }
    }
    forall c | 0 <= c < |t.calls|
      ensures CallOk(t.calls[c], c, t.inboxes, t.executions)
    {
      ExecuteKeepsCall(s.calls[c], c, s.inboxes, s.executions, taskId);
    }
  }

  lemma FinishKeepsInv(s: State, k: nat)
    requires Inv(s) && Enabled(s, Finish(k))
    ensures Inv(Next(s, Finish(k)))
  {
    var t := Next(s, Finish(k));
    forall i | 0 <= i < |t.inboxes|
      ensures InboxOk(t.inboxes[i], t.executions[i].taskId, i, t.calls)
    {
      assert InboxOk(s.inboxes[i], s.executions[i].taskId, i, s.calls);
    }
    forall c | 0 <= c < |t.calls|
      ensures CallOk(t.calls[c], c, t.inboxes, t.executions)
    {
      assert CallOk(s.calls[c], c, s.inboxes, s.executions);
    }
  }

  lemma ConsumeKeepsInv(s: State, k: nat)
    requires Inv(s) && Enabled(s, Consume(k))
    ensures Inv(Next(s, Consume(k)))
  {
    var t, inbox := Next(s, Consume(k)), s.inboxes[k];
    assert (inbox.consumed + [inbox.queue[0]]) + inbox.queue[1..] == inbox.consumed + inbox.queue;
    forall i | 0 <= i < |t.inboxes|
      ensures InboxOk(t.inboxes[i], t.executions[i].taskId, i, t.calls)
    {
      assert InboxOk(s.inboxes[i], s.executions[i].taskId, i, s.calls);
    }
    forall c | 0 <= c < |t.calls|
      ensures CallOk(t.calls[c], c, t.inboxes, t.executions)
    {
      assert CallOk(s.calls[c], c, s.inboxes, s.executions);
    }
  }

  /** A step that only changes calls that had not ended in an inbox. */
  lemma CallStepKeepsInv(s: State, calls: seq<Call>)
    requires Inv(s) && Settles(s.calls, calls)
    requires forall c :: 0 <= c < |calls| ==> CallOk(calls[c], c, s.inboxes, s.executions)
    ensures Inv(s.(calls := calls))
  {
    forall k | 0 <= k < |s.inboxes|
      ensures InboxOk(s.inboxes[k], s.executions[k].taskId, k, calls)
    {
      InboxStaysOk(s.inboxes[k], s.executions[k].taskId, k, s.calls, calls);
    }
  }

  lemma LookUpKeepsInv(s: State, c: nat)
    requires Inv(s) && Enabled(s, LookUp(c))
    ensures Inv(Next(s, LookUp(c)))
  {
    var calls := Next(s, LookUp(c)).calls;
    forall d | 0 <= d < |calls|
      ensures CallOk(calls[d], d, s.inboxes, s.executions)
    {
      assert CallOk(s.calls[d], d, s.inboxes, s.executions);
    }
    CallStepKeepsInv(s, calls);
  }

  lemma ArriveKeepsInv(s: State, request: Option<Message>)
    requires Inv(s)
    ensures Inv(s.(calls := s.calls + [Arrived(request)]))
  {
    var calls := s.calls + [Arrived(request)];
    forall d | 0 <= d < |calls|
      ensures CallOk(calls[d], d, s.inboxes, s.executions)
    {
      if d < |s.calls| {
        assert CallOk(s.calls[d], d, s.inboxes, s.executions);
      }
    }
    CallStepKeepsInv(s, calls);
  }

  lemma CancelKeepsInv(s: State, c: nat)
    requires Inv(s) && Enabled(s, Cancel(c))
    ensures Inv(Next(s, Cancel(c)))
  {
    var calls := Next(s, Cancel(c)).calls;
    forall d | 0 <= d < |calls|
      ensures CallOk(calls[d], d, s.inboxes, s.executions)
    {
      assert CallOk(s.calls[d], d, s.inboxes, s.executions);
    }
    CallStepKeepsInv(s, calls);
  }

  /** The letter of a call that is still sending is in no inbox yet. */
  lemma LetterIsNew(inbox: Inbox, taskId: string, k: nat, calls: seq<Call>, letter: Letter)
    requires InboxOk(inbox, taskId, k, calls) && |inbox.queue| < CAPACITY
    requires letter.call < |calls| && calls[letter.call].Sending? && letter.message.taskId == taskId && taskId != ""
    ensures InboxOk(inbox.(queue := inbox.queue + [letter], accepted := inbox.accepted + [letter]), taskId, k,
                    calls[letter.call := ToInbox(Some(letter.message), k)])
  {
    var accepted, later := inbox.accepted + [letter], calls[letter.call := ToInbox(Some(letter.message), k)];
    assert inbox.consumed + (inbox.queue + [letter]) == (inbox.consumed + inbox.queue) + [letter];
    InboxStaysOk(inbox, taskId, k, calls, later);
    forall i | 0 <= i < |inbox.accepted|
      ensures inbox.accepted[i].call != letter.call && LetterOk(inbox.accepted[i], taskId, k, later)
    {
      assert LetterOk(inbox.accepted[i], taskId, k, calls);
    }
    assert LetterOk(letter, taskId, k, later);
  }

  lemma PutKeepsInv(s: State, c: nat)
    requires Inv(s) && Enabled(s, Put(c))
    ensures Inv(Next(s, Put(c)))
  {
    var t, k := Next(s, Put(c)), s.calls[c].inbox;
    var letter := Letter(c, s.calls[c].request.value);
    assert CallOk(s.calls[c], c, s.inboxes, s.executions);
    forall i | 0 <= i < |t.inboxes|
      ensures InboxOk(t.inboxes[i], t.executions[i].taskId, i, t.calls)
    {
      assert InboxOk(s.inboxes[i], s.executions[i].taskId, i, s.calls);
      if i == k {
        LetterIsNew(s.inboxes[k], s.executions[k].taskId, k, s.calls, letter);
      } else {
        InboxStaysOk(s.inboxes[i], s.executions[i].taskId, i, s.calls, t.calls);
      }
    }
    forall d | 0 <= d < |t.calls|
      ensures CallOk(t.calls[d], d, t.inboxes, t.executions)
    {
      assert CallOk(s.calls[d], d, s.inboxes, s.executions);
      if d == c {
        assert t.inboxes[k].accepted[|s.inboxes[k].accepted|] == letter;
      }
    }
  }

  lemma StepKeepsInv(s: State, step: Step)
    requires Inv(s) && Enabled(s, step)
    ensures Inv(Next(s, step))
  {
    match step
    case Execute(taskId) => ExecuteKeepsInv(s, taskId);
    case Consume(k) => ConsumeKeepsInv(s, k);
    case Finish(k) => FinishKeepsInv(s, k);
    case Arrive(request) => ArriveKeepsInv(s, request);
    case LookUp(c) => LookUpKeepsInv(s, c);
    case Put(c) => PutKeepsInv(s, c);
    case Cancel(c) => CancelKeepsInv(s, c);
  }

  // Runs.

  ghost predicate CanRun(steps: seq<Step>)
    decreases |steps|, 0
  {
    steps == [] ||
    (var before := steps[..|steps| - 1];
     CanRun(before) && Enabled(After(before), steps[|steps| - 1]))
  }

  ghost function After(steps: seq<Step>): State
    requires CanRun(steps)
    decreases |steps|, 1
  {
    if steps == [] then START else Next(After(steps[..|steps| - 1]), steps[|steps| - 1])
  }

  lemma {:induction false} RunKeepsInv(steps: seq<Step>)
    requires CanRun(steps)
    ensures Inv(After(steps))
  {
    if steps != [] {
      var before := steps[..|steps| - 1];
      RunKeepsInv(before);
      StepKeepsInv(After(before), steps[|steps| - 1]);
      assert After(steps) == Next(After(before), steps[|steps| - 1]);
    }
  }

  /** In every reachable state each inbox holds messages for its own task only, and its execution has
      consumed, in order, a prefix of what was accepted into it. */
  lemma TasksAreIsolated(steps: seq<Step>, k: nat)
    requires CanRun(steps) && k < |After(steps).inboxes|
    ensures |After(steps).executions| == |After(steps).inboxes|
    ensures var inbox, taskId := After(steps).inboxes[k], After(steps).executions[k].taskId;
      && inbox.consumed <= inbox.accepted && |inbox.accepted| <= |inbox.consumed| + 64
      && forall i :: 0 <= i < |inbox.accepted| ==> inbox.accepted[i].message.taskId == taskId && taskId != ""
  {
    RunKeepsInv(steps);
    var s := After(steps);
    assert InboxOk(s.inboxes[k], s.executions[k].taskId, k, s.calls);
    forall i | 0 <= i < |s.inboxes[k].accepted|
      ensures s.inboxes[k].accepted[i].message.taskId == s.executions[k].taskId && s.executions[k].taskId != ""
    {
      assert LetterOk(s.inboxes[k].accepted[i], s.executions[k].taskId, k, s.calls);
    }
  }

  /** Every call that has ended went to exactly one place: its letter is in the inbox it ended in, once,
      and in no other; a call that ended elsewhere, or has not ended, is in none. */
  lemma EveryCallEndsOnce(steps: seq<Step>, c: nat, k: nat, i: nat)
    requires CanRun(steps) && c < |After(steps).calls| && k < |After(steps).inboxes|
    requires i < |After(steps).inboxes[k].accepted|
    ensures var s := After(steps);
      s.inboxes[k].accepted[i].call == c ==>
        && s.calls[c] == ToInbox(Some(s.inboxes[k].accepted[i].message), k)
        && forall j :: 0 <= j < |s.inboxes[k].accepted| && j != i ==> s.inboxes[k].accepted[j].call != c
  {
    RunKeepsInv(steps);
    var s := After(steps);
    assert InboxOk(s.inboxes[k], s.executions[k].taskId, k, s.calls);
    assert LetterOk(s.inboxes[k].accepted[i], s.executions[k].taskId, k, s.calls);
  }

  lemma AcceptedCallIsInItsInbox(steps: seq<Step>, c: nat)
    requires CanRun(steps) && c < |After(steps).calls| && After(steps).calls[c].ToInbox?
    ensures var s, call := After(steps), After(steps).calls[c];
      call.inbox < |s.inboxes| && call.request.Some? && Letter(c, call.request.value) in s.inboxes[call.inbox].accepted
  {
    RunKeepsInv(steps);
    assert CallOk(After(steps).calls[c], c, After(steps).inboxes, After(steps).executions);
  }

  // Said of the steps themselves.

  predicate IsArrival(step: Step) {
    step.Arrive?
  }

  function RequestOf(step: Step): Option<Message> {
    if step.Arrive? then step.request else None
  }

  function Requests(calls: seq<Call>): (r: seq<Option<Message>>)
    ensures |r| == |calls|
    ensures forall c :: 0 <= c < |r| ==> r[c] == calls[c].request
  {
    seq(|calls|, c requires 0 <= c < |calls| => calls[c].request)
  }

  /** A send of a call that has ended in inbox `k`. */
  function SendsInto(calls: seq<Call>, k: nat): Step -> bool {
    (step: Step) => step.Put? && step.c < |calls| && calls[step.c].ToInbox? && calls[step.c].inbox == k
  }

  function LetterSent(calls: seq<Call>): Step -> Letter {
    (step: Step) =>
      if step.Put? && step.c < |calls| && calls[step.c].request.Some? then Letter(step.c, calls[step.c].request.value)
      else Letter(0, Message("", ""))
  }

  function Receives(k: nat): Step -> bool {
    (step: Step) => step == Consume(k)
  }

  function TheStep(step: Step): Step {
    step
  }

  lemma StepRequests(s: State, step: Step)
    requires Enabled(s, step)
    ensures Requests(Next(s, step).calls) == Requests(s.calls) + if IsArrival(step) then [RequestOf(step)] else []
    ensures Settles(s.calls, Next(s, step).calls)
    ensures step.Put? ==> Next(s, step).calls[step.c].ToInbox?
  {
  }

  lemma {:induction false} SendsHaveEnded(steps: seq<Step>, i: nat)
    requires CanRun(steps) && i < |steps| && steps[i].Put?
    ensures steps[i].c < |After(steps).calls| && After(steps).calls[steps[i].c].ToInbox?
  {
    var before, last := steps[..|steps| - 1], steps[|steps| - 1];
    if i < |before| {
      SendsHaveEnded(before, i);
    }
    StepRequests(After(before), last);
    assert After(steps) == Next(After(before), last);
  }

  function InboxAt(s: State, k: nat): Inbox {
    if k < |s.inboxes| then s.inboxes[k] else Inbox([], [], [])
  }

  lemma StepFillsInbox(s: State, step: Step, k: nat)
    requires Inv(s) && Enabled(s, step)
    ensures var t := Next(s, step);
      && InboxAt(t, k).accepted == InboxAt(s, k).accepted + (if SendsInto(t.calls, k)(step) then [LetterSent(t.calls)(step)] else [])
      && |InboxAt(t, k).consumed| == |InboxAt(s, k).consumed| + if Receives(k)(step) then 1 else 0
  {
    if step.Put? {
      assert CallOk(s.calls[step.c], step.c, s.inboxes, s.executions);
    }
  }

  ghost predicate SendsEnded(steps: seq<Step>, calls: seq<Call>) {
    forall i :: 0 <= i < |steps| && steps[i].Put? ==> steps[i].c < |calls| && calls[steps[i].c].ToInbox?
  }

  /** What `k` has accepted are the letters sent to it. */
  ghost predicate AcceptsSent(steps: seq<Step>, s: State, k: nat) {
    InboxAt(s, k).accepted == Picked(SendsInto(s.calls, k), LetterSent(s.calls), steps)
  }

  lemma AcceptsSentStep(before: seq<Step>, step: Step, s: State, k: nat)
    requires Inv(s) && Enabled(s, step) && SendsEnded(before, s.calls) && AcceptsSent(before, s, k)
    ensures AcceptsSent(before + [step], Next(s, step), k)
  {
    var t := Next(s, step);
    StepRequests(s, step);
    PickedAlike(SendsInto(s.calls, k), LetterSent(s.calls), SendsInto(t.calls, k), LetterSent(t.calls), before);
    StepFillsInbox(s, step, k);
    PickedSnoc(SendsInto(t.calls, k), LetterSent(t.calls), before, step);
  }

  lemma {:induction false} InboxIsPicked(steps: seq<Step>, k: nat)
    requires CanRun(steps)
    ensures Requests(After(steps).calls) == Picked(IsArrival, RequestOf, steps)
    ensures AcceptsSent(steps, After(steps), k)
    ensures |InboxAt(After(steps), k).consumed| == |Picked(Receives(k), TheStep, steps)|
  {
    if steps != [] {
      var before, last := steps[..|steps| - 1], steps[|steps| - 1];
      InboxIsPicked(before, k);
      RunKeepsInv(before);
      forall i | 0 <= i < |before| && before[i].Put?
        ensures before[i].c < |After(before).calls| && After(before).calls[before[i].c].ToInbox?
      {
        SendsHaveEnded(before, i);
      }
      AcceptsSentStep(before, last, After(before), k);
      StepRequests(After(before), last);
      StepFillsInbox(After(before), last, k);
      assert steps == before + [last] && After(steps) == Next(After(before), last);
    }
  }

  /** For every run: there is one call for each arrival, in order, with what arrived; an inbox has accepted
      one letter for each send of a call that ended in it, in order, with that call's message; and as many
      have been consumed as its execution has received. */
  lemma InboxIsOfSteps(steps: seq<Step>, k: nat)
    requires CanRun(steps) && k < |After(steps).inboxes|
    ensures var s := After(steps);
      && ListsSome(steps, IsArrival, RequestOf, Requests(s.calls))
      && ListsSome(steps, SendsInto(s.calls, k), LetterSent(s.calls), s.inboxes[k].accepted)
      && exists received :: ListsSome(steps, Receives(k), TheStep, received) && |received| == |s.inboxes[k].consumed|
  {
    var calls := After(steps).calls;
    InboxIsPicked(steps, k);
    PickedIsListed(IsArrival, RequestOf, steps);
    PickedIsListed(SendsInto(calls, k), LetterSent(calls), steps);
    PickedIsListed(Receives(k), TheStep, steps);
  }

  // Which running executions can be reached.

  /** Step `p` of the run starts execution `k`. */
  ghost predicate StartedAt(steps: seq<Step>, p: nat, k: nat) {
    p < |steps| && steps[p].Execute? && CanRun(steps[..p]) && |After(steps[..p]).executions| == k
  }

  /** Step `i` of the run starts an execution of the task, or finishes one other than `k`. */
  ghost predicate Interferes(steps: seq<Step>, i: nat, k: nat, taskId: string) {
    && i < |steps| && CanRun(steps[..i])
    && match steps[i]
       case Execute(t) => t == taskId
       case Finish(j) => j != k && j < |After(steps[..i]).executions| && After(steps[..i]).executions[j].taskId == taskId
       case _ => false
  }

  ghost predicate LeftAlone(steps: seq<Step>, p: nat, k: nat, taskId: string) {
    forall i: nat :: p < i < |steps| ==> !Interferes(steps, i, k, taskId)
  }

  lemma InterferesBefore(steps: seq<Step>, i: nat, k: nat, taskId: string)
    requires i < |steps| - 1
    ensures Interferes(steps, i, k, taskId) <==> Interferes(steps[..|steps| - 1], i, k, taskId)
  {
    assert steps[..|steps| - 1][..i] == steps[..i];
  }

  lemma LeftAloneStep(steps: seq<Step>, p: nat, k: nat, taskId: string)
    requires p < |steps| - 1
    ensures LeftAlone(steps, p, k, taskId) <==>
              LeftAlone(steps[..|steps| - 1], p, k, taskId) && !Interferes(steps, |steps| - 1, k, taskId)
  {
    var before := steps[..|steps| - 1];
    forall i: nat | i < |before|
      ensures Interferes(steps, i, k, taskId) <==> Interferes(before, i, k, taskId)
    {
      InterferesBefore(steps, i, k, taskId);
    }
  }

  /** What a step does to an execution that is running after it. */
  lemma StepDisturbs(s: State, step: Step, k: nat)
    requires Inv(s) && Enabled(s, step) && k < |s.executions|
    ensures k < |Next(s, step).executions| && Next(s, step).executions[k].taskId == s.executions[k].taskId
    ensures Next(s, step).executions[k].running ==>
              && s.executions[k].running
              && (Next(s, step).executions[k].disturbed <==>
                    || s.executions[k].disturbed
                    || (step.Execute? && step.taskId == s.executions[k].taskId)
                    || (step.Finish? && step.k != k && s.executions[step.k].taskId == s.executions[k].taskId))
  {
  }

  lemma {:induction false} DisturbedSinceStart(steps: seq<Step>, p: nat, k: nat)
    requires CanRun(steps) && StartedAt(steps, p, k)
    ensures k < |After(steps).executions| && After(steps).executions[k].taskId == steps[p].taskId
    ensures After(steps).executions[k].running ==> (!After(steps).executions[k].disturbed <==> LeftAlone(steps, p, k, steps[p].taskId))
  {
    var before, last := steps[..|steps| - 1], steps[|steps| - 1];
    RunKeepsInv(before);
    assert After(steps) == Next(After(before), last);
    if p == |before| {
      assert steps[..p] == before;
    } else {
      assert before[..p] == steps[..p];
      DisturbedSinceStart(before, p, k);
      StepDisturbs(After(before), last, k);
      LeftAloneStep(steps, p, k, steps[p].taskId);
    }
  }

  /** A running execution can be reached through its inbox exactly if, after the step that started it,
      no step of the run has started another execution of its task or finished one. */
  lemma ReachableIffUndisturbed(steps: seq<Step>, p: nat, k: nat)
    requires CanRun(steps) && StartedAt(steps, p, k)
    ensures k < |After(steps).executions| && After(steps).executions[k].taskId == steps[p].taskId
    ensures var s, taskId := After(steps), steps[p].taskId;
      s.executions[k].running ==> (taskId in s.registered && s.registered[taskId] == k <==> LeftAlone(steps, p, k, taskId))
  {
    RunKeepsInv(steps);
    DisturbedSinceStart(steps, p, k);
  }

  /** Every execution was started by a step of the run. */
  lemma {:induction false} EveryExecutionWasStarted(steps: seq<Step>, k: nat) returns (p: nat)
    requires CanRun(steps) && k < |After(steps).executions|
    ensures StartedAt(steps, p, k)
  {
    var before, last := steps[..|steps| - 1], steps[|steps| - 1];
    assert After(steps) == Next(After(before), last);
    if k < |After(before).executions| {
      p := EveryExecutionWasStarted(before, k);
      assert before[..p] == steps[..p];
    } else {
      p := |before|;
      assert steps[..p] == before;
    }
  }

  lemma RunSnoc(steps: seq<Step>, step: Step)
    requires CanRun(steps) && Enabled(After(steps), step)
    ensures CanRun(steps + [step]) && After(steps + [step]) == Next(After(steps), step)
  {
    assert (steps + [step])[..|steps|] == steps;
  }

  lemma TwiceStarted()
    ensures var one := State(map["t" := 0], [Inbox([], [], [])], [Execution("t", true, false)], []);
      var two := State(map["t" := 1], [Inbox([], [], []), Inbox([], [], [])], [Execution("t", true, true), Execution("t", true, false)], []);
      && Enabled(START, Execute("t")) && Next(START, Execute("t")) == one
      && Enabled(one, Execute("t")) && Next(one, Execute("t")) == two
      && Enabled(two, Finish(0)) && Next(two, Finish(0)).registered == map[]
      && Next(two, Finish(0)).executions == [Execution("t", false, true), Execution("t", true, true)]
  {
    assert Disturb([], "t") == [];
    assert Disturb([Execution("t", true, false)], "t") == [Execution("t", true, true)];
    assert map["t" := 0]["t" := 1] == map["t" := 1];
  }

  /** Two overlapping executions of one task: the first to finish takes the other's inbox out of the
      register, so the other runs on without being reachable. */
  lemma OverlapUnregisters()
    ensures exists steps :: CanRun(steps) && |After(steps).executions| == 2 && After(steps).executions[1].running && After(steps).registered == map[]
  {
    TwiceStarted();
    RunSnoc([], Execute("t"));
    var steps := [] + [Execute("t")];
    RunSnoc(steps, Execute("t"));
    steps := steps + [Execute("t")];
    RunSnoc(steps, Finish(0));
    steps := steps + [Finish(0)];
  }

  // A finished execution.

  lemma FinishedStaysFinished(s: State, step: Step, k: nat)
    requires Inv(s) && Enabled(s, step) && k < |s.executions| && !s.executions[k].running
    ensures k < |Next(s, step).executions| && !Next(s, step).executions[k].running
    ensures Next(s, step).inboxes[k].consumed == s.inboxes[k].consumed
  {
  }

  /** It stays so however the run goes on. */
  lemma {:induction false} FinishedForGood(steps: seq<Step>, longer: seq<Step>, k: nat)
    requires CanRun(steps) && CanRun(longer) && steps <= longer
    requires k < |After(steps).executions| && !After(steps).executions[k].running
    ensures |After(longer).executions| == |After(longer).inboxes| && |After(steps).executions| == |After(steps).inboxes|
    ensures k < |After(longer).executions| && !After(longer).executions[k].running
    ensures After(longer).inboxes[k].consumed == After(steps).inboxes[k].consumed
  {
    RunKeepsInv(steps);
    RunKeepsInv(longer);
    if |steps| < |longer| {
      var before := longer[..|longer| - 1];
      FinishedForGood(steps, before, k);
      RunKeepsInv(before);
      FinishedStaysFinished(After(before), longer[|longer| - 1], k);
      assert After(longer) == Next(After(before), longer[|longer| - 1]);
    } else {
      assert steps == longer;
    }
  }

  /** A running execution can consume all that is in its inbox, without a step of anybody else. */
  lemma {:induction false} RunningCanDrain(steps: seq<Step>, k: nat) returns (longer: seq<Step>)
    requires CanRun(steps) && k < |After(steps).inboxes| && |After(steps).executions| == |After(steps).inboxes|
    requires After(steps).executions[k].running
    ensures CanRun(longer) && steps <= longer && k < |After(longer).inboxes|
    ensures |After(longer).inboxes[k].consumed| == |After(steps).inboxes[k].consumed| + |After(steps).inboxes[k].queue|
    ensures After(longer).inboxes[k].queue == [] && After(longer).calls == After(steps).calls
    decreases |After(steps).inboxes[k].queue|
  {
    if After(steps).inboxes[k].queue == [] {
      longer := steps;
    } else {
      RunSnoc(steps, Consume(k));
      longer := RunningCanDrain(steps + [Consume(k)], k);
    }
  }

  ghost predicate GetsConsumed(steps: seq<Step>, longer: seq<Step>, k: nat, i: nat) {
    steps <= longer && CanRun(longer) && k < |After(longer).inboxes| && i < |After(longer).inboxes[k].consumed|
  }

  /** A letter that was accepted and not consumed yet can still be consumed exactly if the execution of
      its inbox is running. */
  lemma ConsumableIffRunning(steps: seq<Step>, k: nat, i: nat)
    requires CanRun(steps) && k < |After(steps).inboxes| && |After(steps).executions| == |After(steps).inboxes|
    requires |After(steps).inboxes[k].consumed| <= i < |After(steps).inboxes[k].accepted|
    ensures (exists longer :: GetsConsumed(steps, longer, k, i)) <==> After(steps).executions[k].running
  {
    RunKeepsInv(steps);
    assert InboxOk(After(steps).inboxes[k], After(steps).executions[k].taskId, k, After(steps).calls);
    if After(steps).executions[k].running {
      var longer := RunningCanDrain(steps, k);
      assert GetsConsumed(steps, longer, k, i);
    } else if exists longer :: GetsConsumed(steps, longer, k, i) {
      var longer :| GetsConsumed(steps, longer, k, i);
      FinishedForGood(steps, longer, k);
      assert false;
    }
  }

  function Lone(running: bool, calls: seq<Call>): State {
    State(if running then map["t" := 0] else map[], [Inbox([], [], [])], [Execution("t", running, !running)], calls)
  }

  /** The execution starts, a call arrives and looks its inbox up. */
  lemma LookedUp(message: Message)
    requires message.taskId == "t"
    ensures Enabled(START, Execute("t")) && Next(START, Execute("t")) == Lone(true, [])
    ensures Enabled(Lone(true, []), Arrive(Some(message)))
    ensures Next(Lone(true, []), Arrive(Some(message))) == Lone(true, [Arrived(Some(message))])
    ensures Enabled(Lone(true, [Arrived(Some(message))]), LookUp(0))
    ensures Next(Lone(true, [Arrived(Some(message))]), LookUp(0)) == Lone(true, [Sending(Some(message), 0)])
  {
  }

  /** The execution finishes, then the call sends. */
  lemma FinishedAndSent(message: Message)
    requires message.taskId == "t"
    ensures Enabled(Lone(true, [Sending(Some(message), 0)]), Finish(0))
    ensures Next(Lone(true, [Sending(Some(message), 0)]), Finish(0)) == Lone(false, [Sending(Some(message), 0)])
    ensures Enabled(Lone(false, [Sending(Some(message), 0)]), Put(0))
    ensures var s := Next(Lone(false, [Sending(Some(message), 0)]), Put(0));
      && s.calls == [ToInbox(Some(message), 0)] && |s.inboxes| == 1 && |s.inboxes[0].queue| == 1
      && s.executions == [Execution("t", false, true)]
  {
    assert map["t" := 0] - {"t"} == map[];
  }

  /** Since the lookup comes before the send, a call can end in the inbox of an execution that has
      finished meanwhile; nobody will ever consume its message. */
  lemma LateLetterIsStranded()
    ensures exists steps :: CanRun(steps) && |After(steps).calls| == 1 && After(steps).calls[0].ToInbox? && After(steps).calls[0].inbox == 0
              && |After(steps).executions| == 1 && !After(steps).executions[0].running
              && |After(steps).inboxes| == 1 && |After(steps).inboxes[0].queue| == 1
  {
    var message := Message("t", "hello");
    LookedUp(message);
    RunSnoc([], Execute("t"));
    var steps := [] + [Execute("t")];
    RunSnoc(steps, Arrive(Some(message)));
    steps := steps + [Arrive(Some(message))];
    RunSnoc(steps, LookUp(0));
    steps := steps + [LookUp(0)];
    FinishedAndSent(message);
    RunSnoc(steps, Finish(0));
    steps := steps + [Finish(0)];
    RunSnoc(steps, Put(0));
    steps := steps + [Put(0)];
  }

  // Where a call ends.

  /** What becomes of a call that has looked its inbox up. */
  predicate Continues(call: Call, later: Call) {
    later == call || (call.Sending? && (later == ToInbox(call.request, call.inbox) || later == Cancelled(call.request)))
  }

  lemma {:induction false} CallContinues(steps: seq<Step>, longer: seq<Step>, c: nat)
    requires CanRun(steps) && CanRun(longer) && steps <= longer
    requires c < |After(steps).calls| && !After(steps).calls[c].Arrived?
    ensures c < |After(longer).calls| && Continues(After(steps).calls[c], After(longer).calls[c])
  {
    if |steps| < |longer| {
      var before := longer[..|longer| - 1];
      CallContinues(steps, before, c);
      assert After(longer) == Next(After(before), longer[|longer| - 1]);
    } else {
      assert steps == longer;
    }
  }

  /** The message is for the execution's task, and the execution can be reached. */
  ghost predicate CanReach(steps: seq<Step>, p: nat, k: nat, message: Message) {
    && CanRun(steps) && StartedAt(steps, p, k) && message.taskId == steps[p].taskId && message.taskId != ""
    && k < |After(steps).executions| && After(steps).executions[k].running && LeftAlone(steps, p, k, message.taskId)
  }

  lemma LookUpFinds(steps: seq<Step>, p: nat, k: nat, c: nat, message: Message)
    requires CanRun(steps) && StartedAt(steps, p, k)
    requires c < |After(steps).calls| && After(steps).calls[c] == Arrived(Some(message))
    ensures Enabled(After(steps), LookUp(c)) && c < |Next(After(steps), LookUp(c)).calls|
    ensures Next(After(steps), LookUp(c)).calls[c] == Sending(Some(message), k) <==> CanReach(steps, p, k, message)
    ensures var call := Next(After(steps), LookUp(c)).calls[c]; call.Sending? || call == ToInner(Some(message))
    ensures message.taskId == "" ==> Next(After(steps), LookUp(c)).calls[c] == ToInner(Some(message))
  {
    RunKeepsInv(steps);
    ReachableIffUndisturbed(steps, p, k);
  }

  /** After its lookup the call can end in the inbox of execution `k`. */
  ghost predicate EndsIn(steps: seq<Step>, longer: seq<Step>, c: nat, k: nat, message: Message) {
    steps + [LookUp(c)] <= longer && CanRun(longer) && c < |After(longer).calls| && After(longer).calls[c] == ToInbox(Some(message), k)
  }

  lemma FoundCanEnd(steps: seq<Step>, p: nat, k: nat, c: nat, message: Message) returns (longer: seq<Step>)
    requires CanReach(steps, p, k, message)
    requires c < |After(steps).calls| && After(steps).calls[c] == Arrived(Some(message))
    ensures EndsIn(steps, longer, c, k, message)
  {
    LookUpFinds(steps, p, k, c, message);
    RunKeepsInv(steps);
    RunSnoc(steps, LookUp(c));
    longer := RunningCanDrain(steps + [LookUp(c)], k);
    RunKeepsInv(longer);
    RunSnoc(longer, Put(c));
    longer := longer + [Put(c)];
  }

  /** A call that arrives can end in the inbox of an execution exactly if its message is for the task and,
      when the inbox is looked up, the execution is running and no other one of the task has been started
      or has finished since it was started. */
  lemma ArrivalEndsInIff(steps: seq<Step>, p: nat, k: nat, c: nat, message: Message)
    requires CanRun(steps) && StartedAt(steps, p, k)
    requires c < |After(steps).calls| && After(steps).calls[c] == Arrived(Some(message))
    ensures (exists longer :: EndsIn(steps, longer, c, k, message)) <==> CanReach(steps, p, k, message)
  {
    LookUpFinds(steps, p, k, c, message);
    RunSnoc(steps, LookUp(c));
    if CanReach(steps, p, k, message) {
      var longer := FoundCanEnd(steps, p, k, c, message);
    } else if exists longer :: EndsIn(steps, longer, c, k, message) {
      var longer :| EndsIn(steps, longer, c, k, message);
      CallContinues(steps + [LookUp(c)], longer, c);
      assert false;
    }
  }

  // Executions of one task that never overlap.

  ghost predicate Alone(s: State) {
    && (forall k :: 0 <= k < |s.executions| && s.executions[k].running ==> !s.executions[k].disturbed)
    && forall j, k :: 0 <= j < k < |s.executions| && s.executions[j].running && s.executions[k].running ==>
         s.executions[j].taskId != s.executions[k].taskId
  }

  ghost predicate NothingRunsFor(s: State, taskId: string) {
    forall k :: 0 <= k < |s.executions| && s.executions[k].running ==> s.executions[k].taskId != taskId
  }

  /** No execution is started while another one of the same task is running. */
  ghost predicate NeverOverlaps(steps: seq<Step>)
    requires CanRun(steps)
  {
    steps == [] ||
    (var before, last := steps[..|steps| - 1], steps[|steps| - 1];
     NeverOverlaps(before) && (last.Execute? ==> NothingRunsFor(After(before), last.taskId)))
  }

  lemma StepKeepsAlone(s: State, step: Step)
    requires Alone(s) && Enabled(s, step) && (step.Execute? ==> NothingRunsFor(s, step.taskId))
    ensures Alone(Next(s, step))
  {
  }

  /** Then every running execution is reachable through its inbox. */
  lemma {:induction false} AloneIsReachable(steps: seq<Step>)
    requires CanRun(steps) && NeverOverlaps(steps)
    ensures Alone(After(steps))
    ensures var s := After(steps);
      forall k :: 0 <= k < |s.executions| && s.executions[k].running ==>
        s.executions[k].taskId in s.registered && s.registered[s.executions[k].taskId] == k
  {
    RunKeepsInv(steps);
    if steps != [] {
      var before := steps[..|steps| - 1];
      AloneIsReachable(before);
      StepKeepsAlone(After(before), steps[|steps| - 1]);
      assert After(steps) == Next(After(before), steps[|steps| - 1]);
    }
  }
}

/** The handler itself: a register of inboxes that executions add to and remove from, and the routing of
    calls. Each method is a step of `FanIn`, or several in a row where nothing can come between. */
module FanInServer {
  import opened FanIn
  import opened Options

  /** A buffered channel. */
  class Channel {
    var letters: seq<Message>

    constructor ()
      ensures letters == []
    {
      letters := [];
    }

    method Send(message: Message)
      requires |letters| < CAPACITY
      modifies this
      ensures letters == old(letters) + [message] && |letters| <= CAPACITY
    {
      letters := letters + [message];
    }

    method Receive() returns (message: Message)
      requires letters != []
      modifies this
      ensures [message] + letters == old(letters)
    {
      message, letters := letters[0], letters[1..];
    }
  }

  /** How a call goes on: it is still waiting for room when it is blocked. */
  datatype Outcome = RoutedToInbox | Delegated | ContextDone | Blocked

  ghost predicate Steps(s: State, step: Step, t: State) {
    Enabled(s, step) && t == Next(s, step)
  }

  /** How a call goes on once it has looked its inbox up. */
  ghost predicate GoesOn(s: State, c: nat, outcome: Outcome, t: State) {
    match outcome
    case RoutedToInbox => Steps(s, Put(c), t)
    case ContextDone => Steps(s, Cancel(c), t)
    case _ => t == s
  }

  function Contents(letters: seq<Letter>): (r: seq<Message>)
    ensures |r| == |letters|
    ensures forall i :: 0 <= i < |r| ==> r[i] == letters[i].message
  {
    seq(|letters|, i requires 0 <= i < |letters| => letters[i].message)
  }

  lemma ContentsRest(letters: seq<Letter>)
    requires letters != []
    ensures Contents(letters[1..]) == Contents(letters)[1..]
  {
  }

  /** Every channel holds what is in the inbox it stands for. */
  ghost predicate Holds(channels: seq<Channel>, boxes: seq<Inbox>)
    reads channels
  {
    && |channels| == |boxes|
    && (forall j, k :: 0 <= j < k < |channels| ==> channels[j] != channels[k])
    && forall k :: 0 <= k < |channels| ==> channels[k].letters == Contents(boxes[k].queue)
  }

  ghost predicate Registers(inboxes: map<string, Channel>, channels: seq<Channel>, registered: map<string, nat>) {
    && inboxes.Keys == registered.Keys
    && forall t :: t in inboxes ==> registered[t] < |channels| && inboxes[t] == channels[registered[t]]
  }

  lemma FinishEffect(s: State, k: nat, inboxes: map<string, Channel>, channels: seq<Channel>)
    requires Inv(s) && Enabled(s, Finish(k)) && Registers(inboxes, channels, s.registered)
    ensures var t := Next(s, Finish(k));
      && Steps(s, Finish(k), t) && Inv(t) && t.inboxes == s.inboxes
      && Registers(inboxes - {s.executions[k].taskId}, channels, t.registered)
  {
    StepKeepsInv(s, Finish(k));
  }

  lemma ConsumeEffect(s: State, k: nat)
    requires Inv(s) && Enabled(s, Consume(k))
    ensures var t := Next(s, Consume(k));
      && Steps(s, Consume(k), t) && Inv(t) && t.registered == s.registered && |t.inboxes| == |s.inboxes| && k < |s.inboxes|
      && s.inboxes[k].queue != [] && Contents(s.inboxes[k].queue)[0] == s.inboxes[k].queue[0].message
      && Contents(t.inboxes[k].queue) == Contents(s.inboxes[k].queue)[1..]
      && forall i :: 0 <= i < |t.inboxes| && i != k ==> t.inboxes[i] == s.inboxes[i]
  {
    StepKeepsInv(s, Consume(k));
    ContentsRest(s.inboxes[k].queue);
  }

  /** `channels` holds the inboxes of all executions so far; `model` is where the steps taken have led. */
  class FanInHandler {
    var inboxes: map<string, Channel>
    ghost var channels: seq<Channel>
    ghost var model: State

    ghost predicate Valid()
      reads this, channels
    {
      Inv(model) && Holds(channels, model.inboxes) && Registers(inboxes, channels, model.registered)
    }

    constructor ()
      ensures Valid() && model == START && inboxes == map[]
    {
      inboxes, channels, model := map[], [], START;
    }

    method RegisterInbox(taskId: string, inbox: Channel)
      modifies this`inboxes
      ensures inboxes == old(inboxes)[taskId := inbox]
    {
      inboxes := inboxes[taskId := inbox];
    }

    method DeregisterInbox(taskId: string)
      modifies this`inboxes
      ensures inboxes == old(inboxes) - {taskId}
    {
      inboxes := inboxes - {taskId};
    }

    /** An execution starts: it registers a new inbox. */
    method BeginExecution(taskId: string) returns (inbox: Channel)
      requires Valid()
      modifies this
      ensures Valid() && fresh(inbox) && channels == old(channels) + [inbox]
      ensures Steps(old(model), Execute(taskId), model)
    {
      inbox := new Channel();
      RegisterInbox(taskId, inbox);
      StepKeepsInv(model, Execute(taskId));
      channels, model := channels + [inbox], Next(model, Execute(taskId));
    }

    /** Execution `k` ends, and takes out of the register what is registered for its task. */
    method EndExecution(ghost k: nat, taskId: string)
      requires Valid() && k < |model.executions| && model.executions[k].running && model.executions[k].taskId == taskId
      modifies this
      ensures Valid() && channels == old(channels)
      ensures Steps(old(model), Finish(k), model)
    {
      FinishEffect(model, k, inboxes, channels);
      DeregisterInbox(taskId);
      model := Next(model, Finish(k));
    }

    /** Execution `k` takes a message out of its inbox. */
    method ReceiveNext(ghost k: nat, inbox: Channel) returns (message: Message)
      requires Valid() && k < |channels| && channels[k] == inbox && model.executions[k].running && inbox.letters != []
      modifies this`model, inbox
      ensures Valid()
      ensures old(model.inboxes[k].queue) != [] && message == old(model.inboxes[k].queue[0].message)
      ensures Steps(old(model), Consume(k), model)
    {
      ConsumeEffect(model, k);
      message := inbox.Receive();
      model := Next(model, Consume(k));
    }

    /** Whether a call is for a task with an inbox. */
    predicate Intercepts(request: Option<Message>)
      reads this
    {
      request.Some? && request.value.taskId != "" && request.value.taskId in inboxes
    }

    method Find(request: Option<Message>) returns (found: Option<Channel>)
      ensures found.Some? <==> Intercepts(request)
      ensures found.Some? ==> found.value == inboxes[request.value.taskId]
    {
      found := None;
      if request.Some? && request.value.taskId != "" {
        if request.value.taskId in inboxes {
          found := Some(inboxes[request.value.taskId]);
        }
      }
    }

    /** Send into the inbox or end with the call's own context, whichever the runtime picks when both are
        possible; when neither is, the call goes on waiting. */
    static method Select(message: Message, inbox: Channel, contextDone: bool) returns (outcome: Outcome)
      modifies inbox
      ensures outcome.RoutedToInbox? ==> |old(inbox.letters)| < CAPACITY && inbox.letters == old(inbox.letters) + [message] && |inbox.letters| <= CAPACITY
      ensures !outcome.RoutedToInbox? ==> inbox.letters == old(inbox.letters)
      ensures outcome.ContextDone? ==> contextDone
      ensures outcome.Blocked? <==> |old(inbox.letters)| >= CAPACITY && !contextDone
      ensures !outcome.Delegated?
    {
      var picksContext: bool := *;
      if contextDone && (picksContext || |inbox.letters| >= CAPACITY) {
        return ContextDone;
      }
      if |inbox.letters| >= CAPACITY {
        return Blocked;
      }
      inbox.Send(message);
      return RoutedToInbox;
    }

    /** One call, from its lookup on, when nothing comes between: a call that is not intercepted is
        delegated and changes no inbox; any other is sent, or ended, or left waiting. */
    method SendMessage(request: Option<Message>, contextDone: bool) returns (outcome: Outcome)
      modifies inboxes.Values
      ensures outcome.Delegated? <==> !Intercepts(request)
      ensures outcome.ContextDone? ==> contextDone
      ensures outcome.Blocked? <==> Intercepts(request) && |old(inboxes[request.value.taskId].letters)| >= CAPACITY && !contextDone
      ensures outcome.RoutedToInbox? ==>
                inboxes[request.value.taskId].letters == old(inboxes[request.value.taskId].letters) + [request.value]
      ensures outcome.RoutedToInbox? ==> |inboxes[request.value.taskId].letters| <= CAPACITY
      ensures forall channel :: channel in inboxes.Values && !(outcome.RoutedToInbox? && channel == inboxes[request.value.taskId])
                ==> channel.letters == old(channel.letters)
    {
      var found := Find(request);
      if found == None {
        return Delegated;
      }
      outcome := Select(request.value, found.value, contextDone);
    }

    // The same calls as steps of `FanIn`.

    /** Call `c` looks up its inbox, if it is intercepted. */
    method LookUpInbox(ghost c: nat, request: Option<Message>) returns (found: Option<Channel>, ghost k: nat)
      requires Valid() && c < |model.calls| && model.calls[c] == Arrived(request)
      modifies this`model
      ensures Valid() && Steps(old(model), LookUp(c), model)
      ensures found.Some? ==> k < |channels| && channels[k] == found.value && c < |model.calls| && model.calls[c] == Sending(request, k)
      ensures found.Some? <==> Intercepts(request)
      ensures found.Some? ==> found.value == inboxes[request.value.taskId]
    {
      found := Find(request);
      k := if found.Some? then model.registered[request.value.taskId] else 0;
      StepKeepsInv(model, LookUp(c));
      model := Next(model, LookUp(c));
    }

    /** The call that found an inbox sends into it, or ends, or goes on waiting. The inbox need not be
        registered any more. */
    method TrySend(ghost c: nat, ghost k: nat, message: Message, inbox: Channel, contextDone: bool) returns (outcome: Outcome)
      requires Valid() && c < |model.calls| && model.calls[c] == Sending(Some(message), k)
      requires k < |channels| && channels[k] == inbox
      modifies this`model, inbox
      ensures Valid() && GoesOn(old(model), c, outcome, model)
      ensures outcome.ContextDone? ==> contextDone
      ensures outcome.Blocked? <==> |old(inbox.letters)| >= CAPACITY && !contextDone
      ensures !outcome.Delegated?
    {
      outcome := Select(message, inbox, contextDone);
      if outcome.RoutedToInbox? {
        StepKeepsInv(model, Put(c));
        model := Next(model, Put(c));
      } else if outcome.ContextDone? {
        StepKeepsInv(model, Cancel(c));
        model := Next(model, Cancel(c));
      }
    }

    /** A call arrives. */
    ghost method Receives(request: Option<Message>)
      requires Valid()
      modifies this`model
      ensures Valid() && inboxes == old(inboxes) && Steps(old(model), Arrive(request), model)
      ensures |old(model).calls| < |model.calls| && model.calls[|old(model).calls|] == Arrived(request)
    {
      StepKeepsInv(model, Arrive(request));
      model := Next(model, Arrive(request));
    }

    /** One call, from its arrival on, when nothing comes between, is these steps in a row. */
    method Serve(request: Option<Message>, contextDone: bool) returns (outcome: Outcome, ghost arrived: State, ghost sought: State)
      requires Valid()
      modifies this`model, inboxes.Values
      ensures Valid()
      ensures Steps(old(model), Arrive(request), arrived) && Steps(arrived, LookUp(|old(model).calls|), sought)
      ensures GoesOn(sought, |old(model).calls|, outcome, model)
      ensures outcome.Delegated? <==> !Intercepts(request)
    {
      ghost var c := |model.calls|;
      Receives(request);
      arrived := model;
      var found: Option<Channel>;
      ghost var k;
      found, k := LookUpInbox(c, request);
      sought := model;
      if found == None {
        return Delegated, arrived, sought;
      }
      outcome := TrySend(c, k, request.value, found.value, contextDone);
    }
  }
}
