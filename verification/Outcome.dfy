/** The guaranteed outcome of the incident session: under every interleaving, a run without failures
    that cannot go on has carried the incident through to its end. */
module Outcome {
  import opened Sequences
  import opened Scenarios
  import opened Options
  import opened Wire
  import opened Relay
  import opened RelayProperties
  import opened Execution
  import opened Executors
  import opened Rooms
  import opened Conversations
  import opened Sessions
  import opened Incident
  import opened Bounds
  import opened Liveness
  import opened GentleRuns

  /** What the client did, in order. */
  function ClientLog(log: seq<Entry>): seq<Entry> {
    if log == [] then []
    else
      var last := log[|log| - 1];
      ClientLog(log[..|log| - 1]) + if last.FromClient? || last.CloseSends? then [last] else []
  }

  /** One trigger, one approval, one close. */
  function ClientPart(sc: Scenario): seq<Entry> {
    [ClientEntry(sc, sc.trigger), ClientEntry(sc, sc.approval), CloseSends]
  }

  ghost predicate ExecutionIn(sc: Scenario, log: seq<Entry>) {
    exists p :: 0 <= p < |log| && AgentSays(log, p, sc.remediation, sc.executed)
  }

  /** The client has done a part of its part, and if it closed it did all of it, after an execution. */
  ghost predicate ClientOnCourse(sc: Scenario, log: seq<Entry>, clientOpen: bool) {
    && ClientLog(log) <= ClientPart(sc)
    && (!clientOpen ==> ClientLog(log) == ClientPart(sc) && ExecutionIn(sc, log))
  }

  ghost predicate Unharmed(sc: Scenario, s: Session<Memory>) {
    Rested(s.room) && LeftCleanly(s.room.relay) && ClientOnCourse(sc, s.room.relay.log, s.room.relay.clientOpen)
  }

  lemma ClientLogSnoc(log: seq<Entry>, entry: Entry)
    ensures ClientLog(log + [entry]) == ClientLog(log) + if entry.FromClient? || entry.CloseSends? then [entry] else []
  {
    assert (log + [entry])[..|log|] == log;
  }

  lemma {:induction false} ClientLogLength(log: seq<Entry>)
    ensures |ClientLog(log)| == ClientTurns(log)
  {
    if log != [] {
      ClientLogLength(log[..|log| - 1]);
    }
  }

  /** The close is put after the execution was read. */
  lemma CloseNeedsExecution(sc: Scenario, log: seq<Entry>, k: nat)
    requires Fits(sc) && Legal(sc, log)
    requires k < |Script(SetupOf(sc), Emissions(log))| && Script(SetupOf(sc), Emissions(log))[k] == None
    ensures k == 2 && ExecutionIn(sc, log)
  {
    var puts := Replies(Client(sc), Emissions(log)).puts;
    ScriptIsDetermined(sc, log);
    assert puts[k - 1] in puts;
    var j := PutsHaveReasons(sc, Emissions(log), None);
    var p := EmissionHasPosition(log, j);
    RemediationSays(sc, log, p);
    assert AgentSays(log, p, sc.remediation, sc.executed);
  }

  lemma ExecutionStays(sc: Scenario, log: seq<Entry>, entry: Entry)
    requires ExecutionIn(sc, log)
    ensures ExecutionIn(sc, log + [entry])
  {
    var p :| 0 <= p < |log| && AgentSays(log, p, sc.remediation, sc.executed);
    assert AgentSays(log + [entry], p, sc.remediation, sc.executed);
  }

  lemma ClientEntryStaysOnCourse(sc: Scenario, log: seq<Entry>, entry: Entry)
    requires Fits(sc) && Legal(sc, log) && ScriptedEntry(SetupOf(sc), log, entry) && !TornDown(log)
    requires entry.FromClient? || entry.CloseSends?
    requires ClientLog(log) <= ClientPart(sc)
    ensures ClientOnCourse(sc, log + [entry], !entry.CloseSends?)
  {
    ClientLogSnoc(log, entry);
    ClientLogLength(log);
    var k := ClientTurns(log);
    if entry.FromClient? {
      ClientTurnIsEarly(sc, log, entry);
      assert entry == ClientPart(sc)[k];
    } else {
      CloseNeedsExecution(sc, log, k);
      ExecutionStays(sc, log, entry);
    }
    assert ClientLog(log) + [entry] == ClientPart(sc)[..k + 1];
  }

  lemma OtherEntryStaysOnCourse(sc: Scenario, log: seq<Entry>, entry: Entry, clientOpen: bool)
    requires ClientOnCourse(sc, log, clientOpen) && !entry.FromClient? && !entry.CloseSends?
    ensures ClientOnCourse(sc, log + [entry], clientOpen)
  {
    ClientLogSnoc(log, entry);
    if !clientOpen {
      ExecutionStays(sc, log, entry);
    }
  }

  // A stopped agent has read a sentinel.

  lemma StoppedIsShutDown(sc: Scenario, s: Session<Memory>, n: string)
    requires Fits(sc) && SessionInv(SetupOf(sc), s) && n in Memories(sc)
    ensures n in s.room.agents && n in s.room.relay.delivered && n in s.room.relay.queues && n in s.room.responses
    ensures s.room.agents[n].stopped <==> Sentinel in s.room.relay.delivered[n]
    ensures s.room.agents[n].stopped ==> Sentinels(s.room.relay.log) > 0
  {
    MemoriesFit(sc);
    var relay := s.room.relay;
    assert relay.delivered[n] + relay.queues[n] == Projection(relay.log, n);
    ConversationIsHeard(relay.log, n);
    NobodyCrashes(sc, relay.log, n);
    StopsAtShutdown(Behaviour(sc), n, Memories(sc)[n], relay.delivered[n], relay.queues[n]);
  }

  // The invariant of gentle runs.

  lemma YieldStaysOnCourse(sc: Scenario, s: Session<Memory>)
    requires Fits(sc) && SessionInv(SetupOf(sc), s) && MayTurn(SetupOf(sc), s, Yield)
    requires ClientOnCourse(sc, s.room.relay.log, s.room.relay.clientOpen)
    ensures var t := DoTurn(SetupOf(sc), s, Yield);
      ClientOnCourse(sc, t.room.relay.log, t.room.relay.clientOpen)
  {
    var setup, log, pending := SetupOf(sc), s.room.relay.log, Pending(SetupOf(sc), s);
    YieldEffect(setup, s);
    var entry := YieldEntry(setup, pending[0]);
    YieldIsScripted(setup, log, s.room.relay.yielded, Values(s.room.relay.output), s.approved, pending, entry);
    ClientEntryStaysOnCourse(sc, log, entry);
    assert DoTurn(setup, s, Yield).room.relay.clientOpen == !entry.CloseSends?;
  }

  lemma YieldKeepsUnharmed(sc: Scenario, s: Session<Memory>)
    requires Fits(sc) && SessionInv(SetupOf(sc), s) && Unharmed(sc, s) && MayTurn(SetupOf(sc), s, Yield)
    ensures Unharmed(sc, DoTurn(SetupOf(sc), s, Yield))
  {
    YieldStaysOnCourse(sc, s);
    YieldEffect(SetupOf(sc), s);
    var a := YieldAction(Pending(SetupOf(sc), s)[0]);
    ActionKeepsRested(Behaviour(sc), s.room, a);
    ActionLeavesCleanly(Behaviour(sc), s.room, a);
  }

  /** The caller's loop ends only after the client has closed. */
  lemma LoopEndsAfterClose(sc: Scenario, s: Session<Memory>)
    requires Fits(sc) && SessionInv(SetupOf(sc), s) && Rested(s.room)
    requires s.room.relay.collecting && s.room.relay.doneCount == |s.room.relay.names|
    ensures s.room.relay.reading == {} && s.room.relay.output == [] && !s.room.relay.clientOpen
  {
    var relay := s.room.relay;
    AllCounted(relay.names, relay.output, relay.doneCount, relay.reading);
    MemoriesFit(sc);
    StoppedIsShutDown(sc, s, sc.remediation);
  }

  lemma ActStaysOnCourse(sc: Scenario, s: Session<Memory>, a: Action)
    requires Unharmed(sc, s) && MayTurn(SetupOf(sc), s, Act(a))
    ensures var t := DoTurn(SetupOf(sc), s, Act(a));
      ClientOnCourse(sc, t.room.relay.log, t.room.relay.clientOpen)
  {
    ActEffect(SetupOf(sc), s, a);
    var log, more := s.room.relay.log, Logged(s.room, a);
    if more == [] {
      assert log + more == log;
    } else {
      OtherEntryStaysOnCourse(sc, log, more[0], s.room.relay.clientOpen);
    }
  }

  lemma LeavingMeansDone<M>(s: Session<M>)
    requires May(s.room, CallerLeaves) && Gentle(s, Act(CallerLeaves))
    ensures s.room.relay.collecting && s.room.relay.doneCount == |s.room.relay.names|
  {
  }

  lemma ActKeepsUnharmed(sc: Scenario, s: Session<Memory>, a: Action)
    requires Fits(sc) && SessionInv(SetupOf(sc), s) && Unharmed(sc, s)
    requires MayTurn(SetupOf(sc), s, Act(a)) && Gentle(s, Act(a))
    ensures Unharmed(sc, DoTurn(SetupOf(sc), s, Act(a)))
  {
    ActStaysOnCourse(sc, s, a);
    if a == CallerLeaves {
      LeavingMeansDone(s);
      LoopEndsAfterClose(sc, s);
    }
    ActionLeavesCleanly(Behaviour(sc), s.room, a);
    ActionKeepsRested(Behaviour(sc), s.room, a);
    ActEffect(SetupOf(sc), s, a);
  }

  lemma BeginsUnharmed(sc: Scenario)
    requires Fits(sc)
    ensures Unharmed(sc, Begin(SetupOf(sc)))
  {
    MemoriesFit(sc);
  }

  lemma {:induction false} GentleRunsAreUnharmed(sc: Scenario, turns: seq<Turn>)
    requires Fits(sc) && GoesGently(SetupOf(sc), turns)
    ensures SessionInv(SetupOf(sc), Reached(SetupOf(sc), turns)) && Unharmed(sc, Reached(SetupOf(sc), turns))
  {
    MemoriesFit(sc);
    SessionKeepsInv(SetupOf(sc), turns);
    if turns == [] {
      BeginsUnharmed(sc);
    } else {
      var before, last := turns[..|turns| - 1], turns[|turns| - 1];
      GentleRunsAreUnharmed(sc, before);
      var s := Reached(SetupOf(sc), before);
      match last
      case Yield => YieldKeepsUnharmed(sc, s);
      case Act(a) => ActKeepsUnharmed(sc, s, a);
      assert Reached(SetupOf(sc), turns) == DoTurn(SetupOf(sc), s, last);
    }
  }

  // A settled run has left.

  lemma SettledStreamsAreOpen(sc: Scenario, s: Session<Memory>)
    requires Fits(sc) && SessionInv(SetupOf(sc), s) && Unharmed(sc, s)
    requires Settled(SetupOf(sc), s) && s.room.relay.collecting
    ensures s.room.relay.clientOpen && Sentinels(s.room.relay.log) == 0
  {
    var relay := s.room.relay;
    SettledCaller(SetupOf(sc), s);
    MemoriesFit(sc);
    var n :| n in relay.reading;
    StoppedIsShutDown(sc, s, n);
    SettledAgent(SetupOf(sc), s, n);
    assert relay.delivered[n] + relay.queues[n] == relay.delivered[n] == Projection(relay.log, n);
    ConversationIsHeard(relay.log, n);
  }

  /** Nothing in transit: an agent that has read its whole projection, and was read, has said all. */
  lemma SettledAgentSaidAll(sc: Scenario, s: Session<Memory>, n: string)
    requires Fits(sc) && SessionInv(SetupOf(sc), s) && Unharmed(sc, s)
    requires Settled(SetupOf(sc), s) && s.room.relay.collecting && n in Memories(sc)
    requires Sentinels(s.room.relay.log) == 0
    ensures Said(s.room.relay.log, n) == Full(Behaviour(sc), Memories(sc), s.room.relay.log, n)
  {
    var relay := s.room.relay;
    MemoriesFit(sc);
    StoppedIsShutDown(sc, s, n);
    SettledAgent(SetupOf(sc), s, n);
    ConversationIsHeard(relay.log, n);
    assert relay.delivered[n] + relay.queues[n] == Projection(relay.log, n);
    assert relay.queues[n] == [];
    assert relay.delivered[n] + [] == relay.delivered[n];
    assert Said(relay.log, n) + s.room.responses[n] == Said(relay.log, n);
  }

  lemma SettledClientSaidAll(sc: Scenario, s: Session<Memory>)
    requires SessionInv(SetupOf(sc), s)
    requires Settled(SetupOf(sc), s) && s.room.relay.collecting && s.room.relay.clientOpen
    ensures ClientTurns(s.room.relay.log) == |Script(SetupOf(sc), Emissions(s.room.relay.log))|
  {
    SettledCaller(SetupOf(sc), s);
    assert s.room.relay.yielded + [] == s.room.relay.yielded;
    assert Values(s.room.relay.output) == [];
  }

  lemma SettledHasLeft(sc: Scenario, s: Session<Memory>)
    requires Fits(sc) && SessionInv(SetupOf(sc), s) && Unharmed(sc, s) && Settled(SetupOf(sc), s)
    ensures !s.room.relay.collecting
  {
    if s.room.relay.collecting {
      SettledStreamsAreOpen(sc, s);
      SettledClientSaidAll(sc, s);
      forall n | n in Memories(sc)
        ensures Said(s.room.relay.log, n) == Full(Behaviour(sc), Memories(sc), s.room.relay.log, n)
      {
        SettledAgentSaidAll(sc, s, n);
      }
      NothingIsComplete(sc, s.room.relay.log);
      assert false;
    }
  }

  // What a session that has ended has done.

  /** What each agent says in a session that is carried through. */
  ghost predicate Delivers(sc: Scenario, name: string, updates: seq<Update>) {
    if name == sc.monitoring then updates == [Update(Working, sc.metrics)]
    else if name == sc.logger then updates == LogUpdates(sc.logs)
    else if name == sc.diagnostics then exists signals :: Total(signals) >= 0.7 && updates == [DiagnosisFor(sc, signals)]
    else updates == [Update(InputRequired, sc.plan), Update(Working, sc.executed)]
  }

  /** An agent's whole output: one task, its updates, one status that says the task is completed. */
  ghost predicate SaidItsPart(sc: Scenario, log: seq<Entry>, name: string) {
    exists task, updates :: Delivers(sc, name, updates)
      && Said(log, name) == [TaskResponse(task)] + UpdateResponses(name, task, updates)
                            + [StatusResponse(StatusUpdate(task.id, task.contextId, Completed, None))]
  }

  lemma SentinelEnds(slots: seq<Slot>)
    requires StopsAtSentinel(slots) && Sentinel in slots
    ensures Closed(slots)
  {
    var k :| 0 <= k < |slots| && slots[k] == Sentinel;
  }

  lemma EndedTrace(sc: Scenario, s: Session<Memory>, n: string)
    requires Fits(sc) && SessionInv(SetupOf(sc), s) && Unharmed(sc, s) && !s.room.relay.collecting && n in Memories(sc)
    ensures n in s.room.relay.delivered && Closed(s.room.relay.delivered[n])
    ensures Said(s.room.relay.log, n) ==
              Trace(n, Heard(Projection(s.room.relay.log, n)), UpdatesOn(sc, s.room.relay.log, n), true)
  {
    var relay := s.room.relay;
    MemoriesFit(sc);
    StoppedIsShutDown(sc, s, n);
    SentinelEnds(relay.delivered[n]);
    assert relay.delivered[n] + relay.queues[n] == Projection(relay.log, n);
    ShutDownTrace(Behaviour(sc), n, Memories(sc)[n], relay.delivered[n], relay.queues[n]);
    ConversationIsHeard(relay.log, n);
    assert Said(relay.log, n) + s.room.responses[n] == Said(relay.log, n);
  }

  lemma ExecutionAlarms(sc: Scenario, log: seq<Entry>, name: string)
    requires Fits(sc) && Legal(sc, log) && ExecutionIn(sc, log) && name in Agents(sc)
    ensures CountAlarms(Conversation(log, name), name) > 0
  {
    var p :| 0 <= p < |log| && AgentSays(log, p, sc.remediation, sc.executed);
    ExecutionHasChain(sc, log, p);
    var t, evidence, diagnosis, plan, approval :| Chain(sc, log, t, evidence, diagnosis, plan, approval, p);
    var trigger := EvidenceNeedsTrigger(sc, log, evidence);
    TriggerAlarms(sc, log, trigger, name);
  }

  lemma MonitoringDelivers(sc: Scenario, log: seq<Entry>)
    requires Fits(sc) && Legal(sc, log) && ExecutionIn(sc, log)
    ensures Mind(Behaviour(sc), Monitoring, Conversation(log, sc.monitoring)).updates == [Update(Working, sc.metrics)]
  {
    ExecutionAlarms(sc, log, sc.monitoring);
    MonitoringAnswersEveryAlarm(sc, Conversation(log, sc.monitoring));
    AlarmsComeFromTheClient(sc, log, sc.monitoring);
    ClientSpeaksTwice(sc, log);
    var updates := Mind(Behaviour(sc), Monitoring, Conversation(log, sc.monitoring)).updates;
    assert updates[0] in updates;
  }

  lemma LoggerDelivers(sc: Scenario, log: seq<Entry>)
    requires Fits(sc) && Legal(sc, log) && ExecutionIn(sc, log)
    ensures Mind(Behaviour(sc), FRESH_LOGGER, Conversation(log, sc.logger)).updates == LogUpdates(sc.logs)
  {
    ExecutionAlarms(sc, log, sc.logger);
    LoggerSendsItsLinesOnce(sc, Conversation(log, sc.logger));
  }

  lemma {:induction false} TotalGrows(sc: Scenario, a: seq<Line>, b: seq<Line>)
    requires a <= b
    ensures Total(Found(sc, a)) <= Total(Found(sc, b))
  {
    if |a| < |b| {
      var init, last := b[..|b| - 1], b[|b| - 1];
      TotalGrows(sc, a, init);
      TotalConcat(Found(sc, init), NewSignals(sc, last));
      TotalNonnegative(NewSignals(sc, last));
    } else {
      assert a == b;
    }
  }

  lemma ChainHasEvidence(sc: Scenario, log: seq<Entry>, t: nat, evidence: nat, diagnosis: nat, plan: nat, approval: nat, p: nat)
    requires Chain(sc, log, t, evidence, diagnosis, plan, approval, p)
    ensures diagnosis < |log| && Total(Found(sc, Conversation(log[..diagnosis], sc.diagnostics))) >= THRESHOLD
  {
  }

  lemma EvidenceStays(sc: Scenario, log: seq<Entry>, q: nat)
    requires q <= |log| && Total(Found(sc, Conversation(log[..q], sc.diagnostics))) >= THRESHOLD
    ensures Total(Found(sc, Conversation(log, sc.diagnostics))) >= THRESHOLD
  {
    ConversationGrows(log, sc.diagnostics, q);
    TotalGrows(sc, Conversation(log[..q], sc.diagnostics), Conversation(log, sc.diagnostics));
  }

  lemma ExecutionHasEvidence(sc: Scenario, log: seq<Entry>)
    requires Fits(sc) && Legal(sc, log) && ExecutionIn(sc, log)
    ensures Total(Found(sc, Conversation(log, sc.diagnostics))) >= THRESHOLD
  {
    var p :| 0 <= p < |log| && AgentSays(log, p, sc.remediation, sc.executed);
    ExecutionHasChain(sc, log, p);
    var t, evidence, diagnosis, plan, approval :| Chain(sc, log, t, evidence, diagnosis, plan, approval, p);
    ChainHasEvidence(sc, log, t, evidence, diagnosis, plan, approval, p);
    EvidenceStays(sc, log, diagnosis);
  }

  lemma DiagnosticsDelivers(sc: Scenario, log: seq<Entry>)
    requires Fits(sc) && Legal(sc, log) && ExecutionIn(sc, log)
    ensures exists signals :: Total(signals) >= THRESHOLD
              && Mind(Behaviour(sc), FRESH_DIAGNOSTICS, Conversation(log, sc.diagnostics)).updates == [DiagnosisFor(sc, signals)]
  {
    ExecutionHasEvidence(sc, log);
    DiagnosticsSays(sc, Conversation(log, sc.diagnostics));
  }

  lemma ExecutedHasSucceeded(sc: Scenario, lines: seq<Line>, mind: Reaction<Memory>, u: Update)
    requires InPhase(sc, lines, mind) && u in mind.updates && u.text == sc.executed && sc.executed != sc.plan
    ensures Succeeds(Noticed(sc), APPROVES, lines)
  {
  }

  lemma SuccessStays<T>(p: T -> bool, q: T -> bool, a: seq<T>, b: seq<T>)
    requires a <= b && Succeeds(p, q, a)
    ensures Succeeds(p, q, b)
  {
    var n := First(p, a, 0);
    FirstTwo(p, q, b, n, First(q, a, n + 1));
  }

  lemma RemediationDelivers(sc: Scenario, log: seq<Entry>)
    requires Fits(sc) && Legal(sc, log) && ExecutionIn(sc, log)
    ensures Mind(Behaviour(sc), FRESH_REMEDIATION, Conversation(log, sc.remediation)).updates
         == [Update(InputRequired, sc.plan), Update(Working, sc.executed)]
  {
    var p :| 0 <= p < |log| && AgentSays(log, p, sc.remediation, sc.executed);
    FitsTellsApart(sc);
    ContainsSomething(sc.executed, "REMEDIATION EXECUTED:");
    var u := SaidUpdate(sc, log, p);
    MemoriesFit(sc);
    var lines, before := Conversation(log, sc.remediation), Conversation(log[..p], sc.remediation);
    RemediationPhases(sc, before);
    ExecutedHasSucceeded(sc, before, Mind(Behaviour(sc), FRESH_REMEDIATION, before), u);
    ConversationGrows(log, sc.remediation, p);
    SuccessStays(Noticed(sc), APPROVES, before, lines);
    NobodyCrashes(sc, log, sc.remediation);
    RemediationPhases(sc, lines);
    ApprovedIsExecuted(sc, lines, Mind(Behaviour(sc), FRESH_REMEDIATION, lines));
  }

  lemma EveryoneDelivers(sc: Scenario, log: seq<Entry>, n: string)
    requires Fits(sc) && Legal(sc, log) && ExecutionIn(sc, log) && n in Memories(sc)
    ensures Delivers(sc, n, UpdatesOn(sc, log, n))
  {
    MemoriesFit(sc);
    if n == sc.monitoring {
      MonitoringDelivers(sc, log);
    } else if n == sc.logger {
      LoggerDelivers(sc, log);
    } else if n == sc.diagnostics {
      DiagnosticsDelivers(sc, log);
    } else {
      RemediationDelivers(sc, log);
    }
  }

  lemma EveryoneSaidTheirPart(sc: Scenario, s: Session<Memory>, n: string)
    requires Fits(sc) && SessionInv(SetupOf(sc), s) && Unharmed(sc, s) && !s.room.relay.collecting && n in Memories(sc)
    ensures SaidItsPart(sc, s.room.relay.log, n)
  {
    var log := s.room.relay.log;
    EndedTrace(sc, s, n);
    MemoriesFit(sc);
    ExecutionAlarms(sc, log, n);
    AlarmedHasHeard(Conversation(log, n), n);
    FullIsTrace(sc, log, n);
    EveryoneDelivers(sc, log, n);
    var task := NewTask(Heard(Projection(log, n))[0]);
    assert Said(log, n) == [TaskResponse(task)] + UpdateResponses(n, task, UpdatesOn(sc, log, n))
                           + [StatusResponse(StatusUpdate(task.id, task.contextId, Completed, None))];
  }

  /** The session has been carried through: the caller has been handed every response and has left; the
      client sent its trigger, one approval and its close, in this order; every reader has ended and
      every agent's stream was read to its end; and each agent said exactly its part - one metrics
      update, the log lines, one diagnosis, one plan and one execution - between its task and its
      completion. */
  ghost predicate CarriedThrough(sc: Scenario, relay: State) {
    && !relay.collecting && !relay.clientOpen && relay.reading == {} && relay.output == []
    && relay.yielded == Emissions(relay.log)
    && ClientLog(relay.log) == ClientPart(sc)
    && forall n :: n in Agents(sc) ==> n in relay.delivered && Closed(relay.delivered[n]) && SaidItsPart(sc, relay.log, n)
  }

  lemma SettledIsCarriedThrough(sc: Scenario, s: Session<Memory>)
    requires Fits(sc) && SessionInv(SetupOf(sc), s) && Unharmed(sc, s) && Settled(SetupOf(sc), s)
    ensures CarriedThrough(sc, s.room.relay)
  {
    SettledHasLeft(sc, s);
    MemoriesFit(sc);
    forall n | n in Memories(sc)
      ensures n in s.room.relay.delivered && Closed(s.room.relay.delivered[n]) && SaidItsPart(sc, s.room.relay.log, n)
    {
      EndedTrace(sc, s, n);
      EveryoneSaidTheirPart(sc, s, n);
    }
    assert s.room.relay.yielded + [] == s.room.relay.yielded;
  }

  /** Every maximal failure-free run, under any interleaving of client, relay, readers, caller and
      agents, has carried the session through; and it is finite. */
  lemma GuaranteedOutcome(sc: Scenario, turns: seq<Turn>)
    requires Fits(sc) && GoesGently(SetupOf(sc), turns) && Settled(SetupOf(sc), Reached(SetupOf(sc), turns))
    ensures CarriedThrough(sc, Reached(SetupOf(sc), turns).room.relay)
    ensures |turns| <= 6 * (|sc.logs| + 12) + 28
  {
    GentleRunsAreUnharmed(sc, turns);
    SettledIsCarriedThrough(sc, Reached(SetupOf(sc), turns));
    RunsAreBounded(sc, turns);
  }

  lemma GentleSnoc<M>(setup: Setup<M>, turns: seq<Turn>, turn: Turn)
    requires GoesGently(setup, turns) && MayTurn(setup, Reached(setup, turns), turn) && Gentle(Reached(setup, turns), turn)
    ensures GoesGently(setup, turns + [turn])
  {
    assert (turns + [turn])[..|turns|] == turns;
  }

  /** Every failure-free run can be continued, without failures, until it cannot go on; so such runs
      exist, and each of them is carried through. */
  lemma {:induction false} EveryGentleRunSettles(sc: Scenario, turns: seq<Turn>) returns (longer: seq<Turn>)
    requires Fits(sc) && GoesGently(SetupOf(sc), turns)
    ensures turns <= longer && GoesGently(SetupOf(sc), longer) && Settled(SetupOf(sc), Reached(SetupOf(sc), longer))
    ensures CarriedThrough(sc, Reached(SetupOf(sc), longer).room.relay)
    decreases 6 * (|sc.logs| + 12) + 28 - |turns|
  {
    var setup := SetupOf(sc);
    RunsAreBounded(sc, turns);
    if turn :| MayTurn(setup, Reached(setup, turns), turn) && Gentle(Reached(setup, turns), turn) {
      GentleSnoc(setup, turns, turn);
      RunsAreBounded(sc, turns + [turn]);
      longer := EveryGentleRunSettles(sc, turns + [turn]);
    } else {
      longer := turns;
      GuaranteedOutcome(sc, turns);
    }
  }
}
