/** The guaranteed outcome over the group channel: a failure-free run that cannot go on has carried the
    incident through, just as over point-to-point streams. */
module GroupOutcome {
  import opened Options
  import opened Scenarios
  import opened Wire
  import opened Relay
  import opened RelayProperties
  import opened Execution
  import opened Executors
  import opened AgentLoops
  import opened Multicast
  import opened EchoedStreams
  import opened Echoes
  import opened Rooms
  import opened Conversations
  import opened Sessions
  import opened Incident
  import opened Liveness
  import opened Outcome
  import opened GroupSessions
  import opened GroupIncident

  /** Every agent's stream has ended and was read to its end, so the transport's response stream ends. */
  ghost predicate AllEnded<M>(s: GroupSession<M>) {
    forall n :: n in s.agents ==> n in s.responses && s.agents[n].stopped && s.responses[n] == []
  }

  ghost predicate GentleTurn<M>(s: GroupSession<M>, turn: GroupTurn) {
    turn.CallerStops? ==> AllEnded(s)
  }

  ghost predicate GroupGoesGently<M>(setup: Setup<M>, turns: seq<GroupTurn>) {
    && CanGo(setup, turns)
    && (turns == [] ||
        (var before := turns[..|turns| - 1];
         GroupGoesGently(setup, before) && GentleTurn(Gone(setup, before), turns[|turns| - 1])))
  }

  ghost predicate SettledGroup<M>(setup: Setup<M>, s: GroupSession<M>) {
    forall turn :: MayGo(setup, s, turn) ==> !GentleTurn(s, turn)
  }

  /** No failure so far. */
  ghost predicate GroupUnharmed(sc: Scenario, s: GroupSession<Memory>) {
    && CountsCloses(s)
    && ClientOnCourse(sc, s.group.log, s.group.clientOpen)
    && (!s.group.relaying ==> AllEnded(s) && !s.group.clientOpen)
  }

  // What an agent has heard of the merged stream.

  lemma {:induction false} MergedSentinels(log: seq<Entry>)
    ensures Sentinel in Merged(log) <==> Sentinels(log) > 0
  {
    if log != [] {
      var init, last := log[..|log| - 1], log[|log| - 1];
      MergedSentinels(init);
      assert Sentinel in Merged(log) <==> Sentinel in Merged(init) || Sentinel in MergedContribution(last);
    }
  }

  /** Whatever was heard so far is the merged stream of a part of the log. */
  lemma {:induction false} HeardPart(log: seq<Entry>, k: nat) returns (p: nat)
    requires k <= |Merged(log)|
    ensures p <= |log| && Merged(log[..p]) == Merged(log)[..k]
  {
    if k == |Merged(log)| {
      p := |log|;
      assert log[..p] == log && Merged(log)[..k] == Merged(log);
    } else {
      var init := log[..|log| - 1];
      p := HeardPart(init, k);
      assert log[..p] == init[..p];
      assert Merged(log)[..k] == Merged(init)[..k];
    }
  }

  lemma SpokenPart(sc: Scenario, log: seq<Entry>, p: nat)
    requires Fits(sc) && Legal(sc, log) && p <= |log|
    ensures Legal(sc, log[..p]) && SpokenInGroup(Behaviour(sc), Memories(sc), log[..p])
  {
    if p < |log| {
      LegalPrefix(sc, log, p);
    } else {
      assert log[..p] == log;
    }
    IncidentLogsAreTheSame(sc, log[..p]);
  }

  lemma StoppedOnProjection(sc: Scenario, log: seq<Entry>, n: string)
    requires Fits(sc) && Legal(sc, log) && n in Memories(sc)
    ensures Upto(Behaviour(sc), Boot(n, Memories(sc)[n]), Projection(log, n)).stopped <==> Sentinels(log) > 0
  {
    TraceShape(Behaviour(sc), n, Memories(sc)[n], Projection(log, n));
    ConversationIsHeard(log, n);
    NobodyCrashes(sc, log, n);
  }

  /** On the merged stream of a legal log an agent has stopped exactly if the stream holds a sentinel, and
      it emits what it emits on its projection. */
  lemma OnMergedStream(sc: Scenario, log: seq<Entry>, n: string)
    requires Fits(sc) && Legal(sc, log) && n in Memories(sc)
    ensures Upto(Behaviour(sc), Boot(n, Memories(sc)[n]), Merged(log)).stopped <==> Sentinels(log) > 0
    ensures Events(Behaviour(sc), Boot(n, Memories(sc)[n]), Merged(log)) == Full(Behaviour(sc), Memories(sc), log, n)
  {
    MemoriesFit(sc);
    IncidentLogsAreTheSame(sc, log);
    EveryoneSpeaksForThemselves(Behaviour(sc), Memories(sc), log, n);
    GroupSessionIsTheSame(sc, Memories(sc)[n], log);
    StoppedOnProjection(sc, log, n);
  }

  /** An agent has stopped exactly if it has heard a sentinel. */
  lemma StoppedHasHeard(sc: Scenario, s: GroupSession<Memory>, n: string)
    requires Fits(sc) && GroupSessionInv(SetupOf(sc), s) && Legal(sc, s.group.log) && n in Memories(sc)
    ensures n in s.agents && n in s.taken && n in s.responses && s.taken[n] <= s.group.sent <= Merged(s.group.log)
    ensures s.agents[n].stopped <==> Sentinel in s.taken[n]
  {
    var log := s.group.log;
    assert s.group.sent + s.group.queue == Merged(log);
    assert s.taken[n] <= s.group.sent;
    var p := HeardPart(log, |s.taken[n]|);
    assert s.taken[n] == Merged(log[..p]);
    SpokenPart(sc, log, p);
    OnMergedStream(sc, log[..p], n);
    MergedSentinels(log[..p]);
  }

  // The invariant of gentle runs.

  lemma SentinelCount(log: seq<Entry>, entry: Entry)
    ensures Sentinels(log + [entry]) == Sentinels(log) + if entry.CloseSends? || entry.Teardown? then 1 else 0
  {
    EmissionsSnoc(log, entry);
  }

  lemma YieldStaysUnharmed(sc: Scenario, s: GroupSession<Memory>)
    requires Fits(sc) && GroupSessionInv(SetupOf(sc), s) && Legal(sc, s.group.log) && GroupUnharmed(sc, s)
    requires MayGo(SetupOf(sc), s, ClientYields)
    ensures GroupUnharmed(sc, Go(SetupOf(sc), s, ClientYields))
  {
    var setup, log, pending := SetupOf(sc), s.group.log, ToYield(SetupOf(sc), s);
    var entry := YieldEntry(setup, pending[0]);
    YieldIsScripted(setup, log, s.group.yielded, [], s.approved, pending, entry);
    ClientEntryStaysOnCourse(sc, log, entry);
    SentinelCount(log, entry);
    assert Go(setup, s, ClientYields).group.log == log + [entry];
  }

  lemma AnswerStaysUnharmed(sc: Scenario, s: GroupSession<Memory>, n: string)
    requires GroupUnharmed(sc, s) && MayGo(SetupOf(sc), s, AgentAnswers(n))
    ensures GroupUnharmed(sc, Go(SetupOf(sc), s, AgentAnswers(n)))
  {
    var entry := Forward(n, s.responses[n][0]);
    AnswerEffect(SetupOf(sc), s, n);
    OtherEntryStaysOnCourse(sc, s.group.log, entry, s.group.clientOpen);
    SentinelCount(s.group.log, entry);
  }

  lemma EndedStaysEnded<M>(setup: Setup<M>, s: GroupSession<M>, n: string)
    requires AllEnded(s) && MayGo(setup, s, AgentHears(n))
    ensures AllEnded(Go(setup, s, AgentHears(n)))
  {
  }

  lemma HearStaysUnharmed(sc: Scenario, s: GroupSession<Memory>, n: string)
    requires GroupUnharmed(sc, s) && MayGo(SetupOf(sc), s, AgentHears(n))
    ensures GroupUnharmed(sc, Go(SetupOf(sc), s, AgentHears(n)))
  {
    if AllEnded(s) {
      EndedStaysEnded(SetupOf(sc), s, n);
    }
  }

  /** The caller's loop ends only after the client has closed. */
  lemma StopComesAfterClose(sc: Scenario, s: GroupSession<Memory>)
    requires Fits(sc) && GroupSessionInv(SetupOf(sc), s) && Legal(sc, s.group.log) && GroupUnharmed(sc, s)
    requires s.group.relaying && AllEnded(s)
    ensures !s.group.clientOpen
  {
    MemoriesFit(sc);
    StoppedHasHeard(sc, s, sc.remediation);
    MergedSentinels(s.group.log);
    assert Sentinel in Merged(s.group.log);
  }

  lemma StopEffect(sc: Scenario, s: GroupSession<Memory>)
    requires GroupUnharmed(sc, s) && MayGo(SetupOf(sc), s, CallerStops) && AllEnded(s) && !s.group.clientOpen
    ensures GroupUnharmed(sc, Go(SetupOf(sc), s, CallerStops))
  {
    OtherEntryStaysOnCourse(sc, s.group.log, Teardown, s.group.clientOpen);
    SentinelCount(s.group.log, Teardown);
  }

  lemma StopStaysUnharmed(sc: Scenario, s: GroupSession<Memory>)
    requires Fits(sc) && GroupSessionInv(SetupOf(sc), s) && Legal(sc, s.group.log) && GroupUnharmed(sc, s)
    requires MayGo(SetupOf(sc), s, CallerStops) && AllEnded(s)
    ensures GroupUnharmed(sc, Go(SetupOf(sc), s, CallerStops))
  {
    StopComesAfterClose(sc, s);
    StopEffect(sc, s);
  }

  lemma TurnStaysUnharmed(sc: Scenario, s: GroupSession<Memory>, turn: GroupTurn)
    requires Fits(sc) && GroupSessionInv(SetupOf(sc), s) && Legal(sc, s.group.log) && GroupUnharmed(sc, s)
    requires MayGo(SetupOf(sc), s, turn) && GentleTurn(s, turn)
    ensures GroupUnharmed(sc, Go(SetupOf(sc), s, turn))
  {
    match turn
    case ClientYields => YieldStaysUnharmed(sc, s);
    case ClientCancelled => assert false;
    case ChannelSends =>
    case AgentHears(n) => HearStaysUnharmed(sc, s, n);
    case AgentAnswers(n) => AnswerStaysUnharmed(sc, s, n);
    case CallerStops => StopStaysUnharmed(sc, s);
  }

  lemma {:induction false} GentleGroupRuns(sc: Scenario, turns: seq<GroupTurn>)
    requires Fits(sc) && GroupGoesGently(SetupOf(sc), turns)
    ensures GroupSessionInv(SetupOf(sc), Gone(SetupOf(sc), turns)) && Legal(sc, Gone(SetupOf(sc), turns).group.log)
    ensures GroupUnharmed(sc, Gone(SetupOf(sc), turns))
  {
    GroupRunsKeepInv(SetupOf(sc), turns);
    GroupLogsAreLegal(sc, turns);
    if turns != [] {
      var before, last := turns[..|turns| - 1], turns[|turns| - 1];
      GentleGroupRuns(sc, before);
      TurnStaysUnharmed(sc, Gone(SetupOf(sc), before), last);
      assert Gone(SetupOf(sc), turns) == Go(SetupOf(sc), Gone(SetupOf(sc), before), last);
    }
  }

  // A settled run has ended.

  lemma SettledChannel<M>(setup: Setup<M>, s: GroupSession<M>)
    requires SettledGroup(setup, s) && s.group.relaying
    ensures s.group.queue == [] || Closed(s.group.sent)
    ensures !AllEnded(s)
    ensures s.group.clientOpen ==> ToYield(setup, s) == []
  {
    assert !MayGo(setup, s, ChannelSends) by {
      assert GentleTurn(s, ChannelSends);
    }
    assert !AllEnded(s) by {
      assert MayGo(setup, s, CallerStops);
    }
    assert !MayGo(setup, s, ClientYields) by {
      assert GentleTurn(s, ClientYields);
    }
  }

  lemma SettledListener<M>(setup: Setup<M>, s: GroupSession<M>, n: string)
    requires SettledGroup(setup, s) && s.group.relaying && s.group.pending == None
    requires n in s.taken && n in s.agents && n in s.responses && s.taken[n] <= s.group.sent
    ensures s.taken[n] == s.group.sent && s.responses[n] == []
  {
    assert GentleTurn(s, AgentHears(n)) && GentleTurn(s, AgentAnswers(n));
    assert !MayGo(setup, s, AgentHears(n)) && !MayGo(setup, s, AgentAnswers(n));
  }

  /** In a settled session some agent waits for more, so no stream was closed and everything was sent. */
  lemma SettledGroupIsOpen(sc: Scenario, s: GroupSession<Memory>)
    requires Fits(sc) && GroupSessionInv(SetupOf(sc), s) && Legal(sc, s.group.log) && GroupUnharmed(sc, s)
    requires SettledGroup(SetupOf(sc), s) && s.group.relaying
    ensures s.group.sent == Merged(s.group.log) && Sentinels(s.group.log) == 0 && s.group.clientOpen
  {
    SettledChannel(SetupOf(sc), s);
    var n :| n in s.agents && !(n in s.responses && s.agents[n].stopped && s.responses[n] == []);
    StoppedHasHeard(sc, s, n);
    SettledListener(SetupOf(sc), s, n);
    assert Sentinel !in s.group.sent;
    assert s.group.sent + s.group.queue == s.group.sent;
    MergedSentinels(s.group.log);
  }

  lemma SettledGroupClient(sc: Scenario, s: GroupSession<Memory>)
    requires ClientSide(SetupOf(sc), s) && GroupInv(s.group) && s.group.pending == None
    requires SettledGroup(SetupOf(sc), s) && s.group.relaying && s.group.clientOpen
    ensures ClientTurns(s.group.log) == |Script(SetupOf(sc), Emissions(s.group.log))|
  {
    SettledChannel(SetupOf(sc), s);
    assert Emissions(s.group.log) + [] == Emissions(s.group.log);
  }

  /** An agent that heard the whole merged stream, and was answered for, has said all it has to say. */
  lemma GroupAgentSaidAll(sc: Scenario, s: GroupSession<Memory>, n: string)
    requires Fits(sc) && GroupSessionInv(SetupOf(sc), s) && Legal(sc, s.group.log) && n in Memories(sc)
    requires s.taken[n] == Merged(s.group.log) && s.responses[n] == []
    ensures Said(s.group.log, n) == Full(Behaviour(sc), Memories(sc), s.group.log, n)
  {
    OnMergedStream(sc, s.group.log, n);
    assert Said(s.group.log, n) + [] == Said(s.group.log, n);
  }

  lemma SettledGroupAgent(sc: Scenario, s: GroupSession<Memory>, n: string)
    requires Fits(sc) && GroupSessionInv(SetupOf(sc), s) && Legal(sc, s.group.log) && n in Memories(sc)
    requires SettledGroup(SetupOf(sc), s) && s.group.relaying && s.group.sent == Merged(s.group.log)
    ensures Said(s.group.log, n) == Full(Behaviour(sc), Memories(sc), s.group.log, n)
  {
    StoppedHasHeard(sc, s, n);
    SettledListener(SetupOf(sc), s, n);
    GroupAgentSaidAll(sc, s, n);
  }

  lemma SettledGroupHasEnded(sc: Scenario, s: GroupSession<Memory>)
    requires Fits(sc) && GroupSessionInv(SetupOf(sc), s) && Legal(sc, s.group.log) && GroupUnharmed(sc, s)
    requires SettledGroup(SetupOf(sc), s)
    ensures !s.group.relaying
  {
    if s.group.relaying {
      SettledGroupIsOpen(sc, s);
      SettledGroupClient(sc, s);
      forall n | n in Memories(sc)
        ensures Said(s.group.log, n) == Full(Behaviour(sc), Memories(sc), s.group.log, n)
      {
        SettledGroupAgent(sc, s, n);
      }
      NothingIsComplete(sc, s.group.log);
      assert false;
    }
  }

  lemma SaidOfEnded<M>(react: (M, Line) -> Reaction<M>, boot: Executor<M>, taken: seq<Slot>, whole: seq<Slot>, agent: Executor<M>,
                       said: seq<Response>)
    requires taken <= whole && AgentInv(react, boot, taken, agent, said, []) && agent.stopped
    ensures said == Events(react, boot, whole)
  {
    assert whole[..|taken|] == taken;
    NothingAfterTheEnd(react, boot, whole, |taken|);
    assert said + [] == said;
  }

  /** An agent that has ended has said all that the whole log calls for. */
  lemma EndedAgentSaidAll(sc: Scenario, s: GroupSession<Memory>, n: string)
    requires Fits(sc) && GroupSessionInv(SetupOf(sc), s) && Legal(sc, s.group.log) && n in Memories(sc) && AllEnded(s)
    ensures Said(s.group.log, n) == Full(Behaviour(sc), Memories(sc), s.group.log, n)
    ensures Sentinels(s.group.log) > 0
  {
    var log, boot := s.group.log, Boot(n, Memories(sc)[n]);
    StoppedHasHeard(sc, s, n);
    MergedSentinels(log);
    SaidOfEnded(Behaviour(sc), boot, s.taken[n], Merged(log), s.agents[n], Said(log, n));
    OnMergedStream(sc, log, n);
  }

  lemma FullSaysItsPart(sc: Scenario, log: seq<Entry>, n: string)
    requires Fits(sc) && Legal(sc, log) && ExecutionIn(sc, log) && n in Memories(sc) && Sentinels(log) > 0
    requires Said(log, n) == Full(Behaviour(sc), Memories(sc), log, n)
    ensures SaidItsPart(sc, log, n)
  {
    MemoriesFit(sc);
    ExecutionAlarms(sc, log, n);
    AlarmedHasHeard(Conversation(log, n), n);
    FullIsTrace(sc, log, n);
    EveryoneDelivers(sc, log, n);
    var task := NewTask(Heard(Projection(log, n))[0]);
    assert Said(log, n) == [TaskResponse(task)] + UpdateResponses(n, task, UpdatesOn(sc, log, n))
                           + [StatusResponse(StatusUpdate(task.id, task.contextId, Completed, None))];
  }

  lemma GroupAgentsSaidTheirPart(sc: Scenario, s: GroupSession<Memory>, n: string)
    requires Fits(sc) && GroupSessionInv(SetupOf(sc), s) && Legal(sc, s.group.log) && n in Memories(sc) && AllEnded(s)
    requires ExecutionIn(sc, s.group.log)
    ensures SaidItsPart(sc, s.group.log, n)
  {
    EndedAgentSaidAll(sc, s, n);
    FullSaysItsPart(sc, s.group.log, n);
  }

  /** The group session has been carried through: the caller has been handed every response and its loop
      has ended; the client sent its trigger, one approval and its close, in this order; every agent has
      ended, and said exactly its part between its task and its completion. */
  ghost predicate GroupCarriedThrough(sc: Scenario, s: GroupSession<Memory>) {
    && !s.group.relaying && !s.group.clientOpen && AllEnded(s)
    && s.group.yielded == Emissions(s.group.log)
    && ClientLog(s.group.log) == ClientPart(sc)
    && forall n :: n in Agents(sc) ==> SaidItsPart(sc, s.group.log, n)
  }

  lemma SettledGroupIsCarriedThrough(sc: Scenario, s: GroupSession<Memory>)
    requires Fits(sc) && GroupSessionInv(SetupOf(sc), s) && Legal(sc, s.group.log) && GroupUnharmed(sc, s)
    requires SettledGroup(SetupOf(sc), s)
    ensures GroupCarriedThrough(sc, s)
  {
    SettledGroupHasEnded(sc, s);
    MemoriesFit(sc);
    forall n | n in Memories(sc)
      ensures SaidItsPart(sc, s.group.log, n)
    {
      GroupAgentsSaidTheirPart(sc, s, n);
    }
    assert Emissions(s.group.log) + [] == Emissions(s.group.log);
  }

  /** Every maximal failure-free run over the group channel, under any interleaving, has carried the
      session through. */
  lemma GroupGuaranteedOutcome(sc: Scenario, turns: seq<GroupTurn>)
    requires Fits(sc) && GroupGoesGently(SetupOf(sc), turns) && SettledGroup(SetupOf(sc), Gone(SetupOf(sc), turns))
    ensures GroupCarriedThrough(sc, Gone(SetupOf(sc), turns))
    ensures |turns| <= 6 * |sc.logs| + 97
  {
    GroupRunsAreBounded(sc, turns);
    GentleGroupRuns(sc, turns);
    SettledGroupIsCarriedThrough(sc, Gone(SetupOf(sc), turns));
  }

  lemma GentleGroupSnoc<M>(setup: Setup<M>, turns: seq<GroupTurn>, turn: GroupTurn)
    requires GroupGoesGently(setup, turns) && MayGo(setup, Gone(setup, turns), turn) && GentleTurn(Gone(setup, turns), turn)
    ensures GroupGoesGently(setup, turns + [turn])
  {
    assert (turns + [turn])[..|turns|] == turns;
  }

  /** Every failure-free run over the group channel, too, can be continued until it cannot go on. */
  lemma {:induction false} EveryGentleGroupRunSettles(sc: Scenario, turns: seq<GroupTurn>) returns (longer: seq<GroupTurn>)
    requires Fits(sc) && GroupGoesGently(SetupOf(sc), turns)
    ensures turns <= longer && GroupGoesGently(SetupOf(sc), longer) && SettledGroup(SetupOf(sc), Gone(SetupOf(sc), longer))
    ensures GroupCarriedThrough(sc, Gone(SetupOf(sc), longer))
    decreases 6 * |sc.logs| + 97 - |turns|
  {
    var setup := SetupOf(sc);
    GroupRunsAreBounded(sc, turns);
    if turn :| MayGo(setup, Gone(setup, turns), turn) && GentleTurn(Gone(setup, turns), turn) {
      GentleGroupSnoc(setup, turns, turn);
      GroupRunsAreBounded(sc, turns + [turn]);
      longer := EveryGentleGroupRunSettles(sc, turns + [turn]);
    } else {
      longer := turns;
      GroupGuaranteedOutcome(sc, turns);
    }
  }
}
