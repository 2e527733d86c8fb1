/** Exactly which logs a session over the group channel produces, and that they are those of the session
    over point-to-point streams if no agent reacts to its own messages. */
module GroupLogs {
  import opened Options
  import opened Scenarios
  import opened Wire
  import opened Relay
  import opened Execution
  import opened Executors
  import opened Multicast
  import opened EchoedStreams
  import opened Echoes
  import opened Rooms
  import opened Conversations
  import opened Progress
  import opened Sessions
  import opened Incident
  import opened StreamLogs
  import opened GroupSessions
  import opened GroupIncident

  ghost predicate GroupProduces<M>(setup: Setup<M>, log: seq<Entry>) {
    exists turns :: CanGo(setup, turns) && Gone(setup, turns).group.log == log
  }

  // Every log of a run is producible.

  ghost predicate GroupFlags(g: Group) {
    FlagsFit(g.log, g.clientOpen, g.relaying)
  }

  lemma YieldKeepsGroupFlags<M>(setup: Setup<M>, s: GroupSession<M>)
    requires GroupFlags(s.group) && MayGo(setup, s, ClientYields)
    ensures GroupFlags(Go(setup, s, ClientYields).group)
  {
    var g := s.group;
    var entry := match ToYield(setup, s)[0] case Some(request) => FromClient(Stamp(g.source, request)) case None => CloseSends;
    EntryKeepsFlags(g.log, g.clientOpen, g.relaying, entry);
  }

  lemma AnswerKeepsGroupFlags<M>(setup: Setup<M>, s: GroupSession<M>, n: string)
    requires GroupFlags(s.group) && MayGo(setup, s, AgentAnswers(n))
    ensures GroupFlags(Go(setup, s, AgentAnswers(n)).group)
  {
    EntryKeepsFlags(s.group.log, s.group.clientOpen, s.group.relaying, Forward(n, s.responses[n][0]));
  }

  lemma EndKeepsGroupFlags<M>(setup: Setup<M>, s: GroupSession<M>, turn: GroupTurn)
    requires GroupFlags(s.group) && MayGo(setup, s, turn) && (turn.ClientCancelled? || turn.CallerStops?)
    ensures GroupFlags(Go(setup, s, turn).group)
  {
    EntryKeepsFlags(s.group.log, s.group.clientOpen, s.group.relaying, if turn.CallerStops? then Teardown else CloseSends);
  }

  lemma TurnKeepsGroupFlags<M>(setup: Setup<M>, s: GroupSession<M>, turn: GroupTurn)
    requires GroupFlags(s.group) && MayGo(setup, s, turn)
    ensures GroupFlags(Go(setup, s, turn).group)
  {
    match turn
    case ClientYields => YieldKeepsGroupFlags(setup, s);
    case ClientCancelled => EndKeepsGroupFlags(setup, s, turn);
    case ChannelSends =>
    case AgentHears(n) =>
    case AgentAnswers(n) => AnswerKeepsGroupFlags(setup, s, n);
    case CallerStops => EndKeepsGroupFlags(setup, s, turn);
  }

  lemma {:induction false} GroupRunKeepsFlags<M>(setup: Setup<M>, turns: seq<GroupTurn>)
    requires CanGo(setup, turns)
    ensures GroupSessionInv(setup, Gone(setup, turns)) && GroupFlags(Gone(setup, turns).group)
  {
    GroupRunsKeepInv(setup, turns);
    if turns != [] {
      var before, last := turns[..|turns| - 1], turns[|turns| - 1];
      GroupRunKeepsFlags(setup, before);
      TurnKeepsGroupFlags(setup, Gone(setup, before), last);
      assert Gone(setup, turns) == Go(setup, Gone(setup, before), last);
    }
  }

  // Every producible log is the log of a run.

  /** Everything was sent to the group, up to its close, and every agent has heard all that was sent. */
  ghost predicate AllHeard<M>(s: GroupSession<M>) {
    && (s.group.queue == [] || Closed(s.group.sent))
    && forall n :: n in s.taken ==> s.taken[n] == s.group.sent
  }

  lemma GroupTurnSnoc<M>(setup: Setup<M>, turns: seq<GroupTurn>, turn: GroupTurn)
    requires CanGo(setup, turns) && MayGo(setup, Gone(setup, turns), turn)
    ensures CanGo(setup, turns + [turn]) && Gone(setup, turns + [turn]) == Go(setup, Gone(setup, turns), turn)
  {
    assert (turns + [turn])[..|turns|] == turns;
  }

  /** The channel can send on until all is sent. */
  lemma {:induction false} SendOn<M>(setup: Setup<M>, turns: seq<GroupTurn>) returns (longer: seq<GroupTurn>)
    requires CanGo(setup, turns)
    ensures CanGo(setup, longer) && Gone(setup, longer).group.log == Gone(setup, turns).group.log
    ensures Gone(setup, longer).group.queue == [] || Closed(Gone(setup, longer).group.sent)
    decreases |Gone(setup, turns).group.queue|
  {
    var g := Gone(setup, turns).group;
    if g.queue == [] || Closed(g.sent) {
      longer := turns;
    } else {
      GroupTurnSnoc(setup, turns, ChannelSends);
      longer := SendOn(setup, turns + [ChannelSends]);
    }
  }

  lemma HearingHears<M>(setup: Setup<M>, s: GroupSession<M>, n: string)
    requires AgentsInv(setup, s) && Distinct(setup.names) && s.taken.Keys == NameSet(setup.names)
    requires n in s.taken && s.taken[n] != s.group.sent
    ensures MayGo(setup, s, AgentHears(n))
    ensures var t := Go(setup, s, AgentHears(n));
      t.group == s.group && Taken(setup.names, t.taken) == Taken(setup.names, s.taken) + 1
  {
    assert s.taken[n] <= s.group.sent;
    TakenMore(setup.names, s.taken, n, s.group.sent[|s.taken[n]|]);
  }

  /** And every agent can go on until it has heard all that was sent. */
  lemma {:induction false} HearOn<M>(setup: Setup<M>, turns: seq<GroupTurn>, left: int) returns (longer: seq<GroupTurn>)
    requires Distinct(setup.names) && setup.start.Keys == NameSet(setup.names) && CanGo(setup, turns)
    requires left == |setup.names| * |Gone(setup, turns).group.sent| - Taken(setup.names, Gone(setup, turns).taken)
    ensures CanGo(setup, longer) && Gone(setup, longer).group == Gone(setup, turns).group
    ensures forall n :: n in Gone(setup, longer).taken ==> Gone(setup, longer).taken[n] == Gone(setup, turns).group.sent
    decreases left
  {
    var s := Gone(setup, turns);
    if n :| n in s.taken && s.taken[n] != s.group.sent {
      GroupRunsKeepInv(setup, turns);
      GroupRunIsCounted(setup, turns);
      HeardIsBounded(setup, s);
      HearingHears(setup, s, n);
      GroupTurnSnoc(setup, turns, AgentHears(n));
      longer := HearOn(setup, turns + [AgentHears(n)], left - 1);
    } else {
      longer := turns;
    }
  }

  lemma CatchUp<M>(setup: Setup<M>, turns: seq<GroupTurn>) returns (longer: seq<GroupTurn>)
    requires Distinct(setup.names) && setup.start.Keys == NameSet(setup.names) && CanGo(setup, turns)
    ensures CanGo(setup, longer) && Gone(setup, longer).group.log == Gone(setup, turns).group.log && AllHeard(Gone(setup, longer))
  {
    longer := SendOn(setup, turns);
    longer := HearOn(setup, longer, |setup.names| * |Gone(setup, longer).group.sent| - Taken(setup.names, Gone(setup, longer).taken));
  }

  /** Then what an agent has waiting begins with its next emission on the merged stream. */
  lemma NextIsWaitingInGroup<M>(setup: Setup<M>, s: GroupSession<M>, entry: Entry)
    requires AgentsInv(setup, s) && AllHeard(s)
    requires entry.FromAgent? && SpokenNext(setup.react, setup.start, s.group.log, entry)
    ensures entry.name in s.responses && s.responses[entry.name] != []
    ensures entry == Forward(entry.name, s.responses[entry.name][0])
  {
    var n, g := entry.name, s.group;
    assert g.sent + g.queue == Merged(g.log) && s.taken[n] == g.sent;
    DryHasEmittedAll(setup.react, Boot(n, setup.start[n]), g.sent, g.queue);
    FirstOfRest(Said(g.log, n), s.responses[n], Events(setup.react, Boot(n, setup.start[n]), Merged(g.log)));
  }

  /** The client yields what the script of the log says. */
  lemma ToYieldIsScripted<M>(setup: Setup<M>, s: GroupSession<M>, entry: Entry)
    requires ClientSide(setup, s) && GroupInv(s.group) && s.group.pending == None && s.group.relaying
    requires (entry.FromClient? || entry.CloseSends?) && ScriptedEntry(setup, s.group.log, entry)
    ensures ToYield(setup, s) != [] && entry == YieldEntry(setup, ToYield(setup, s)[0])
  {
    assert Emissions(s.group.log) + [] == Emissions(s.group.log);
  }

  /** Producible, but that each agent's entry is its next emission on the merged stream. */
  ghost predicate Speakable<M>(setup: Setup<M>, log: seq<Entry>) {
    SpokenInGroup(setup.react, setup.start, log) && Scripted(setup, log) && Timely(log)
  }

  ghost predicate MayComeNext<M>(setup: Setup<M>, log: seq<Entry>, entry: Entry) {
    SpokenNext(setup.react, setup.start, log, entry) && ScriptedEntry(setup, log, entry) && InTime(log, entry)
  }

  lemma SpeakableStep<M>(setup: Setup<M>, log: seq<Entry>)
    requires Speakable(setup, log) && log != []
    ensures Speakable(setup, log[..|log| - 1]) && MayComeNext(setup, log[..|log| - 1], log[|log| - 1])
  {
  }

  /** The turn that logs an entry. */
  function TurnFor<M>(s: GroupSession<M>, entry: Entry): GroupTurn {
    match entry
    case FromClient(_) => ClientYields
    case FromAgent(n, _, _) => AgentAnswers(n)
    case CloseSends => if s.group.relaying then ClientYields else ClientCancelled
    case Teardown => CallerStops
  }

  lemma TurnLogs<M>(setup: Setup<M>, s: GroupSession<M>, entry: Entry)
    requires GroupSessionInv(setup, s) && GroupFlags(s.group) && AllHeard(s)
    requires MayComeNext(setup, s.group.log, entry)
    ensures MayGo(setup, s, TurnFor(s, entry)) && Go(setup, s, TurnFor(s, entry)).group.log == s.group.log + [entry]
  {
    if entry.FromAgent? {
      NextIsWaitingInGroup(setup, s, entry);
      AnswerEffect(setup, s, entry.name);
    } else if s.group.relaying && entry != Teardown {
      ToYieldIsScripted(setup, s, entry);
    }
  }

  /** A run with this log, after which everybody has heard everything. */
  ghost predicate Produces<M>(setup: Setup<M>, turns: seq<GroupTurn>, log: seq<Entry>) {
    CanGo(setup, turns) && AllHeard(Gone(setup, turns)) && Gone(setup, turns).group.log == log
  }

  lemma LogNextInGroup<M>(setup: Setup<M>, turns: seq<GroupTurn>, log: seq<Entry>, entry: Entry) returns (longer: seq<GroupTurn>)
    requires Distinct(setup.names) && setup.start.Keys == NameSet(setup.names)
    requires Produces(setup, turns, log) && MayComeNext(setup, log, entry)
    ensures Produces(setup, longer, log + [entry])
  {
    var turn := TurnFor(Gone(setup, turns), entry);
    GroupRunKeepsFlags(setup, turns);
    TurnLogs(setup, Gone(setup, turns), entry);
    GroupTurnSnoc(setup, turns, turn);
    longer := CatchUp(setup, turns + [turn]);
  }

  lemma NothingIsProduced<M>(setup: Setup<M>)
    ensures Produces(setup, [], [])
  {
    assert Gone(setup, []) == OpenSession(setup);
  }

  lemma {:induction false} ProducibleInGroup<M>(setup: Setup<M>, log: seq<Entry>) returns (turns: seq<GroupTurn>)
    requires Distinct(setup.names) && setup.start.Keys == NameSet(setup.names) && Speakable(setup, log)
    ensures Produces(setup, turns, log)
  {
    if log == [] {
      NothingIsProduced(setup);
      turns := [];
    } else {
      var init, last := log[..|log| - 1], log[|log| - 1];
      assert log == init + [last];
      SpeakableStep(setup, log);
      var before := ProducibleInGroup(setup, init);
      turns := LogNextInGroup(setup, before, init, last);
    }
  }

  /** If no agent reacts to its own messages, the logs of the runs over the group channel are exactly the
      producible ones as well. */
  lemma GroupLogsAre<M(!new)>(setup: Setup<M>, log: seq<Entry>)
    requires Distinct(setup.names) && setup.start.Keys == NameSet(setup.names) && AllDeaf(setup.react, setup.start)
    ensures GroupProduces(setup, log) <==> Producible(setup, log)
  {
    SameLogs(setup.react, setup.start, log);
    if GroupProduces(setup, log) {
      var turns :| CanGo(setup, turns) && Gone(setup, turns).group.log == log;
      GroupRunKeepsFlags(setup, turns);
    }
    if Producible(setup, log) {
      var turns := ProducibleInGroup(setup, log);
    }
  }

  /** The two transports have the same sessions: every run over the group channel has a run over
      point-to-point streams with the same log, and the other way round. */
  lemma SameSessions(sc: Scenario, log: seq<Entry>)
    requires NamesFit(sc) && TextsFit(sc)
    ensures GroupProduces(SetupOf(sc), log) <==> StreamsProduce(SetupOf(sc), log)
    ensures StreamsProduce(SetupOf(sc), log) <==> Legal(sc, log) && Timely(log)
  {
    MemoriesFit(sc);
    AgentsAreDeaf(sc);
    StreamLogsAre(SetupOf(sc), log);
    GroupLogsAre(SetupOf(sc), log);
  }

  /** What the caller of either session has been handed, given that their logs are the same. */
  lemma SameLogSameCaller(s: State, g: Group)
    requires Conserves(s.log, s.output, s.yielded) && GroupInv(g) && g.pending == None && s.log == g.log
    requires RelayFlags(s) && GroupFlags(g)
    ensures s.yielded <= g.yielded && (s.output == [] ==> s.yielded == g.yielded)
    ensures s.clientOpen == g.clientOpen && s.collecting == g.relaying
  {
    assert s.yielded + [] == s.yielded;
    assert Emissions(g.log) + [] == Emissions(g.log);
  }

  /** For every run over the group channel there is a run over point-to-point streams with the same log,
      in which the caller was handed the same responses in the same order. */
  lemma GroupRunHasStreamsRun(sc: Scenario, turns: seq<GroupTurn>) returns (same: seq<Turn>)
    requires NamesFit(sc) && TextsFit(sc) && CanGo(SetupOf(sc), turns)
    ensures Goes(SetupOf(sc), same)
    ensures var s, g := Reached(SetupOf(sc), same).room.relay, Gone(SetupOf(sc), turns).group;
      s.log == g.log && s.yielded == g.yielded && s.clientOpen == g.clientOpen && s.collecting == g.relaying
  {
    var setup, g := SetupOf(sc), Gone(SetupOf(sc), turns).group;
    MemoriesFit(sc);
    AgentsAreDeaf(sc);
    SameLogs(setup.react, setup.start, g.log);
    GroupRunKeepsFlags(setup, turns);
    same := ProducibleIsProduced(setup, g.log);
    RunKeepsFlags(setup, same);
    SameLogSameCaller(Reached(setup, same).room.relay, g);
  }

  /** And for every run over point-to-point streams there is a run over the group channel with the same
      log, in which the caller was handed the same responses, and those still waiting in the output. */
  lemma StreamsRunHasGroupRun(sc: Scenario, turns: seq<Turn>) returns (same: seq<GroupTurn>)
    requires NamesFit(sc) && TextsFit(sc) && Goes(SetupOf(sc), turns)
    ensures CanGo(SetupOf(sc), same)
    ensures var s, g := Reached(SetupOf(sc), turns).room.relay, Gone(SetupOf(sc), same).group;
      s.log == g.log && s.yielded <= g.yielded && s.clientOpen == g.clientOpen && s.collecting == g.relaying
  {
    var setup := SetupOf(sc);
    MemoriesFit(sc);
    RunKeepsFlags(setup, turns);
    var s := Reached(setup, turns).room.relay;
    AgentsAreDeaf(sc);
    SameLogs(setup.react, setup.start, s.log);
    same := ProducibleInGroup(setup, s.log);
    GroupRunKeepsFlags(setup, same);
    SameLogSameCaller(s, Gone(setup, same).group);
  }
}
