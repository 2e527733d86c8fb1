/** The incident session over the group channel. The client's loop body does not suspend, so handing it a
    response, its reply, and relaying the response are one step. */
module GroupIncident {
  import opened Sequences
  import opened Options
  import opened Scenarios
  import opened Wire
  import opened Relay
  import opened RelayProperties
  import opened Execution
  import opened Executors
  import opened Multicast
  import opened Rooms
  import opened Conversations
  import opened Progress
  import opened Sessions
  import opened Incident
  import opened Bounds
  import opened GroupSessions

  /** `taken` is what each agent has read of what was sent to the group. */
  datatype GroupSession<M> = GroupSession(
    group: Group,
    taken: map<string, seq<Slot>>,
    agents: map<string, Executor<M>>,
    responses: map<string, seq<Response>>,
    triggered: bool,
    approved: bool,
    queue: seq<Option<Request>>)

  datatype GroupTurn =
    | ClientYields
    | ClientCancelled
    | ChannelSends
    | AgentHears(name: string)
    | AgentAnswers(name: string)
    | CallerStops

  function OpenSession<M>(setup: Setup<M>): GroupSession<M> {
    GroupSession(Open(setup.source), map n | n in setup.start :: [], map n | n in setup.start :: Boot(n, setup.start[n]),
                 map n | n in setup.start :: [], false, false, [])
  }

  function ToYield<M>(setup: Setup<M>, s: GroupSession<M>): seq<Option<Request>> {
    if s.triggered then s.queue else [Some(setup.trigger)] + s.queue
  }

  ghost predicate MayGo<M>(setup: Setup<M>, s: GroupSession<M>, turn: GroupTurn) {
    match turn
    case ClientYields => s.group.relaying && s.group.clientOpen && ToYield(setup, s) != []
    case ClientCancelled => !s.group.relaying && s.group.clientOpen
    case ChannelSends => CanMove(s.group, Move.Send)
    case AgentHears(n) => n in s.taken && n in s.agents && n in s.responses && |s.taken[n]| < |s.group.sent|
    case AgentAnswers(n) => s.group.relaying && s.group.pending == None && n in s.responses && s.responses[n] != []
    case CallerStops => s.group.relaying
  }

  function Go<M>(setup: Setup<M>, s: GroupSession<M>, turn: GroupTurn): GroupSession<M>
    requires MayGo(setup, s, turn)
  {
    match turn
    case ClientYields =>
      var move := match ToYield(setup, s)[0] case Some(request) => Put(request) case None => CloseGroup;
      s.(group := MoveTo(s.group, move), triggered := true, queue := if s.triggered then s.queue[1..] else s.queue)
    case ClientCancelled => s.(group := MoveTo(s.group, CloseGroup))
    case ChannelSends => s.(group := MoveTo(s.group, Move.Send))
    case AgentHears(n) =>
      var slot := s.group.sent[|s.taken[n]|];
      s.(taken := s.taken[n := s.taken[n] + [slot]],
         agents := s.agents[n := Receive(setup.react, s.agents[n], slot)],
         responses := s.responses[n := s.responses[n] + Emit(setup.react, s.agents[n], slot)])
    case AgentAnswers(n) =>
      var response := s.responses[n][0];
      var reply := setup.client(s.approved, Emission(n, response));
      s.(group := MoveTo(MoveTo(s.group, Arrive(n, response)), RelayPending),
         responses := s.responses[n := s.responses[n][1..]], approved := reply.approved, queue := s.queue + reply.puts)
    case CallerStops => s.(group := MoveTo(s.group, Stop))
  }

  // What every state keeps.

  ghost predicate HearsSent(taken: map<string, seq<Slot>>, sent: seq<Slot>) {
    forall n :: n in taken ==> taken[n] <= sent
  }

  /** The agents' side: each is where what it heard put it, and each logged response was its next one on
      the merged stream. */
  ghost predicate AgentsInv<M>(setup: Setup<M>, s: GroupSession<M>) {
    && GroupInv(s.group) && s.group.pending == None
    && HearsSent(s.taken, s.group.sent)
    && Minds(setup.react, setup.start, s.group.log, s.taken, s.agents, s.responses)
    && SpokenInGroup(setup.react, setup.start, s.group.log)
  }

  /** The client's side: it is at the right place in its script. */
  ghost predicate ClientSide<M>(setup: Setup<M>, s: GroupSession<M>) {
    && s.group.source == setup.source
    && KeepsToScript(setup, s.group.log, s.group.yielded, s.group.relaying, s.approved, ToYield(setup, s))
  }

  lemma SpokenSnoc<M>(react: (M, Line) -> Reaction<M>, start: map<string, M>, log: seq<Entry>, entry: Entry)
    requires SpokenInGroup(react, start, log) && SpokenNext(react, start, log, entry)
    ensures SpokenInGroup(react, start, log + [entry])
  {
    assert (log + [entry])[..|log|] == log;
  }

  /** What an agent answers next is its next emission on the merged stream. */
  lemma AnswerIsNext<M>(react: (M, Line) -> Reaction<M>, start: map<string, M>, log: seq<Entry>, name: string, taken: seq<Slot>,
                        agent: Executor<M>, waiting: seq<Response>)
    requires name in start && waiting != [] && taken <= Merged(log)
    requires AgentInv(react, Boot(name, start[name]), taken, agent, Said(log, name), waiting)
    ensures SpokenNext(react, start, log, Forward(name, waiting[0]))
  {
    var rest := Merged(log)[|taken|..];
    assert Merged(log) == taken + rest;
    EventsGrow(react, Boot(name, start[name]), taken, rest);
    assert Events(react, Boot(name, start[name]), taken)[|Said(log, name)|] == waiting[0];
  }

  lemma AnswerKeepsAgents<M>(setup: Setup<M>, s: GroupSession<M>, n: string)
    requires AgentsInv(setup, s) && MayGo(setup, s, AgentAnswers(n))
    ensures AgentsInv(setup, Go(setup, s, AgentAnswers(n)))
  {
    var g, entry := s.group, Forward(n, s.responses[n][0]);
    var arrived := MoveTo(g, Arrive(n, s.responses[n][0]));
    MoveKeepsInv(g, Arrive(n, s.responses[n][0]));
    MoveKeepsInv(arrived, RelayPending);
    assert n in setup.start && s.taken[n] <= g.sent <= Merged(g.log) by {
      assert g.sent + g.queue == Merged(g.log);
    }
    AnswerIsNext(setup.react, setup.start, g.log, n, s.taken[n], s.agents[n], s.responses[n]);
    SpokenSnoc(setup.react, setup.start, g.log, entry);
    MindsRead(setup.react, setup.start, g.log, entry, s.taken, s.agents, s.responses);
  }

  lemma HearsOneMore(taken: map<string, seq<Slot>>, sent: seq<Slot>, n: string)
    requires HearsSent(taken, sent) && n in taken && |taken[n]| < |sent|
    ensures HearsSent(taken[n := taken[n] + [sent[|taken[n]|]]], sent)
  {
    var more := taken[n := taken[n] + [sent[|taken[n]|]]];
    forall other | other in more
      ensures more[other] <= sent
    {
      assert other in taken && taken[other] <= sent;
    }
  }

  lemma HearKeepsAgents<M>(setup: Setup<M>, s: GroupSession<M>, n: string)
    requires AgentsInv(setup, s) && MayGo(setup, s, AgentHears(n))
    ensures AgentsInv(setup, Go(setup, s, AgentHears(n)))
  {
    HearsOneMore(s.taken, s.group.sent, n);
    MindsTake(setup.react, setup.start, s.group.log, s.taken, s.agents, s.responses, n, s.group.sent[|s.taken[n]|]);
  }

  /** A move of the group that logs nothing of an agent. */
  lemma MoveKeepsAgents<M>(setup: Setup<M>, s: GroupSession<M>, move: Move)
    requires AgentsInv(setup, s) && CanMove(s.group, move) && (move.Put? || move.CloseGroup? || move.Stop? || move.Send?)
    ensures AgentsInv(setup, s.(group := MoveTo(s.group, move)))
  {
    MoveKeepsInv(s.group, move);
    if !move.Send? {
      var entry := match move case Put(request) => FromClient(Stamp(s.group.source, request)) case CloseGroup => CloseSends case _ => Teardown;
      MindsAppend(setup.react, setup.start, s.group.log, s.taken, s.agents, s.responses, entry);
      SpokenSnoc(setup.react, setup.start, s.group.log, entry);
    }
  }

  lemma AgentsInvIgnoresClient<M>(setup: Setup<M>, s: GroupSession<M>, t: GroupSession<M>)
    requires AgentsInv(setup, s) && t == s.(triggered := t.triggered, approved := t.approved, queue := t.queue)
    ensures AgentsInv(setup, t)
  {
  }

  lemma TurnKeepsAgents<M>(setup: Setup<M>, s: GroupSession<M>, turn: GroupTurn)
    requires AgentsInv(setup, s) && MayGo(setup, s, turn)
    ensures AgentsInv(setup, Go(setup, s, turn))
  {
    match turn
    case ClientYields =>
      var move := match ToYield(setup, s)[0] case Some(request) => Put(request) case None => CloseGroup;
      MoveKeepsAgents(setup, s, move);
      AgentsInvIgnoresClient(setup, s.(group := MoveTo(s.group, move)), Go(setup, s, turn));
    case ClientCancelled => MoveKeepsAgents(setup, s, CloseGroup);
    case ChannelSends => MoveKeepsAgents(setup, s, Move.Send);
    case AgentHears(n) => HearKeepsAgents(setup, s, n);
    case AgentAnswers(n) => AnswerKeepsAgents(setup, s, n);
    case CallerStops => MoveKeepsAgents(setup, s, Stop);
  }

  lemma YieldKeepsClientSide<M>(setup: Setup<M>, s: GroupSession<M>)
    requires ClientSide(setup, s) && GroupInv(s.group) && s.group.pending == None && MayGo(setup, s, ClientYields)
    ensures ClientSide(setup, Go(setup, s, ClientYields))
  {
    var log, yielded, pending := s.group.log, s.group.yielded, ToYield(setup, s);
    var entry := YieldEntry(setup, pending[0]);
    YieldIsScripted(setup, log, yielded, [], s.approved, pending, entry);
    ScriptedSnoc(setup, log, entry);
    YieldKeepsClient(setup, log, yielded, s.approved, pending, log + [entry]);
    assert ToYield(setup, Go(setup, s, ClientYields)) == pending[1..];
  }

  lemma AnswerEffect<M>(setup: Setup<M>, s: GroupSession<M>, n: string)
    requires MayGo(setup, s, AgentAnswers(n))
    ensures var t, emission := Go(setup, s, AgentAnswers(n)), Emission(n, s.responses[n][0]);
      var reply := setup.client(s.approved, emission);
      && t.group.source == s.group.source && t.group.relaying && s.group.relaying
      && t.group.log == s.group.log + [Forward(n, s.responses[n][0])]
      && t.group.yielded == s.group.yielded + [emission]
      && t.approved == reply.approved && ToYield(setup, t) == ToYield(setup, s) + reply.puts
  {
  }

  lemma AnswerKeepsClientSide<M>(setup: Setup<M>, s: GroupSession<M>, n: string)
    requires ClientSide(setup, s) && MayGo(setup, s, AgentAnswers(n))
    ensures ClientSide(setup, Go(setup, s, AgentAnswers(n)))
  {
    var log, emission := s.group.log, Emission(n, s.responses[n][0]);
    var pending, reply := ToYield(setup, s), setup.client(s.approved, emission);
    HandedFollows(setup, log, s.group.yielded, true, s.approved, pending, Some(emission));
    EntryFollows(setup, log, s.group.yielded + [emission], true, true, reply.approved, pending + reply.puts,
                 Forward(n, s.responses[n][0]), reply.approved, pending + reply.puts);
    AnswerEffect(setup, s, n);
  }

  lemma StopKeepsClientSide<M>(setup: Setup<M>, s: GroupSession<M>, turn: GroupTurn)
    requires ClientSide(setup, s) && MayGo(setup, s, turn) && (turn.CallerStops? || turn.ClientCancelled?)
    ensures ClientSide(setup, Go(setup, s, turn))
  {
    EntryFollows(setup, s.group.log, s.group.yielded, s.group.relaying, false, s.approved, ToYield(setup, s),
                 if turn.CallerStops? then Teardown else CloseSends, s.approved, ToYield(setup, s));
  }

  ghost predicate GroupSessionInv<M>(setup: Setup<M>, s: GroupSession<M>) {
    AgentsInv(setup, s) && ClientSide(setup, s)
  }

  lemma GoKeepsInv<M>(setup: Setup<M>, s: GroupSession<M>, turn: GroupTurn)
    requires GroupSessionInv(setup, s) && MayGo(setup, s, turn)
    ensures GroupSessionInv(setup, Go(setup, s, turn))
  {
    TurnKeepsAgents(setup, s, turn);
    match turn
    case ClientYields => YieldKeepsClientSide(setup, s);
    case AgentAnswers(n) => AnswerKeepsClientSide(setup, s, n);
    case ClientCancelled => StopKeepsClientSide(setup, s, turn);
    case CallerStops => StopKeepsClientSide(setup, s, turn);
    case _ =>
  }

  // Runs.

  ghost predicate CanGo<M>(setup: Setup<M>, turns: seq<GroupTurn>)
    decreases |turns|, 0
  {
    turns == [] ||
    (var before := turns[..|turns| - 1];
     CanGo(setup, before) && MayGo(setup, Gone(setup, before), turns[|turns| - 1]))
  }

  ghost function Gone<M>(setup: Setup<M>, turns: seq<GroupTurn>): GroupSession<M>
    requires CanGo(setup, turns)
    decreases |turns|, 1
  {
    if turns == [] then OpenSession(setup) else Go(setup, Gone(setup, turns[..|turns| - 1]), turns[|turns| - 1])
  }

  lemma OpenSessionInv<M>(setup: Setup<M>)
    ensures GroupSessionInv(setup, OpenSession(setup))
  {
    var s := OpenSession(setup);
    forall n | n in setup.start
      ensures AgentInv(setup.react, Boot(n, setup.start[n]), s.taken[n], s.agents[n], Said([], n), s.responses[n])
    {
    }
    assert ToYield(setup, s) == Script(setup, [])[0..];
  }

  /** In every state of every run the log consists of the agents' next emissions on the merged stream
      and the client's next scripted items. */
  lemma {:induction false} GroupRunsKeepInv<M>(setup: Setup<M>, turns: seq<GroupTurn>)
    requires CanGo(setup, turns)
    ensures GroupSessionInv(setup, Gone(setup, turns))
  {
    if turns == [] {
      OpenSessionInv(setup);
    } else {
      var before, last := turns[..|turns| - 1], turns[|turns| - 1];
      GroupRunsKeepInv(setup, before);
      GoKeepsInv(setup, Gone(setup, before), last);
      assert Gone(setup, turns) == Go(setup, Gone(setup, before), last);
    }
  }

  /** So every log of the group session meets what every log of the N-streams session meets. */
  lemma GroupLogsAreLegal(sc: Scenario, turns: seq<GroupTurn>)
    requires Fits(sc) && CanGo(SetupOf(sc), turns)
    ensures Legal(sc, Gone(SetupOf(sc), turns).group.log)
  {
    GroupRunsKeepInv(SetupOf(sc), turns);
    IncidentLogsAreTheSame(sc, Gone(SetupOf(sc), turns).group.log);
  }

  /** Over the group channel too, an execution is preceded by the whole chain from the trigger on. */
  lemma GroupCausalSafety(sc: Scenario, turns: seq<GroupTurn>, p: nat)
    requires Fits(sc) && CanGo(SetupOf(sc), turns)
    requires AgentSays(Gone(SetupOf(sc), turns).group.log, p, sc.remediation, sc.executed)
    ensures exists trigger, evidence, diagnosis, plan, approval ::
              Chain(sc, Gone(SetupOf(sc), turns).group.log, trigger, evidence, diagnosis, plan, approval, p)
  {
    GroupLogsAreLegal(sc, turns);
    ExecutionHasChain(sc, Gone(SetupOf(sc), turns).group.log, p);
  }

  /** And the session's output is bounded: two requests, one alarm, and so many agent updates. */
  lemma GroupOutputIsBounded(sc: Scenario, turns: seq<GroupTurn>)
    requires Fits(sc) && CanGo(SetupOf(sc), turns)
    ensures var log := Gone(SetupOf(sc), turns).group.log;
      && Clients(log) <= 2 && ClientAlarms(log) <= 1
      && AgentTexts(log) <= |sc.logs| + 4 && |Emissions(log)| <= |sc.logs| + 12
  {
    GroupLogsAreLegal(sc, turns);
    ClientSpeaksTwice(sc, Gone(SetupOf(sc), turns).group.log);
    NoBroadcastStorm(sc, Gone(SetupOf(sc), turns).group.log);
  }

  // Runs are finite.

  /** What the client did, what was sent to the group, what was heard, what was answered, and the stop. */
  function Progressed<M>(setup: Setup<M>, s: GroupSession<M>): int {
    ClientTurns(s.group.log) + |s.group.sent| + Taken(setup.names, s.taken) + |Emissions(s.group.log)| + if s.group.relaying then 0 else 1
  }

  /** The closes that are in the log. */
  ghost predicate CountsCloses<M>(s: GroupSession<M>) {
    Sentinels(s.group.log) == (if s.group.clientOpen then 0 else 1) + if s.group.relaying then 0 else 1
  }

  lemma EntryIsCountedOnce(log: seq<Entry>, entry: Entry)
    ensures ClientTurns(log + [entry]) == ClientTurns(log) + (if entry.FromClient? || entry.CloseSends? then 1 else 0)
    ensures |Emissions(log + [entry])| == |Emissions(log)| + (if entry.FromAgent? then 1 else 0)
    ensures Sentinels(log + [entry]) == Sentinels(log) + (if entry.CloseSends? || entry.Teardown? then 1 else 0)
  {
    EmissionsSnoc(log, entry);
    assert (log + [entry])[..|log|] == log;
  }

  /** A turn that logs an entry and nothing else that is counted. */
  lemma LoggedIsCounted<M>(setup: Setup<M>, s: GroupSession<M>, t: GroupSession<M>, entry: Entry)
    requires CountsCloses(s) && t.group.log == s.group.log + [entry] && t.group.sent == s.group.sent && t.taken == s.taken
    requires t.group.clientOpen == (s.group.clientOpen && !entry.CloseSends?) && (entry.CloseSends? ==> s.group.clientOpen)
    requires t.group.relaying == (s.group.relaying && !entry.Teardown?) && (entry.Teardown? ==> s.group.relaying)
    ensures Progressed(setup, t) == Progressed(setup, s) + 1 && CountsCloses(t)
  {
    EntryIsCountedOnce(s.group.log, entry);
  }

  lemma ClientIsCounted<M>(setup: Setup<M>, s: GroupSession<M>)
    requires CountsCloses(s) && MayGo(setup, s, ClientYields)
    ensures Progressed(setup, Go(setup, s, ClientYields)) == Progressed(setup, s) + 1
    ensures CountsCloses(Go(setup, s, ClientYields))
  {
    var entry := match ToYield(setup, s)[0] case Some(request) => FromClient(Stamp(s.group.source, request)) case None => CloseSends;
    LoggedIsCounted(setup, s, Go(setup, s, ClientYields), entry);
  }

  lemma TurnIsCounted<M>(setup: Setup<M>, s: GroupSession<M>, turn: GroupTurn)
    requires Distinct(setup.names) && s.taken.Keys == NameSet(setup.names) && CountsCloses(s) && MayGo(setup, s, turn)
    ensures Progressed(setup, Go(setup, s, turn)) == Progressed(setup, s) + 1
    ensures CountsCloses(Go(setup, s, turn)) && Go(setup, s, turn).taken.Keys == s.taken.Keys
  {
    match turn
    case ClientYields => ClientIsCounted(setup, s);
    case ClientCancelled => LoggedIsCounted(setup, s, Go(setup, s, turn), CloseSends);
    case ChannelSends =>
    case AgentHears(n) => TakenMore(setup.names, s.taken, n, s.group.sent[|s.taken[n]|]);
    case AgentAnswers(n) => LoggedIsCounted(setup, s, Go(setup, s, turn), Forward(n, s.responses[n][0]));
    case CallerStops => LoggedIsCounted(setup, s, Go(setup, s, turn), Teardown);
  }

  lemma {:induction false} GroupRunIsCounted<M>(setup: Setup<M>, turns: seq<GroupTurn>)
    requires Distinct(setup.names) && setup.start.Keys == NameSet(setup.names) && CanGo(setup, turns)
    ensures Progressed(setup, Gone(setup, turns)) == |turns|
    ensures CountsCloses(Gone(setup, turns)) && Gone(setup, turns).taken.Keys == NameSet(setup.names)
  {
    if turns == [] {
      TakenBound(setup.names, OpenSession(setup).taken, 0);
    } else {
      var before, last := turns[..|turns| - 1], turns[|turns| - 1];
      GroupRunIsCounted(setup, before);
      TurnIsCounted(setup, Gone(setup, before), last);
      assert Gone(setup, turns) == Go(setup, Gone(setup, before), last);
    }
  }

  lemma {:induction false} MergedLength(log: seq<Entry>)
    ensures |Merged(log)| <= |log| && ClientTurns(log) <= Clients(log) + Sentinels(log)
  {
    if log != [] {
      MergedLength(log[..|log| - 1]);
    }
  }

  lemma HeardIsBounded<M>(setup: Setup<M>, s: GroupSession<M>)
    requires AgentsInv(setup, s)
    ensures |s.group.sent| <= |Merged(s.group.log)|
    ensures Taken(setup.names, s.taken) <= |setup.names| * |s.group.sent|
  {
    assert s.group.sent + s.group.queue == Merged(s.group.log);
    TakenBound(setup.names, s.taken, |s.group.sent|);
  }

  /** Every run over the group channel is finite too, whatever fails and however its steps interleave. */
  lemma GroupRunsAreBounded(sc: Scenario, turns: seq<GroupTurn>)
    requires Fits(sc) && CanGo(SetupOf(sc), turns)
    ensures |turns| <= 6 * |sc.logs| + 97
  {
    var setup, s := SetupOf(sc), Gone(SetupOf(sc), turns);
    MemoriesFit(sc);
    GroupRunIsCounted(setup, turns);
    GroupRunsKeepInv(setup, turns);
    GroupOutputIsBounded(sc, turns);
    HeardIsBounded(setup, s);
    LogLength(s.group.log);
    MergedLength(s.group.log);
  }
}
