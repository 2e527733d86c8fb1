/** Agents on the N-streams relay: each reads its stream, reacts, and has its responses read and
    forwarded. What the client sends is left open. */
module Rooms {
  import opened Sequences
  import opened Options
  import opened Wire
  import opened Relay
  import opened Execution

  /** `responses` holds what an agent has emitted and its reader has not read yet. */
  datatype Room<M> = Room(relay: State, agents: map<string, Executor<M>>, responses: map<string, seq<Response>>)

  datatype Action =
    | ClientSends(request: Request)
    | ClientCloses
    | AgentReceives(name: string)
    | ReaderReads(name: string)
    | ReaderEnds(name: string)
    | ReaderFails(name: string)
    | CallerTakes
    | CallerLeaves

  function Enter<M>(names: seq<string>, source: string, start: map<string, M>): Room<M> {
    Room(Start(names, source),
         map n | n in start :: Boot(n, start[n]),
         map n | n in start :: [])
  }

  ghost predicate May<M>(r: Room<M>, a: Action) {
    match a
    case ClientSends(request) => Enabled(r.relay, FanOut(request))
    case ClientCloses => Enabled(r.relay, CloseClient)
    case AgentReceives(n) => n in r.agents && n in r.responses && Enabled(r.relay, Take(n))
    case ReaderReads(n) => n in r.responses && r.responses[n] != [] && Enabled(r.relay, Read(n, r.responses[n][0]))
    case ReaderEnds(n) => n in r.agents && n in r.responses && r.responses[n] == [] && r.agents[n].stopped && Enabled(r.relay, EndReader(n))
    case ReaderFails(n) => Enabled(r.relay, EndReader(n))
    case CallerTakes => Enabled(r.relay, Collect)
    case CallerLeaves => Enabled(r.relay, Leave)
  }

  function Do<M>(react: (M, Line) -> Reaction<M>, r: Room<M>, a: Action): Room<M>
    requires May(r, a)
  {
    match a
    case ClientSends(request) => r.(relay := Apply(r.relay, FanOut(request)))
    case ClientCloses => r.(relay := Apply(r.relay, CloseClient))
    case AgentReceives(n) =>
      var slot := r.relay.queues[n][0];
      Room(Apply(r.relay, Take(n)),
           r.agents[n := Receive(react, r.agents[n], slot)],
           r.responses[n := r.responses[n] + Emit(react, r.agents[n], slot)])
    case ReaderReads(n) =>
      Room(Apply(r.relay, Read(n, r.responses[n][0])), r.agents, r.responses[n := r.responses[n][1..]])
    case ReaderEnds(n) => r.(relay := Apply(r.relay, EndReader(n)))
    case ReaderFails(n) => r.(relay := Apply(r.relay, EndReader(n)))
    case CallerTakes => r.(relay := Apply(r.relay, Collect))
    case CallerLeaves => r.(relay := Apply(r.relay, Leave))
  }

  /** The responses of one agent that were read and forwarded. */
  function Said(log: seq<Entry>, name: string): seq<Response> {
    if log == [] then []
    else
      var last := log[|log| - 1];
      Said(log[..|log| - 1], name) + if last.FromAgent? && last.name == name then [last.response] else []
  }

  /** What an agent emits once it has read its whole projection of a log. */
  function Full<M>(react: (M, Line) -> Reaction<M>, start: map<string, M>, log: seq<Entry>, name: string): seq<Response>
    requires name in start
  {
    Events(react, Boot(name, start[name]), Projection(log, name))
  }

  /** An agent's entry is the next thing it emits, given the log before it. */
  ghost predicate Justified<M>(react: (M, Line) -> Reaction<M>, start: map<string, M>, log: seq<Entry>, entry: Entry) {
    entry.FromAgent? ==>
      && entry.name in start
      && entry.forwarded == Translate(entry.response, entry.name)
      && |Said(log, entry.name)| < |Full(react, start, log, entry.name)|
      && Full(react, start, log, entry.name)[|Said(log, entry.name)|] == entry.response
  }

  ghost predicate AllJustified<M>(react: (M, Line) -> Reaction<M>, start: map<string, M>, log: seq<Entry>) {
    log == [] ||
    (AllJustified(react, start, log[..|log| - 1]) && Justified(react, start, log[..|log| - 1], log[|log| - 1]))
  }

  ghost predicate AgentInv<M>(react: (M, Line) -> Reaction<M>, boot: Executor<M>, taken: seq<Slot>, agent: Executor<M>,
                              said: seq<Response>, waiting: seq<Response>) {
    && agent == Upto(react, boot, taken)
    && said + waiting == Events(react, boot, taken)
  }

  /** Every agent is where its reactions to what it took put it, and what it emitted was read in order. */
  ghost predicate Minds<M>(react: (M, Line) -> Reaction<M>, start: map<string, M>, log: seq<Entry>,
                           delivered: map<string, seq<Slot>>, agents: map<string, Executor<M>>, responses: map<string, seq<Response>>) {
    && start.Keys == delivered.Keys == agents.Keys == responses.Keys
    && forall n | n in start :: AgentInv(react, Boot(n, start[n]), delivered[n], agents[n], Said(log, n), responses[n])
  }

  ghost predicate RoomMinds<M>(react: (M, Line) -> Reaction<M>, start: map<string, M>, r: Room<M>) {
    Minds(react, start, r.relay.log, r.relay.delivered, r.agents, r.responses)
  }

  ghost predicate RoomInv<M>(react: (M, Line) -> Reaction<M>, start: map<string, M>, r: Room<M>) {
    Inv(r.relay) && AllJustified(react, start, r.relay.log) && RoomMinds(react, start, r)
  }

  lemma SaidSnoc(log: seq<Entry>, entry: Entry, name: string)
    ensures Said(log + [entry], name) == Said(log, name) + if entry.FromAgent? && entry.name == name then [entry.response] else []
  {
    assert (log + [entry])[..|log|] == log;
  }

  lemma JustifiedSnoc<M>(react: (M, Line) -> Reaction<M>, start: map<string, M>, log: seq<Entry>, entry: Entry)
    requires AllJustified(react, start, log) && Justified(react, start, log, entry)
    ensures AllJustified(react, start, log + [entry])
  {
    assert (log + [entry])[..|log|] == log;
  }

  lemma {:induction false} EventsGrow<M>(react: (M, Line) -> Reaction<M>, boot: Executor<M>, a: seq<Slot>, b: seq<Slot>)
    ensures Events(react, boot, a) <= Events(react, boot, a + b)
  {
    if b == [] {
      assert a + b == a;
    } else {
      EventsGrow(react, boot, a, b[..|b| - 1]);
      assert (a + b)[..|a + b| - 1] == a + b[..|b| - 1];
    }
  }

  lemma PrefixExtends<T>(a: seq<T>, b: seq<T>, c: seq<T>, more: seq<T>)
    requires a <= b <= c && (more == [] || (|a| < |b| && more == [b[|a|]]))
    ensures a + more <= c
  {
  }

  lemma FullGrows<M>(react: (M, Line) -> Reaction<M>, start: map<string, M>, log: seq<Entry>, entry: Entry, name: string)
    requires name in start
    ensures Full(react, start, log, name) <= Full(react, start, log + [entry], name)
  {
    ProjectionSnoc(log, entry, name);
    EventsGrow(react, Boot(name, start[name]), Projection(log, name), Contribution(entry, name));
  }

  /** In a justified log, what was read of an agent is a prefix of what it emits on the whole log. */
  lemma {:induction false} JustifiedIsPrefix<M>(react: (M, Line) -> Reaction<M>, start: map<string, M>, log: seq<Entry>, name: string)
    requires AllJustified(react, start, log) && name in start
    ensures Said(log, name) <= Full(react, start, log, name)
  {
    if log != [] {
      var init, last := log[..|log| - 1], log[|log| - 1];
      JustifiedIsPrefix(react, start, init, name);
      assert log == init + [last];
      FullGrows(react, start, init, last, name);
      SaidSnoc(init, last, name);
      PrefixExtends(Said(init, name), Full(react, start, init, name), Full(react, start, log, name),
                    if last.FromAgent? && last.name == name then [last.response] else []);
    }
  }

  lemma MindsAppend<M>(react: (M, Line) -> Reaction<M>, start: map<string, M>, log: seq<Entry>,
                       delivered: map<string, seq<Slot>>, agents: map<string, Executor<M>>, responses: map<string, seq<Response>>, entry: Entry)
    requires Minds(react, start, log, delivered, agents, responses) && !entry.FromAgent?
    ensures Minds(react, start, log + [entry], delivered, agents, responses)
  {
    forall n | n in start
      ensures Said(log + [entry], n) == Said(log, n)
    {
      SaidSnoc(log, entry, n);
    }
  }

  lemma AgentTakes<M>(react: (M, Line) -> Reaction<M>, boot: Executor<M>, taken: seq<Slot>, agent: Executor<M>,
                      said: seq<Response>, waiting: seq<Response>, slot: Slot)
    requires AgentInv(react, boot, taken, agent, said, waiting)
    ensures AgentInv(react, boot, taken + [slot], Receive(react, agent, slot), said, waiting + Emit(react, agent, slot))
  {
    InputSnoc(react, boot, taken, slot);
    Rebracket(said, waiting, Emit(react, agent, slot));
  }

  lemma MindsTake<M>(react: (M, Line) -> Reaction<M>, start: map<string, M>, log: seq<Entry>,
                     delivered: map<string, seq<Slot>>, agents: map<string, Executor<M>>, responses: map<string, seq<Response>>,
                     name: string, slot: Slot)
    requires Minds(react, start, log, delivered, agents, responses) && name in start
    ensures Minds(react, start, log, delivered[name := delivered[name] + [slot]],
                  agents[name := Receive(react, agents[name], slot)],
                  responses[name := responses[name] + Emit(react, agents[name], slot)])
  {
    AgentTakes(react, Boot(name, start[name]), delivered[name], agents[name], Said(log, name), responses[name], slot);
  }

  /** A response that is read is the agent's next one on the log so far. */
  lemma ReadIsJustified<M>(react: (M, Line) -> Reaction<M>, start: map<string, M>, log: seq<Entry>, name: string,
                           taken: seq<Slot>, queue: seq<Slot>, agent: Executor<M>, waiting: seq<Response>)
    requires name in start && waiting != []
    requires AgentInv(react, Boot(name, start[name]), taken, agent, Said(log, name), waiting)
    requires taken + queue == Projection(log, name)
    ensures Justified(react, start, log, Forward(name, waiting[0]))
  {
    var boot := Boot(name, start[name]);
    EventsGrow(react, boot, taken, queue);
    assert Events(react, boot, taken)[|Said(log, name)|] == waiting[0];
  }

  lemma AgentIsRead<M>(react: (M, Line) -> Reaction<M>, boot: Executor<M>, taken: seq<Slot>, agent: Executor<M>,
                       said: seq<Response>, waiting: seq<Response>)
    requires AgentInv(react, boot, taken, agent, said, waiting) && waiting != []
    ensures AgentInv(react, boot, taken, agent, said + [waiting[0]], waiting[1..])
  {
    assert (said + [waiting[0]]) + waiting[1..] == said + waiting;
  }

  /** The reader of agent `name` takes its next response: what that does to agent `n`. */
  lemma OneIsRead<M>(react: (M, Line) -> Reaction<M>, boot: Executor<M>, taken: seq<Slot>, agent: Executor<M>, log: seq<Entry>,
                     entry: Entry, n: string, waiting: seq<Response>, rest: seq<Response>)
    requires AgentInv(react, boot, taken, agent, Said(log, n), waiting)
    requires entry.FromAgent? && (entry.name == n ==> waiting != [] && entry.response == waiting[0])
    requires rest == if entry.name == n then waiting[1..] else waiting
    ensures AgentInv(react, boot, taken, agent, Said(log + [entry], n), rest)
  {
    SaidSnoc(log, entry, n);
    if entry.name == n {
      AgentIsRead(react, boot, taken, agent, Said(log, n), waiting);
    } else {
      assert Said(log, n) + [] == Said(log, n);
    }
  }

  lemma MindsRead<M>(react: (M, Line) -> Reaction<M>, start: map<string, M>, log: seq<Entry>, entry: Entry,
                     delivered: map<string, seq<Slot>>, agents: map<string, Executor<M>>, responses: map<string, seq<Response>>)
    requires Minds(react, start, log, delivered, agents, responses)
    requires entry.FromAgent? && entry.name in start && responses[entry.name] != [] && entry.response == responses[entry.name][0]
    ensures Minds(react, start, log + [entry], delivered, agents, responses[entry.name := responses[entry.name][1..]])
  {
    var rest, longer := responses[entry.name := responses[entry.name][1..]], log + [entry];
    forall n | n in start
      ensures AgentInv(react, Boot(n, start[n]), delivered[n], agents[n], Said(longer, n), rest[n])
    {
      OneIsRead(react, Boot(n, start[n]), delivered[n], agents[n], log, entry, n, responses[n], rest[n]);
    }
  }

  /** The relay step behind an action. */
  function StepOf<M>(r: Room<M>, a: Action): Step
    requires a.ReaderReads? ==> a.name in r.responses && r.responses[a.name] != []
  {
    match a
    case ClientSends(request) => FanOut(request)
    case ClientCloses => CloseClient
    case AgentReceives(n) => Take(n)
    case ReaderReads(n) => Read(n, r.responses[n][0])
    case ReaderEnds(n) => EndReader(n)
    case ReaderFails(n) => EndReader(n)
    case CallerTakes => Collect
    case CallerLeaves => Leave
  }

  lemma ActionIsStep<M>(react: (M, Line) -> Reaction<M>, r: Room<M>, a: Action)
    requires May(r, a)
    ensures Enabled(r.relay, StepOf(r, a)) && Do(react, r, a).relay == Apply(r.relay, StepOf(r, a))
  {
  }

  lemma TakeKeepsMinds<M>(react: (M, Line) -> Reaction<M>, start: map<string, M>, r: Room<M>, n: string)
    requires RoomMinds(react, start, r) && May(r, AgentReceives(n))
    ensures RoomMinds(react, start, Do(react, r, AgentReceives(n)))
  {
    MindsTake(react, start, r.relay.log, r.relay.delivered, r.agents, r.responses, n, r.relay.queues[n][0]);
  }

  lemma ReadKeepsMinds<M>(react: (M, Line) -> Reaction<M>, start: map<string, M>, r: Room<M>, n: string)
    requires RoomMinds(react, start, r) && May(r, ReaderReads(n))
    ensures RoomMinds(react, start, Do(react, r, ReaderReads(n)))
  {
    MindsRead(react, start, r.relay.log, Forward(n, r.responses[n][0]), r.relay.delivered, r.agents, r.responses);
  }

  lemma AppendKeepsMinds<M>(react: (M, Line) -> Reaction<M>, start: map<string, M>, r: Room<M>, a: Action)
    requires RoomMinds(react, start, r) && May(r, a) && (a.ClientSends? || a.ClientCloses? || a.CallerLeaves?)
    ensures RoomMinds(react, start, Do(react, r, a))
  {
    var entry := match a case ClientSends(request) => FromClient(Stamp(r.relay.source, request)) case ClientCloses => CloseSends case _ => Teardown;
    MindsAppend(react, start, r.relay.log, r.relay.delivered, r.agents, r.responses, entry);
  }

  lemma ActionKeepsMinds<M>(react: (M, Line) -> Reaction<M>, start: map<string, M>, r: Room<M>, a: Action)
    requires RoomMinds(react, start, r) && May(r, a)
    ensures RoomMinds(react, start, Do(react, r, a))
  {
    match a
    case ClientSends(_) => AppendKeepsMinds(react, start, r, a);
    case ClientCloses => AppendKeepsMinds(react, start, r, a);
    case AgentReceives(n) => TakeKeepsMinds(react, start, r, n);
    case ReaderReads(n) => ReadKeepsMinds(react, start, r, n);
    case ReaderEnds(n) =>
    case ReaderFails(n) =>
    case CallerTakes =>
    case CallerLeaves => AppendKeepsMinds(react, start, r, a);
  }

  /** What an action adds to the log. */
  function Logged<M>(r: Room<M>, a: Action): seq<Entry>
    requires May(r, a)
  {
    match a
    case ClientSends(request) => [FromClient(Stamp(r.relay.source, request))]
    case ClientCloses => [CloseSends]
    case ReaderReads(n) => [Forward(n, r.responses[n][0])]
    case CallerLeaves => [Teardown]
    case _ => []
  }

  lemma ActionLogs<M>(react: (M, Line) -> Reaction<M>, r: Room<M>, a: Action)
    requires May(r, a)
    ensures Do(react, r, a).relay.log == r.relay.log + Logged(r, a)
  {
  }

  lemma OnlyLeavingStops<M>(react: (M, Line) -> Reaction<M>, r: Room<M>, a: Action)
    requires May(r, a)
    ensures Do(react, r, a).relay.collecting == (r.relay.collecting && !a.CallerLeaves?)
  {
  }

  /** Whatever an action adds to the log is justified by the log before it. */
  lemma ActionIsJustified<M>(react: (M, Line) -> Reaction<M>, start: map<string, M>, r: Room<M>, a: Action)
    requires RoomMinds(react, start, r) && May(r, a) && AllJustified(react, start, r.relay.log)
    requires Refines(r.relay.log, r.relay.queues, r.relay.delivered)
    ensures AllJustified(react, start, r.relay.log + Logged(r, a))
  {
    var log, more := r.relay.log, Logged(r, a);
    if more == [] {
      assert log + more == log;
    } else {
      if a.ReaderReads? {
        var n := a.name;
        ReadIsJustified(react, start, log, n, r.relay.delivered[n], r.relay.queues[n], r.agents[n], r.responses[n]);
      }
      JustifiedSnoc(react, start, log, more[0]);
    }
  }

  lemma ActionKeepsInv<M>(react: (M, Line) -> Reaction<M>, start: map<string, M>, r: Room<M>, a: Action)
    requires RoomInv(react, start, r) && May(r, a)
    ensures RoomInv(react, start, Do(react, r, a))
    ensures Do(react, r, a).relay.names == r.relay.names && Do(react, r, a).relay.source == r.relay.source
  {
    ActionKeepsMinds(react, start, r, a);
    ActionIsJustified(react, start, r, a);
    ActionLogs(react, r, a);
    ActionIsStep(react, r, a);
    StepKeepsInv(r.relay, StepOf(r, a));
  }
}
