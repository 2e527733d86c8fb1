/** The application-layer relay over N point-to-point streams, as a transition system.
    A queue put never suspends, so each fan-out or forward loop is one atomic step. The auxiliary
    components `log`, `delivered` and `yielded` record history; no step reads them. */
module Relay {
  import opened Sequences
  import opened Options
  import opened Wire

  /** One slot of an agent's send queue. */
  datatype Slot = Item(request: Request) | Sentinel

  /** One atomic step that puts something into the agents' queues: a client request as it was sent
      on, an agent's response with its translation, or a close. */
  datatype Entry =
    | FromClient(request: Request)
    | FromAgent(name: string, response: Response, forwarded: Option<Request>)
    | CloseSends
    | Teardown

  datatype Emission = Emission(name: string, response: Response)

  datatype State = State(
    names: seq<string>,
    source: string,
    queues: map<string, seq<Slot>>,
    output: seq<Option<Emission>>,
    doneCount: nat,
    clientOpen: bool,
    reading: set<string>,
    collecting: bool,
    log: seq<Entry>,
    delivered: map<string, seq<Slot>>,
    yielded: seq<Emission>)

  datatype Step =
    | FanOut(request: Request)
    | CloseClient
    | Read(name: string, response: Response)
    | EndReader(name: string)
    | Take(name: string)
    | Collect
    | Leave

  predicate Distinct(names: seq<string>) {
    forall i, j :: 0 <= i < j < |names| ==> names[i] != names[j]
  }

  function NameSet(names: seq<string>): set<string> {
    set n | n in names
  }

  function Start(names: seq<string>, source: string): State {
    var empty := map n | n in NameSet(names) :: [];
    State(names, source, empty, [], 0, true, NameSet(names), true, [], empty, [])
  }

  /** What an entry adds to the queue of one agent: never its own output. */
  function Contribution(entry: Entry, name: string): seq<Slot> {
    match entry
    case FromClient(request) => [Item(request)]
    case FromAgent(origin, _, forwarded) =>
      if origin != name && forwarded.Some? then [Item(forwarded.value)] else []
    case CloseSends => [Sentinel]
    case Teardown => [Sentinel]
  }

  /** The whole stream that a log prescribes for one agent. */
  function Projection(log: seq<Entry>, name: string): seq<Slot> {
    if log == [] then []
    else Projection(log[..|log| - 1], name) + Contribution(log[|log| - 1], name)
  }

  function Extend(queues: map<string, seq<Slot>>, entry: Entry): map<string, seq<Slot>> {
    map n | n in queues :: queues[n] + Contribution(entry, n)
  }

  function Append(s: State, entry: Entry): State {
    s.(queues := Extend(s.queues, entry), log := s.log + [entry])
  }

  function Forward(name: string, response: Response): Entry {
    FromAgent(name, response, Translate(response, name))
  }

  predicate Closed(slots: seq<Slot>) {
    slots != [] && slots[|slots| - 1] == Sentinel
  }

  ghost predicate Enabled(s: State, step: Step) {
    match step
    case FanOut(_) => s.collecting && s.clientOpen
    case CloseClient => s.clientOpen
    case Read(name, _) => s.collecting && name in s.reading
    case EndReader(name) => name in s.reading
    case Take(name) =>
      name in s.queues && name in s.delivered && s.queues[name] != [] && !Closed(s.delivered[name])
    case Collect => s.collecting && s.doneCount < |s.names| && s.output != []
    case Leave => s.collecting
  }

  /** Fan-out, close and forward append to the queues. A reader that ends, for whatever reason, adds
      one end mark to the output and touches no queue. The collector leaves when every end mark was
      counted, or earlier when its consumer gives up; either way it puts a sentinel in every queue. */
  function Apply(s: State, step: Step): State
    requires Enabled(s, step)
  {
    match step
    case FanOut(request) => Append(s, FromClient(Stamp(s.source, request)))
    case CloseClient => Append(s, CloseSends).(clientOpen := false)
    case Read(name, response) =>
      Append(s, Forward(name, response)).(output := s.output + [Some(Emission(name, response))])
    case EndReader(name) =>
      s.(output := s.output + [None], reading := s.reading - {name})
    case Take(name) =>
      s.(queues := s.queues[name := s.queues[name][1..]],
         delivered := s.delivered[name := s.delivered[name] + [s.queues[name][0]]])
    case Collect =>
      match s.output[0] {
        case None => s.(output := s.output[1..], doneCount := s.doneCount + 1)
        case Some(emission) => s.(output := s.output[1..], yielded := s.yielded + [emission])
      }
    case Leave => Append(s, Teardown).(collecting := false)
  }

  // Runs.

  ghost predicate CanRun(s: State, steps: seq<Step>)
    decreases |steps|, 0
  {
    steps == [] ||
    (var before := steps[..|steps| - 1];
     CanRun(s, before) && Enabled(After(s, before), steps[|steps| - 1]))
  }

  ghost function After(s: State, steps: seq<Step>): State
    requires CanRun(s, steps)
    decreases |steps|, 1
  {
    if steps == [] then s else Apply(After(s, steps[..|steps| - 1]), steps[|steps| - 1])
  }

  // The invariant.

  function Emissions(log: seq<Entry>): seq<Emission> {
    if log == [] then []
    else
      var last := log[|log| - 1];
      Emissions(log[..|log| - 1]) + if last.FromAgent? then [Emission(last.name, last.response)] else []
  }

  function Values(output: seq<Option<Emission>>): seq<Emission> {
    if output == [] then []
    else (if output[0].Some? then [output[0].value] else []) + Values(output[1..])
  }

  function EndMarks(output: seq<Option<Emission>>): nat {
    if output == [] then 0 else (if output[0].None? then 1 else 0) + EndMarks(output[1..])
  }

  function Sentinels(log: seq<Entry>): nat {
    if log == [] then 0
    else Sentinels(log[..|log| - 1]) + if log[|log| - 1].CloseSends? || log[|log| - 1].Teardown? then 1 else 0
  }

  /** Every queue, together with what was already taken from it, is the projection of one log. */
  ghost predicate Refines(log: seq<Entry>, queues: map<string, seq<Slot>>, delivered: map<string, seq<Slot>>) {
    && queues.Keys == delivered.Keys
    && forall n | n in queues :: delivered[n] + queues[n] == Projection(log, n)
  }

  /** The send side of a stream is read up to its first sentinel. */
  ghost predicate StopsAtSentinel(slots: seq<Slot>) {
    forall k | 0 <= k < |slots| - 1 :: slots[k] != Sentinel
  }

  /** Nothing that was put into the output queue is lost, reordered or counted twice. */
  ghost predicate Conserves(log: seq<Entry>, output: seq<Option<Emission>>, yielded: seq<Emission>) {
    yielded + Values(output) == Emissions(log)
  }

  /** Every reader that ended left exactly one end mark, and the last reader's mark came last. */
  ghost predicate CountsReaders(names: seq<string>, output: seq<Option<Emission>>, doneCount: nat, reading: set<string>) {
    && reading <= NameSet(names)
    && doneCount + EndMarks(output) + |reading| == |names|
    && (reading == {} && output != [] ==> output[|output| - 1] == None)
  }

  /** Responses are logged with their translation, and client messages with the source's stamp. */
  ghost predicate Attributed(source: string, entry: Entry) {
    && (entry.FromAgent? ==> entry.forwarded == Translate(entry.response, entry.name))
    && (entry.FromClient? && entry.request.MessageRequest? && source != "" ==> GetMessageSender(entry.request.message) == source)
  }

  ghost predicate AllAttributed(source: string, log: seq<Entry>) {
    forall p :: 0 <= p < |log| ==> Attributed(source, log[p])
  }

  ghost predicate Inv(s: State) {
    && AllAttributed(s.source, s.log)
    && Distinct(s.names)
    && s.queues.Keys == NameSet(s.names)
    && Refines(s.log, s.queues, s.delivered)
    && (forall n | n in s.delivered :: StopsAtSentinel(s.delivered[n]))
    && Conserves(s.log, s.output, s.yielded)
    && CountsReaders(s.names, s.output, s.doneCount, s.reading)
    && Sentinels(s.log) == (if s.clientOpen then 0 else 1) + if s.collecting then 0 else 1
  }

  lemma ProjectionSnoc(log: seq<Entry>, entry: Entry, name: string)
    ensures Projection(log + [entry], name) == Projection(log, name) + Contribution(entry, name)
  {
    assert (log + [entry])[..|log|] == log;
  }

  lemma AttributedSnoc(source: string, log: seq<Entry>, entry: Entry)
    requires AllAttributed(source, log) && Attributed(source, entry)
    ensures AllAttributed(source, log + [entry])
  {
  }

  lemma ForwardIsAttributed(source: string, name: string, response: Response)
    ensures Attributed(source, Forward(name, response))
  {
  }

  lemma StampIsAttributed(source: string, request: Request)
    ensures Attributed(source, FromClient(Stamp(source, request)))
  {
  }

  lemma EmissionsSnoc(log: seq<Entry>, entry: Entry)
    ensures Emissions(log + [entry]) ==
              Emissions(log) + if entry.FromAgent? then [Emission(entry.name, entry.response)] else []
    ensures Sentinels(log + [entry]) == Sentinels(log) + if entry.CloseSends? || entry.Teardown? then 1 else 0
  {
    assert (log + [entry])[..|log|] == log;
  }

  lemma {:induction false} OutputSnoc(output: seq<Option<Emission>>, item: Option<Emission>)
    ensures Values(output + [item]) == Values(output) + if item.Some? then [item.value] else []
    ensures EndMarks(output + [item]) == EndMarks(output) + if item.None? then 1 else 0
  {
    var value := if item.Some? then [item.value] else [];
    if output == [] {
      assert output + [item] == [item] && [item][1..] == [];
      assert Values([item]) == value + Values([]) == value;
    } else {
      var rest := output[1..];
      OutputSnoc(rest, item);
      assert (output + [item])[1..] == rest + [item];
      Rebracket(if output[0].Some? then [output[0].value] else [], Values(rest), value);
    }
  }

  lemma ExtendRefines(log: seq<Entry>, queues: map<string, seq<Slot>>, delivered: map<string, seq<Slot>>, entry: Entry)
    requires Refines(log, queues, delivered)
    ensures Refines(log + [entry], Extend(queues, entry), delivered)
  {
    var extended := Extend(queues, entry);
    forall n | n in extended
      ensures delivered[n] + extended[n] == Projection(log + [entry], n)
    {
      ProjectionSnoc(log, entry, n);
      Rebracket(delivered[n], queues[n], Contribution(entry, n));
    }
  }

  lemma TakeRefines(log: seq<Entry>, queues: map<string, seq<Slot>>, delivered: map<string, seq<Slot>>, name: string)
    requires Refines(log, queues, delivered) && name in queues && queues[name] != []
    ensures Refines(log, queues[name := queues[name][1..]], delivered[name := delivered[name] + [queues[name][0]]])
  {
    assert (delivered[name] + [queues[name][0]]) + queues[name][1..] == delivered[name] + queues[name];
  }

  lemma {:induction false} DistinctCardinality(names: seq<string>)
    requires Distinct(names)
    ensures |NameSet(names)| == |names|
  {
    if names != [] {
      var init := names[..|names| - 1];
      DistinctCardinality(init);
      assert names[|names| - 1] !in NameSet(init);
      assert NameSet(names) == NameSet(init) + {names[|names| - 1]};
    }
  }

  lemma StartInv(names: seq<string>, source: string)
    requires Distinct(names)
    ensures Inv(Start(names, source))
  {
    DistinctCardinality(names);
  }

  /** Appending an entry that is not a response. */
  lemma AppendKeepsInv(s: State, entry: Entry)
    requires Inv(s) && !entry.FromAgent? && Attributed(s.source, entry)
    ensures var t := Append(s, entry);
      && AllAttributed(t.source, t.log)
      && Refines(t.log, t.queues, t.delivered)
      && Conserves(t.log, t.output, t.yielded)
      && Sentinels(t.log) == Sentinels(s.log) + if entry.CloseSends? || entry.Teardown? then 1 else 0
  {
    AttributedSnoc(s.source, s.log, entry);
    ExtendRefines(s.log, s.queues, s.delivered, entry);
    EmissionsSnoc(s.log, entry);
  }

  lemma ReadKeepsInv(s: State, name: string, response: Response)
    requires Inv(s) && Enabled(s, Read(name, response))
    ensures Inv(Apply(s, Read(name, response)))
  {
    var entry := Forward(name, response);
    ForwardIsAttributed(s.source, name, response);
    AttributedSnoc(s.source, s.log, entry);
    ExtendRefines(s.log, s.queues, s.delivered, entry);
    EmissionsSnoc(s.log, entry);
    OutputSnoc(s.output, Some(Emission(name, response)));
    Rebracket(s.yielded, Values(s.output), [Emission(name, response)]);
  }

  lemma EndReaderKeepsInv(s: State, name: string)
    requires Inv(s) && Enabled(s, EndReader(name))
    ensures Inv(Apply(s, EndReader(name)))
  {
    OutputSnoc(s.output, None);
    assert |s.reading - {name}| == |s.reading| - 1;
  }

  lemma TakeStops(slots: seq<Slot>, slot: Slot)
    requires StopsAtSentinel(slots) && !Closed(slots)
    ensures StopsAtSentinel(slots + [slot])
  {
  }

  lemma TakeKeepsInv(s: State, name: string)
    requires Inv(s) && Enabled(s, Take(name))
    ensures Inv(Apply(s, Take(name)))
  {
    TakeRefines(s.log, s.queues, s.delivered, name);
    var slots := s.delivered[name];
    TakeStops(slots, s.queues[name][0]);
    var delivered := s.delivered[name := slots + [s.queues[name][0]]];
    forall n | n in delivered
      ensures StopsAtSentinel(delivered[n])
    {
      assert n in s.delivered;
    }
  }

  lemma CollectKeepsInv(s: State)
    requires Inv(s) && Enabled(s, Collect)
    ensures Inv(Apply(s, Collect))
  {
    var rest := s.output[1..];
    if s.output[0].Some? {
      assert s.yielded + Values(s.output) == (s.yielded + [s.output[0].value]) + Values(rest);
    }
  }

  lemma PutKeepsInv(s: State, step: Step)
    requires Inv(s) && Enabled(s, step) && (step.FanOut? || step.CloseClient? || step.Leave?)
    ensures Inv(Apply(s, step))
  {
    match step
    case FanOut(request) =>
      StampIsAttributed(s.source, request);
      AppendKeepsInv(s, FromClient(Stamp(s.source, request)));
    case CloseClient => AppendKeepsInv(s, CloseSends);
    case Leave => AppendKeepsInv(s, Teardown);
  }

  lemma StepKeepsInv(s: State, step: Step)
    requires Inv(s) && Enabled(s, step)
    ensures Inv(Apply(s, step))
    ensures Apply(s, step).names == s.names && Apply(s, step).source == s.source
  {
    match step
    case Read(name, response) => ReadKeepsInv(s, name, response);
    case EndReader(name) => EndReaderKeepsInv(s, name);
    case Take(name) => TakeKeepsInv(s, name);
    case Collect => CollectKeepsInv(s);
    case _ => PutKeepsInv(s, step);
  }

  /** The invariant holds in every state of every run. */
  lemma {:induction false} RunKeepsInv(s: State, steps: seq<Step>)
    requires Inv(s) && CanRun(s, steps)
    ensures Inv(After(s, steps))
    ensures After(s, steps).names == s.names && After(s, steps).source == s.source
  {
    if steps != [] {
      var before := steps[..|steps| - 1];
      RunKeepsInv(s, before);
      var t := After(s, before);
      StepKeepsInv(t, steps[|steps| - 1]);
      assert After(s, steps) == Apply(t, steps[|steps| - 1]);
    }
  }
}
