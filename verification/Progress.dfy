/** Every action of a room makes progress that is counted, so the length of a run is known from the
    state it ends in. */
module Progress {
  import opened Options
  import opened Wire
  import opened Relay
  import opened Execution
  import opened Rooms

  function Clients(log: seq<Entry>): nat {
    if log == [] then 0 else Clients(log[..|log| - 1]) + if log[|log| - 1].FromClient? then 1 else 0
  }

  function Taken(names: seq<string>, delivered: map<string, seq<Slot>>): nat {
    if names == [] then 0
    else
      Taken(names[..|names| - 1], delivered)
      + if names[|names| - 1] in delivered then |delivered[names[|names| - 1]]| else 0
  }

  /** Client requests, the close, slots taken, responses read, readers ended, outputs collected, and
      the caller's leaving. */
  function Done(s: State): int {
    Clients(s.log) + (if s.clientOpen then 0 else 1) + Taken(s.names, s.delivered) + |Emissions(s.log)|
    + (|s.names| - |s.reading|) + |s.yielded| + s.doneCount + if s.collecting then 0 else 1
  }

  lemma ClientsSnoc(log: seq<Entry>, entry: Entry)
    ensures Clients(log + [entry]) == Clients(log) + if entry.FromClient? then 1 else 0
  {
    assert (log + [entry])[..|log|] == log;
  }

  lemma {:induction false} TakenElsewhere(names: seq<string>, delivered: map<string, seq<Slot>>, name: string, slots: seq<Slot>)
    requires name !in names
    ensures Taken(names, delivered[name := slots]) == Taken(names, delivered)
  {
    if names != [] {
      TakenElsewhere(names[..|names| - 1], delivered, name, slots);
    }
  }

  lemma {:induction false} TakenMore(names: seq<string>, delivered: map<string, seq<Slot>>, name: string, slot: Slot)
    requires Distinct(names) && name in names && name in delivered
    ensures Taken(names, delivered[name := delivered[name] + [slot]]) == Taken(names, delivered) + 1
  {
    var init, last := names[..|names| - 1], names[|names| - 1];
    if last == name {
      assert name !in init;
      TakenElsewhere(init, delivered, name, delivered[name] + [slot]);
    } else {
      assert names == init + [last];
      TakenMore(init, delivered, name, slot);
    }
  }

  lemma {:induction false} TakenBound(names: seq<string>, delivered: map<string, seq<Slot>>, most: nat)
    requires forall n :: n in names && n in delivered ==> |delivered[n]| <= most
    ensures Taken(names, delivered) <= |names| * most
  {
    if names != [] {
      TakenBound(names[..|names| - 1], delivered, most);
      assert |names| * most == (|names| - 1) * most + most;
    }
  }

  /** Logging an entry counts it as a request, a response, or neither. */
  lemma EntryIsCounted(log: seq<Entry>, entry: Entry)
    ensures Clients(log + [entry]) == Clients(log) + (if entry.FromClient? then 1 else 0)
    ensures |Emissions(log + [entry])| == |Emissions(log)| + if entry.FromAgent? then 1 else 0
  {
    EmissionsSnoc(log, entry);
    ClientsSnoc(log, entry);
  }

  lemma TakeIsCounted(s: State, name: string)
    requires Inv(s) && Enabled(s, Take(name))
    ensures Done(Apply(s, Take(name))) == Done(s) + 1
  {
    TakenMore(s.names, s.delivered, name, s.queues[name][0]);
  }

  lemma EndIsCounted(s: State, name: string)
    requires Enabled(s, EndReader(name))
    ensures Done(Apply(s, EndReader(name))) == Done(s) + 1
  {
    assert |s.reading - {name}| == |s.reading| - 1;
  }

  lemma AppendIsCounted(s: State, entry: Entry, t: State)
    requires t == Append(s, entry).(output := t.output, clientOpen := t.clientOpen, collecting := t.collecting)
    requires (if s.clientOpen then 0 else 1) + (if s.collecting then 0 else 1) + (if entry.CloseSends? || entry.Teardown? then 1 else 0)
          == (if t.clientOpen then 0 else 1) + (if t.collecting then 0 else 1)
    ensures Done(t) == Done(s) + 1
  {
    EntryIsCounted(s.log, entry);
  }

  lemma PutIsCounted(s: State, step: Step)
    requires Enabled(s, step) && (step.FanOut? || step.CloseClient? || step.Leave? || step.Read?)
    ensures Done(Apply(s, step)) == Done(s) + 1
  {
    match step
    case FanOut(request) => AppendIsCounted(s, FromClient(Stamp(s.source, request)), Apply(s, step));
    case CloseClient => AppendIsCounted(s, CloseSends, Apply(s, step));
    case Read(name, response) => AppendIsCounted(s, Forward(name, response), Apply(s, step));
    case Leave => AppendIsCounted(s, Teardown, Apply(s, step));
  }

  /** Every step makes exactly one unit of progress. */
  lemma StepIsCounted(s: State, step: Step)
    requires Inv(s) && Enabled(s, step)
    ensures Done(Apply(s, step)) == Done(s) + 1
  {
    match step
    case EndReader(name) => EndIsCounted(s, name);
    case Take(name) => TakeIsCounted(s, name);
    case Collect =>
    case _ => PutIsCounted(s, step);
  }

  lemma {:induction false} LogLength(log: seq<Entry>)
    ensures |log| == Clients(log) + |Emissions(log)| + Sentinels(log)
  {
    if log != [] {
      LogLength(log[..|log| - 1]);
    }
  }

  lemma {:induction false} ProjectionLength(log: seq<Entry>, name: string)
    ensures |Projection(log, name)| <= |log|
  {
    if log != [] {
      ProjectionLength(log[..|log| - 1], name);
    }
  }

  /** What a state amounts to at most, given how often the client and the agents have spoken. */
  lemma DoneBound(s: State, clients: nat, emissions: nat)
    requires Inv(s) && Clients(s.log) <= clients && |Emissions(s.log)| <= emissions
    ensures Done(s) <= clients + 2 * emissions + |s.names| * (clients + emissions + 4) + 2
  {
    LogLength(s.log);
    forall n | n in s.names && n in s.delivered
      ensures |s.delivered[n]| <= clients + emissions + 2
    {
      ProjectionLength(s.log, n);
      assert s.delivered[n] + s.queues[n] == Projection(s.log, n);
    }
    TakenBound(s.names, s.delivered, clients + emissions + 2);
    assert |s.yielded| + |Values(s.output)| == |Emissions(s.log)|;
    assert |s.names| * (clients + emissions + 4) == |s.names| * (clients + emissions + 2) + 2 * |s.names|;
  }

  // Runs of a room.

  ghost predicate Plays<M>(react: (M, Line) -> Reaction<M>, r: Room<M>, actions: seq<Action>)
    decreases |actions|, 0
  {
    actions == [] ||
    (var before := actions[..|actions| - 1];
     Plays(react, r, before) && May(Played(react, r, before), actions[|actions| - 1]))
  }

  ghost function Played<M>(react: (M, Line) -> Reaction<M>, r: Room<M>, actions: seq<Action>): Room<M>
    requires Plays(react, r, actions)
    decreases |actions|, 1
  {
    if actions == [] then r else Do(react, Played(react, r, actions[..|actions| - 1]), actions[|actions| - 1])
  }

  lemma ActionIsCounted<M>(react: (M, Line) -> Reaction<M>, start: map<string, M>, r: Room<M>, a: Action)
    requires RoomInv(react, start, r) && May(r, a)
    ensures Done(Do(react, r, a).relay) == Done(r.relay) + 1
  {
    ActionIsStep(react, r, a);
    StepIsCounted(r.relay, StepOf(r, a));
  }

  /** The invariant holds throughout, and a run is as long as the progress it made. */
  lemma {:induction false} PlayKeepsInv<M>(react: (M, Line) -> Reaction<M>, start: map<string, M>, r: Room<M>, actions: seq<Action>)
    requires RoomInv(react, start, r) && Plays(react, r, actions)
    ensures RoomInv(react, start, Played(react, r, actions))
    ensures Played(react, r, actions).relay.names == r.relay.names && Played(react, r, actions).relay.source == r.relay.source
    ensures Done(Played(react, r, actions).relay) == Done(r.relay) + |actions|
  {
    if actions != [] {
      var before, last := actions[..|actions| - 1], actions[|actions| - 1];
      PlayKeepsInv(react, start, r, before);
      var t := Played(react, r, before);
      ActionKeepsInv(react, start, t, last);
      ActionIsCounted(react, start, t, last);
      assert Played(react, r, actions) == Do(react, t, last);
    }
  }

  lemma EnterInv<M>(react: (M, Line) -> Reaction<M>, names: seq<string>, source: string, start: map<string, M>)
    requires Distinct(names) && start.Keys == NameSet(names)
    ensures RoomInv(react, start, Enter(names, source, start)) && Done(Enter(names, source, start).relay) == 0
  {
    StartInv(names, source);
    DistinctCardinality(names);
    TakenBound(names, Start(names, source).delivered, 0);
    var r := Enter(names, source, start);
    forall n | n in start
      ensures AgentInv(react, Boot(n, start[n]), r.relay.delivered[n], r.agents[n], Said([], n), r.responses[n])
    {
    }
  }
}
