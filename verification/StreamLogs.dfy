/** Exactly which logs a session over point-to-point streams produces: those whose agent entries are
    justified, whose client entries follow the script, and whose entries come in time. */
module StreamLogs {
  import opened Options
  import opened Wire
  import opened Relay
  import opened Execution
  import opened AgentLoops
  import opened Rooms
  import opened Progress
  import opened Sessions

  /** Nobody is heard after the teardown, the client not after its close, and each of the two comes once. */
  predicate InTime(log: seq<Entry>, entry: Entry) {
    match entry
    case FromClient(_) => CloseSends !in log && Teardown !in log
    case FromAgent(_, _, _) => Teardown !in log
    case CloseSends => CloseSends !in log
    case Teardown => Teardown !in log
  }

  ghost predicate Timely(log: seq<Entry>) {
    log == [] || (Timely(log[..|log| - 1]) && InTime(log[..|log| - 1], log[|log| - 1]))
  }

  ghost predicate Producible<M>(setup: Setup<M>, log: seq<Entry>) {
    AllJustified(setup.react, setup.start, log) && Scripted(setup, log) && Timely(log)
  }

  ghost predicate StreamsProduce<M>(setup: Setup<M>, log: seq<Entry>) {
    exists turns :: Goes(setup, turns) && Reached(setup, turns).room.relay.log == log
  }

  // Every log of a run is producible.

  /** The relay's two flags say what the log says. */
  ghost predicate FlagsFit(log: seq<Entry>, clientOpen: bool, running: bool) {
    && Timely(log)
    && (clientOpen <==> CloseSends !in log)
    && (running <==> Teardown !in log)
  }

  lemma EntryKeepsFlags(log: seq<Entry>, clientOpen: bool, running: bool, entry: Entry)
    requires FlagsFit(log, clientOpen, running)
    requires entry.FromClient? ==> clientOpen && running
    requires entry.FromAgent? || entry.Teardown? ==> running
    requires entry.CloseSends? ==> clientOpen
    ensures FlagsFit(log + [entry], clientOpen && entry != CloseSends, running && entry != Teardown)
  {
    assert (log + [entry])[..|log|] == log;
  }

  ghost predicate RelayFlags(relay: State) {
    FlagsFit(relay.log, relay.clientOpen, relay.collecting)
  }

  lemma ActionFlags<M>(react: (M, Line) -> Reaction<M>, r: Room<M>, a: Action)
    requires May(r, a)
    ensures var t, entries := Do(react, r, a).relay, Logged(r, a);
      && |entries| <= 1 && t.log == r.relay.log + entries
      && (entries == [] ==> t.clientOpen == r.relay.clientOpen && t.collecting == r.relay.collecting)
      && (entries != [] ==>
            && t.clientOpen == (r.relay.clientOpen && entries[0] != CloseSends)
            && t.collecting == (r.relay.collecting && entries[0] != Teardown)
            && (entries[0].FromClient? ==> r.relay.clientOpen && r.relay.collecting)
            && (entries[0].FromAgent? || entries[0].Teardown? ==> r.relay.collecting)
            && (entries[0].CloseSends? ==> r.relay.clientOpen))
  {
  }

  lemma ActionKeepsFlags<M>(react: (M, Line) -> Reaction<M>, r: Room<M>, a: Action)
    requires RelayFlags(r.relay) && May(r, a)
    ensures RelayFlags(Do(react, r, a).relay)
  {
    ActionFlags(react, r, a);
    var entries := Logged(r, a);
    if entries == [] {
      assert r.relay.log + entries == r.relay.log;
    } else {
      assert entries == [entries[0]];
      EntryKeepsFlags(r.relay.log, r.relay.clientOpen, r.relay.collecting, entries[0]);
    }
  }

  lemma TurnKeepsFlags<M>(setup: Setup<M>, s: Session<M>, turn: Turn)
    requires RelayFlags(s.room.relay) && s.room.relay.source == setup.source && MayTurn(setup, s, turn)
    ensures RelayFlags(DoTurn(setup, s, turn).room.relay)
  {
    match turn
    case Yield =>
      YieldEffect(setup, s);
      ActionKeepsFlags(setup.react, s.room, YieldAction(Pending(setup, s)[0]));
    case Act(a) =>
      ActEffect(setup, s, a);
      ActionKeepsFlags(setup.react, s.room, a);
  }

  lemma {:induction false} RunKeepsFlags<M>(setup: Setup<M>, turns: seq<Turn>)
    requires Distinct(setup.names) && setup.start.Keys == NameSet(setup.names) && Goes(setup, turns)
    ensures SessionInv(setup, Reached(setup, turns)) && RelayFlags(Reached(setup, turns).room.relay)
  {
    SessionKeepsInv(setup, turns);
    if turns != [] {
      var before, last := turns[..|turns| - 1], turns[|turns| - 1];
      RunKeepsFlags(setup, before);
      TurnKeepsFlags(setup, Reached(setup, before), last);
      assert Reached(setup, turns) == DoTurn(setup, Reached(setup, before), last);
    }
  }

  // Every producible log is the log of a run.

  /** Everything that was read has been handed to the caller, and no reader has ended. */
  predicate HandedOn(relay: State) {
    relay.output == [] && relay.doneCount == 0 && relay.reading == NameSet(relay.names)
  }

  /** Every agent has read its stream as far as it goes. */
  ghost predicate Dry(relay: State) {
    forall n :: n in relay.queues && n in relay.delivered ==> relay.queues[n] == [] || Closed(relay.delivered[n])
  }

  lemma TurnSnoc<M>(setup: Setup<M>, turns: seq<Turn>, turn: Turn)
    requires Goes(setup, turns) && MayTurn(setup, Reached(setup, turns), turn)
    ensures Goes(setup, turns + [turn]) && Reached(setup, turns + [turn]) == DoTurn(setup, Reached(setup, turns), turn)
  {
    assert (turns + [turn])[..|turns|] == turns;
  }

  /** What the agents have taken is at most what was logged. */
  lemma TakenInLog(s: State)
    requires Inv(s)
    ensures Taken(s.names, s.delivered) <= |s.names| * |s.log|
  {
    forall n | n in s.names && n in s.delivered
      ensures |s.delivered[n]| <= |s.log|
    {
      ProjectionLength(s.log, n);
      assert s.delivered[n] + s.queues[n] == Projection(s.log, n);
    }
    TakenBound(s.names, s.delivered, |s.log|);
  }

  lemma TakeGoesOn(relay: State, n: string)
    requires Inv(relay) && HandedOn(relay) && n in relay.queues && n in relay.delivered
    requires relay.queues[n] != [] && !Closed(relay.delivered[n])
    ensures var t := Apply(relay, Take(n));
      HandedOn(t) && t.log == relay.log && t.names == relay.names && Taken(t.names, t.delivered) == Taken(relay.names, relay.delivered) + 1
  {
    TakenMore(relay.names, relay.delivered, n, relay.queues[n][0]);
  }

  lemma ReceivingTakes<M>(setup: Setup<M>, s: Session<M>, n: string)
    requires RoomMinds(setup.react, setup.start, s.room) && n in s.room.relay.queues && Enabled(s.room.relay, Take(n))
    ensures MayTurn(setup, s, Act(AgentReceives(n)))
    ensures DoTurn(setup, s, Act(AgentReceives(n))).room.relay == Apply(s.room.relay, Take(n))
  {
  }

  /** The agents can read on until all is read. */
  lemma {:induction false} ReadOn<M>(setup: Setup<M>, turns: seq<Turn>, left: int) returns (longer: seq<Turn>)
    requires Distinct(setup.names) && setup.start.Keys == NameSet(setup.names)
    requires Goes(setup, turns) && HandedOn(Reached(setup, turns).room.relay)
    requires var relay := Reached(setup, turns).room.relay; left == |relay.names| * |relay.log| - Taken(relay.names, relay.delivered)
    ensures Goes(setup, longer) && HandedOn(Reached(setup, longer).room.relay) && Dry(Reached(setup, longer).room.relay)
    ensures Reached(setup, longer).room.relay.log == Reached(setup, turns).room.relay.log
    decreases left
  {
    var s := Reached(setup, turns);
    var relay := s.room.relay;
    if Dry(relay) {
      longer := turns;
    } else {
      RunKeepsFlags(setup, turns);
      var n :| n in relay.queues && n in relay.delivered && relay.queues[n] != [] && !Closed(relay.delivered[n]);
      ReceivingTakes(setup, s, n);
      TurnSnoc(setup, turns, Act(AgentReceives(n)));
      TakeGoesOn(relay, n);
      TakenInLog(relay);
      longer := ReadOn(setup, turns + [Act(AgentReceives(n))], left - 1);
    }
  }

  /** An agent that has read as far as its stream goes has emitted all that the log calls for. */
  lemma DryHasEmittedAll<M>(react: (M, Line) -> Reaction<M>, boot: Executor<M>, taken: seq<Slot>, rest: seq<Slot>)
    requires rest == [] || Closed(taken)
    ensures Events(react, boot, taken) == Events(react, boot, taken + rest)
  {
    if rest == [] {
      assert taken + rest == taken;
    } else {
      var all := taken + rest;
      assert all[..|taken|] == taken;
      NothingAfterTheEnd(react, boot, all, |taken|);
    }
  }

  lemma FirstOfRest<T>(said: seq<T>, waiting: seq<T>, all: seq<T>)
    requires said + waiting == all && |said| < |all|
    ensures waiting != [] && waiting[0] == all[|said|]
  {
  }

  /** So what it has waiting begins with the entry that is justified next. */
  lemma NextIsWaiting<M>(react: (M, Line) -> Reaction<M>, start: map<string, M>, r: Room<M>, entry: Entry)
    requires RoomMinds(react, start, r) && Refines(r.relay.log, r.relay.queues, r.relay.delivered) && Dry(r.relay)
    requires entry.FromAgent? && Justified(react, start, r.relay.log, entry)
    ensures entry.name in r.responses && r.responses[entry.name] != []
    ensures entry == Forward(entry.name, r.responses[entry.name][0])
  {
    var n, relay := entry.name, r.relay;
    assert relay.delivered[n] + relay.queues[n] == Projection(relay.log, n);
    DryHasEmittedAll(react, Boot(n, start[n]), relay.delivered[n], relay.queues[n]);
    FirstOfRest(Said(relay.log, n), r.responses[n], Full(react, start, relay.log, n));
  }

  lemma ReadingReads<M>(setup: Setup<M>, s: Session<M>, n: string)
    requires s.room.relay.collecting && n in s.room.relay.reading && n in s.room.responses && s.room.responses[n] != []
    requires HandedOn(s.room.relay)
    ensures MayTurn(setup, s, Act(ReaderReads(n)))
    ensures var t, emission := DoTurn(setup, s, Act(ReaderReads(n))).room.relay, Emission(n, s.room.responses[n][0]);
      && t.log == s.room.relay.log + [Forward(n, emission.response)] && t.output == [Some(emission)]
      && t.collecting && t.names == s.room.relay.names && t.doneCount == 0 && t.reading == s.room.relay.reading
  {
  }

  lemma TakingTakes<M>(setup: Setup<M>, s: Session<M>, emission: Emission)
    requires s.room.relay.collecting && s.room.relay.doneCount < |s.room.relay.names| && s.room.relay.output == [Some(emission)]
    ensures MayTurn(setup, s, Act(CallerTakes))
    ensures var t, relay := DoTurn(setup, s, Act(CallerTakes)).room.relay, s.room.relay;
      t.log == relay.log && t.output == [] && t.doneCount == relay.doneCount && t.names == relay.names && t.reading == relay.reading
  {
  }

  /** The agent's next response is read and handed to the caller. */
  lemma LogAnswer<M>(setup: Setup<M>, turns: seq<Turn>, entry: Entry) returns (longer: seq<Turn>)
    requires Distinct(setup.names) && setup.start.Keys == NameSet(setup.names)
    requires Goes(setup, turns) && HandedOn(Reached(setup, turns).room.relay) && Dry(Reached(setup, turns).room.relay)
    requires entry.FromAgent? && Justified(setup.react, setup.start, Reached(setup, turns).room.relay.log, entry)
    requires InTime(Reached(setup, turns).room.relay.log, entry)
    ensures Goes(setup, longer) && HandedOn(Reached(setup, longer).room.relay)
    ensures Reached(setup, longer).room.relay.log == Reached(setup, turns).room.relay.log + [entry]
  {
    var s, n := Reached(setup, turns), entry.name;
    RunKeepsFlags(setup, turns);
    NextIsWaiting(setup.react, setup.start, s.room, entry);
    assert n in s.room.relay.names;
    ReadingReads(setup, s, n);
    TurnSnoc(setup, turns, Act(ReaderReads(n)));
    longer := turns + [Act(ReaderReads(n))];
    TakingTakes(setup, DoTurn(setup, s, Act(ReaderReads(n))), Emission(n, entry.response));
    TurnSnoc(setup, longer, Act(CallerTakes));
    longer := longer + [Act(CallerTakes)];
  }

  /** The client, having been handed everything, yields what the script of the log says. */
  lemma PendingIsScripted<M>(setup: Setup<M>, s: Session<M>, entry: Entry)
    requires ClientFollows(setup, s) && Conserves(s.room.relay.log, s.room.relay.output, s.room.relay.yielded)
    requires s.room.relay.output == [] && s.room.relay.collecting
    requires (entry.FromClient? || entry.CloseSends?) && ScriptedEntry(setup, s.room.relay.log, entry)
    ensures Pending(setup, s) != [] && entry == YieldEntry(setup, Pending(setup, s)[0])
  {
    var relay := s.room.relay;
    assert relay.yielded + [] == relay.yielded;
  }

  lemma YieldHandsOn<M>(setup: Setup<M>, s: Session<M>)
    requires MayTurn(setup, s, Yield) && HandedOn(s.room.relay)
    ensures HandedOn(DoTurn(setup, s, Yield).room.relay)
  {
  }

  lemma LogClient<M>(setup: Setup<M>, turns: seq<Turn>, entry: Entry) returns (longer: seq<Turn>)
    requires Distinct(setup.names) && setup.start.Keys == NameSet(setup.names)
    requires Goes(setup, turns) && HandedOn(Reached(setup, turns).room.relay) && Teardown !in Reached(setup, turns).room.relay.log
    requires (entry.FromClient? || entry.CloseSends?) && ScriptedEntry(setup, Reached(setup, turns).room.relay.log, entry)
    requires InTime(Reached(setup, turns).room.relay.log, entry)
    ensures Goes(setup, longer) && HandedOn(Reached(setup, longer).room.relay)
    ensures Reached(setup, longer).room.relay.log == Reached(setup, turns).room.relay.log + [entry]
  {
    var s := Reached(setup, turns);
    RunKeepsFlags(setup, turns);
    PendingIsScripted(setup, s, entry);
    TurnSnoc(setup, turns, Yield);
    YieldEffect(setup, s);
    YieldHandsOn(setup, s);
    longer := turns + [Yield];
  }

  lemma EndEffect<M>(setup: Setup<M>, s: Session<M>, a: Action)
    requires HandedOn(s.room.relay)
    requires (a == CallerLeaves && s.room.relay.collecting) || (a == ClientCloses && !s.room.relay.collecting && s.room.relay.clientOpen)
    ensures MayTurn(setup, s, Act(a)) && HandedOn(DoTurn(setup, s, Act(a)).room.relay)
    ensures DoTurn(setup, s, Act(a)).room.relay.log == s.room.relay.log + [if a == CallerLeaves then Teardown else CloseSends]
  {
  }

  /** The caller leaves, or the generator is cancelled after it left. */
  lemma LogEnd<M>(setup: Setup<M>, turns: seq<Turn>, entry: Entry) returns (longer: seq<Turn>)
    requires Distinct(setup.names) && setup.start.Keys == NameSet(setup.names)
    requires Goes(setup, turns) && HandedOn(Reached(setup, turns).room.relay)
    requires entry == Teardown || (entry == CloseSends && Teardown in Reached(setup, turns).room.relay.log)
    requires InTime(Reached(setup, turns).room.relay.log, entry)
    ensures Goes(setup, longer) && HandedOn(Reached(setup, longer).room.relay)
    ensures Reached(setup, longer).room.relay.log == Reached(setup, turns).room.relay.log + [entry]
  {
    RunKeepsFlags(setup, turns);
    var a := if entry == Teardown then CallerLeaves else ClientCloses;
    EndEffect(setup, Reached(setup, turns), a);
    TurnSnoc(setup, turns, Act(a));
    longer := turns + [Act(a)];
  }

  /** A run with this log, after which everything has been handed on and read. */
  ghost predicate RunsDry<M>(setup: Setup<M>, turns: seq<Turn>, log: seq<Entry>) {
    && Goes(setup, turns) && Reached(setup, turns).room.relay.log == log
    && HandedOn(Reached(setup, turns).room.relay) && Dry(Reached(setup, turns).room.relay)
  }

  ghost predicate MayBeLogged<M>(setup: Setup<M>, log: seq<Entry>, entry: Entry) {
    Justified(setup.react, setup.start, log, entry) && ScriptedEntry(setup, log, entry) && InTime(log, entry)
  }

  lemma ProducibleStep<M>(setup: Setup<M>, log: seq<Entry>)
    requires Producible(setup, log) && log != []
    ensures Producible(setup, log[..|log| - 1]) && MayBeLogged(setup, log[..|log| - 1], log[|log| - 1])
  {
  }

  lemma LogNext<M>(setup: Setup<M>, turns: seq<Turn>, log: seq<Entry>, entry: Entry) returns (longer: seq<Turn>)
    requires Distinct(setup.names) && setup.start.Keys == NameSet(setup.names)
    requires RunsDry(setup, turns, log) && MayBeLogged(setup, log, entry)
    ensures RunsDry(setup, longer, log + [entry])
  {
    if entry.FromAgent? {
      longer := LogAnswer(setup, turns, entry);
    } else if entry.FromClient? || (entry.CloseSends? && Teardown !in log) {
      longer := LogClient(setup, turns, entry);
    } else {
      longer := LogEnd(setup, turns, entry);
    }
    var relay := Reached(setup, longer).room.relay;
    longer := ReadOn(setup, longer, |relay.names| * |relay.log| - Taken(relay.names, relay.delivered));
  }

  lemma NothingIsDry<M>(setup: Setup<M>)
    ensures RunsDry(setup, [], [])
  {
    assert Reached(setup, []) == Begin(setup);
  }

  lemma {:induction false} ProducibleIsProduced<M>(setup: Setup<M>, log: seq<Entry>) returns (turns: seq<Turn>)
    requires Distinct(setup.names) && setup.start.Keys == NameSet(setup.names) && Producible(setup, log)
    ensures RunsDry(setup, turns, log)
  {
    if log == [] {
      NothingIsDry(setup);
      turns := [];
    } else {
      var init, last := log[..|log| - 1], log[|log| - 1];
      assert log == init + [last];
      ProducibleStep(setup, log);
      var before := ProducibleIsProduced(setup, init);
      turns := LogNext(setup, before, init, last);
    }
  }

  /** The logs of a session's runs, under all interleavings and with all failures, are exactly the
      producible ones. */
  lemma StreamLogsAre<M>(setup: Setup<M>, log: seq<Entry>)
    requires Distinct(setup.names) && setup.start.Keys == NameSet(setup.names)
    ensures StreamsProduce(setup, log) <==> Producible(setup, log)
  {
    if StreamsProduce(setup, log) {
      var turns :| Goes(setup, turns) && Reached(setup, turns).room.relay.log == log;
      RunKeepsFlags(setup, turns);
    }
    if Producible(setup, log) {
      var turns := ProducibleIsProduced(setup, log);
    }
  }
}
