/** The relay over one group channel: a single merged queue that every agent receives in full, its
    own items included, and that each agent is left to filter by message-sender. */
module Multicast {
  import opened Sequences
  import opened Options
  import opened Wire
  import opened Relay
  import opened RelayProperties

  /** `pending` is the response that was handed to the caller and is not relayed yet. `sent`,
      `yielded` and `log` record history. */
  datatype Group = Group(
    source: string,
    queue: seq<Slot>,
    clientOpen: bool,
    relaying: bool,
    pending: Option<Emission>,
    log: seq<Entry>,
    sent: seq<Slot>,
    yielded: seq<Emission>)

  datatype Move =
    | Put(request: Request)
    | CloseGroup
    | Arrive(name: string, response: Response)
    | RelayPending
    | Send
    | Stop

  function Open(source: string): Group {
    Group(source, [], true, true, None, [], [], [])
  }

  function MergedContribution(entry: Entry): seq<Slot> {
    match entry
    case FromClient(request) => [Item(request)]
    case FromAgent(_, _, forwarded) => if forwarded.Some? then [Item(forwarded.value)] else []
    case CloseSends => [Sentinel]
    case Teardown => [Sentinel]
  }

  function Merged(log: seq<Entry>): seq<Slot> {
    if log == [] then []
    else Merged(log[..|log| - 1]) + MergedContribution(log[|log| - 1])
  }

  function Record(g: Group, entry: Entry): Group {
    g.(queue := g.queue + MergedContribution(entry), log := g.log + [entry])
  }

  predicate CanMove(g: Group, move: Move) {
    match move
    case Put(_) => g.relaying && g.clientOpen
    case CloseGroup => g.clientOpen
    case Arrive(_, _) => g.relaying && g.pending == None
    case RelayPending => g.relaying && g.pending.Some?
    case Send => g.queue != [] && !Closed(g.sent)
    case Stop => g.relaying
  }

  function MoveTo(g: Group, move: Move): Group
    requires CanMove(g, move)
  {
    match move
    case Put(request) => Record(g, FromClient(Stamp(g.source, request)))
    case CloseGroup => Record(g, CloseSends).(clientOpen := false)
    case Arrive(name, response) =>
      g.(pending := Some(Emission(name, response)), yielded := g.yielded + [Emission(name, response)])
    case RelayPending => Record(g, Forward(g.pending.value.name, g.pending.value.response)).(pending := None)
    case Send => g.(queue := g.queue[1..], sent := g.sent + [g.queue[0]])
    case Stop => Record(g, Teardown).(relaying := false)
  }

  ghost predicate GroupInv(g: Group) {
    && g.sent + g.queue == Merged(g.log)
    && StopsAtSentinel(g.sent)
    && AllAttributed(g.source, g.log)
    && g.yielded == Emissions(g.log) + if g.pending.Some? then [g.pending.value] else []
  }

  lemma MergedSnoc(log: seq<Entry>, entry: Entry)
    ensures Merged(log + [entry]) == Merged(log) + MergedContribution(entry)
  {
    assert (log + [entry])[..|log|] == log;
  }

  /** Recording an attributed entry: the response that was pending, or one that is not a response. */
  lemma RecordKeepsInv(g: Group, entry: Entry, pending: Option<Emission>)
    requires GroupInv(g) && Attributed(g.source, entry)
    requires if entry.FromAgent? then g.pending == Some(Emission(entry.name, entry.response)) && pending == None
             else pending == g.pending
    ensures GroupInv(Record(g, entry).(pending := pending))
    ensures GroupInv(Record(g, entry).(pending := pending, clientOpen := false))
    ensures GroupInv(Record(g, entry).(pending := pending, relaying := false))
  {
    MergedSnoc(g.log, entry);
    Rebracket(g.sent, g.queue, MergedContribution(entry));
    EmissionsSnoc(g.log, entry);
    AttributedSnoc(g.source, g.log, entry);
    assert Emissions(g.log) + [] == Emissions(g.log);
  }

  /** What was sent to the group and what is still queued are one projection of the log, and the
      caller has seen every relayed response, in the same order, plus at most one that is pending. */
  lemma MoveKeepsInv(g: Group, move: Move)
    requires GroupInv(g) && CanMove(g, move)
    ensures GroupInv(MoveTo(g, move))
  {
    match move
    case Put(request) =>
      StampIsAttributed(g.source, request);
      RecordKeepsInv(g, FromClient(Stamp(g.source, request)), g.pending);
    case CloseGroup => RecordKeepsInv(g, CloseSends, g.pending);
    case Arrive(name, response) =>
    case RelayPending =>
      ForwardIsAttributed(g.source, g.pending.value.name, g.pending.value.response);
      RecordKeepsInv(g, Forward(g.pending.value.name, g.pending.value.response), None);
    case Send =>
      assert (g.sent + [g.queue[0]]) + g.queue[1..] == g.sent + g.queue;
      TakeStops(g.sent, g.queue[0]);
    case Stop => RecordKeepsInv(g, Teardown, g.pending);
  }

  ghost predicate CanMoves(g: Group, moves: seq<Move>)
    decreases |moves|, 0
  {
    moves == [] ||
    (var before := moves[..|moves| - 1];
     CanMoves(g, before) && CanMove(AfterMoves(g, before), moves[|moves| - 1]))
  }

  ghost function AfterMoves(g: Group, moves: seq<Move>): Group
    requires CanMoves(g, moves)
    decreases |moves|, 1
  {
    if moves == [] then g else MoveTo(AfterMoves(g, moves[..|moves| - 1]), moves[|moves| - 1])
  }

  lemma {:induction false} MovesKeepInv(g: Group, moves: seq<Move>)
    requires GroupInv(g) && CanMoves(g, moves)
    ensures GroupInv(AfterMoves(g, moves))
  {
    if moves != [] {
      var before := moves[..|moves| - 1];
      MovesKeepInv(g, before);
      var h := AfterMoves(g, before);
      MoveKeepsInv(h, moves[|moves| - 1]);
      assert AfterMoves(g, moves) == MoveTo(h, moves[|moves| - 1]);
    }
  }

  // Said of the moves themselves.

  lemma {:induction false} MergedIsPicked(log: seq<Entry>)
    ensures Merged(log) == Picked(IsSentOn, SlotOf, log)
  {
    if log != [] {
      MergedIsPicked(log[..|log| - 1]);
    }
  }

  predicate IsArrival(move: Move) {
    move.Arrive?
  }

  function Arrived(move: Move): Emission {
    if move.Arrive? then Emission(move.name, move.response) else Emission("", ArtifactResponse(Artifact("", "", map[], "")))
  }

  predicate IsResponse(entry: Entry) {
    entry.FromAgent?
  }

  function EmissionOf(entry: Entry): Emission {
    if entry.FromAgent? then Emission(entry.name, entry.response) else Emission("", ArtifactResponse(Artifact("", "", map[], "")))
  }

  predicate IsNoResponse(entry: Entry) {
    !entry.FromAgent?
  }

  function TheEntry(entry: Entry): Entry {
    entry
  }

  /** The moves of the client and of the relay's end. */
  predicate IsOwnMove(move: Move) {
    move.Put? || move.CloseGroup? || move.Stop?
  }

  function EntryOfMove(source: string): Move -> Entry {
    (move: Move) => if move.Put? then FromClient(Stamp(source, move.request)) else if move.CloseGroup? then CloseSends else Teardown
  }

  lemma {:induction false} EmissionsArePicked(log: seq<Entry>)
    ensures Emissions(log) == Picked(IsResponse, EmissionOf, log)
  {
    if log != [] {
      EmissionsArePicked(log[..|log| - 1]);
    }
  }

  lemma MoveIsRecorded(g: Group, move: Move)
    requires CanMove(g, move)
    ensures var h := MoveTo(g, move);
      && h.source == g.source
      && h.yielded == g.yielded + (if IsArrival(move) then [Arrived(move)] else [])
      && Picked(IsNoResponse, TheEntry, h.log) ==
           Picked(IsNoResponse, TheEntry, g.log) + if IsOwnMove(move) then [EntryOfMove(g.source)(move)] else []
  {
    match move
    case Put(request) => PickedSnoc(IsNoResponse, TheEntry, g.log, FromClient(Stamp(g.source, request)));
    case CloseGroup => PickedSnoc(IsNoResponse, TheEntry, g.log, CloseSends);
    case RelayPending => PickedSnoc(IsNoResponse, TheEntry, g.log, Forward(g.pending.value.name, g.pending.value.response));
    case Stop => PickedSnoc(IsNoResponse, TheEntry, g.log, Teardown);
    case _ =>
  }

  lemma {:induction false} MovesAreRecorded(g: Group, moves: seq<Move>)
    requires CanMoves(g, moves) && g.log == [] && g.yielded == []
    ensures var h := AfterMoves(g, moves);
      && h.source == g.source
      && h.yielded == Picked(IsArrival, Arrived, moves)
      && Picked(IsNoResponse, TheEntry, h.log) == Picked(IsOwnMove, EntryOfMove(g.source), moves)
  {
    if moves != [] {
      var before, last := moves[..|moves| - 1], moves[|moves| - 1];
      MovesAreRecorded(g, before);
      MoveIsRecorded(AfterMoves(g, before), last);
      assert AfterMoves(g, moves) == MoveTo(AfterMoves(g, before), last);
    }
  }

  lemma LoggedWereHandedOver(g: Group)
    requires GroupInv(g)
    ensures ListsSome(g.log, IsResponse, EmissionOf, if g.pending.Some? && g.yielded != [] then g.yielded[..|g.yielded| - 1] else g.yielded)
    ensures forall p :: 0 <= p < |g.log| && g.log[p].FromAgent? ==> g.log[p].forwarded == Translate(g.log[p].response, g.log[p].name)
  {
    EmissionsArePicked(g.log);
    PickedIsListed(IsResponse, EmissionOf, g.log);
    if g.pending.Some? {
      assert g.yielded[..|g.yielded| - 1] == Emissions(g.log);
    } else {
      assert g.yielded == Emissions(g.log);
    }
    forall p | 0 <= p < |g.log|
      ensures Attributed(g.source, g.log[p])
    {
    }
  }

  lemma StreamIsOfLog(g: Group)
    requires GroupInv(g)
    ensures ListsSome(g.log, IsSentOn, SlotOf, g.sent + g.queue)
  {
    MergedIsPicked(g.log);
    PickedIsListed(IsSentOn, SlotOf, g.log);
  }

  lemma OwnMovesAreLogged(source: string, moves: seq<Move>)
    requires CanMoves(Open(source), moves)
    ensures ListsSome(moves, IsArrival, Arrived, AfterMoves(Open(source), moves).yielded)
    ensures exists own :: ListsSome(moves, IsOwnMove, EntryOfMove(source), own)
                       && ListsSome(AfterMoves(Open(source), moves).log, IsNoResponse, TheEntry, own)
  {
    MovesAreRecorded(Open(source), moves);
    PickedIsListed(IsArrival, Arrived, moves);
    PickedIsListed(IsOwnMove, EntryOfMove(source), moves);
    PickedIsListed(IsNoResponse, TheEntry, AfterMoves(Open(source), moves).log);
  }

  /** In every run over the group channel: the caller has been handed every response that has arrived, in
      order; the log holds these responses, but for one that is not relayed yet, each with its translation,
      and the client's requests and both closes as they were put; and the group has been sent, or has
      queued, one item for each log entry but plain messages, in the order of the log. */
  lemma StreamIsOfMoves(source: string, moves: seq<Move>)
    requires CanMoves(Open(source), moves)
    ensures var g := AfterMoves(Open(source), moves);
      && ListsSome(moves, IsArrival, Arrived, g.yielded)
      && ListsSome(g.log, IsResponse, EmissionOf, if g.pending.Some? && g.yielded != [] then g.yielded[..|g.yielded| - 1] else g.yielded)
      && (forall p :: 0 <= p < |g.log| && g.log[p].FromAgent? ==> g.log[p].forwarded == Translate(g.log[p].response, g.log[p].name))
      && (exists own :: ListsSome(moves, IsOwnMove, EntryOfMove(source), own) && ListsSome(g.log, IsNoResponse, TheEntry, own))
      && ListsSome(g.log, IsSentOn, SlotOf, g.sent + g.queue)
  {
    var g := AfterMoves(Open(source), moves);
    MovesKeepInv(Open(source), moves);
    OwnMovesAreLogged(source, moves);
    LoggedWereHandedOver(g);
    StreamIsOfLog(g);
  }

  // Equivalence with the N-streams relay.

  predicate Keeps(slot: Slot, name: string) {
    slot.Item? ==> SenderOf(slot.request) != Some(name)
  }

  /** What an agent is left with after it drops the messages that carry its own name. */
  function WithoutSender(slots: seq<Slot>, name: string): seq<Slot> {
    if slots == [] then []
    else
      WithoutSender(slots[..|slots| - 1], name)
      + if Keeps(slots[|slots| - 1], name) then [slots[|slots| - 1]] else []
  }

  /** A client item does not claim an agent's name, and a forwarded item names the agent it is from. */
  predicate Attributable(names: seq<string>, entry: Entry) {
    match entry
    case FromClient(request) => SenderOf(request).Some? ==> SenderOf(request).value !in names
    case FromAgent(name, _, forwarded) => forwarded.Some? ==> SenderOf(forwarded.value) == Some(name)
    case _ => true
  }

  /** Which steps keep the log attributable: a client request under a source name that no agent bears,
      task, status and plain message responses always, a message update only when it came from the
      agent itself, an artifact never. */
  lemma WhatIsAttributable(names: seq<string>, source: string, request: Request, name: string, response: Response)
    ensures Attributable(names, FromClient(Stamp(source, request))) <==>
              (request.MessageRequest? ==> (if source != "" then source else GetMessageSender(request.message)) !in names)
    ensures Attributable(names, Forward(name, response)) <==>
              match response
              case TaskResponse(_) => true
              case StatusResponse(_) => true
              case MessageResponse(_) => true
              case MessageUpdateResponse(update) => GetMessageSender(update.message) == name
              case ArtifactResponse(_) => false
  {
    if request.MessageRequest? {
      SenderIsStamped(request.message, source);
    }
    if Translate(response, name).Some? && Translate(response, name).value.MessageRequest? {
      TranslationPreservesContent(response, name);
    }
  }

  lemma WithoutSenderSnoc(slots: seq<Slot>, more: seq<Slot>, name: string)
    requires |more| <= 1
    ensures WithoutSender(slots + more, name) ==
              WithoutSender(slots, name) + if more != [] && Keeps(more[0], name) then more else []
  {
    if more != [] {
      assert (slots + more)[..|slots|] == slots;
    } else {
      assert slots + more == slots;
    }
  }

  lemma {:induction false} FilteredMergedIsProjection(names: seq<string>, log: seq<Entry>, name: string)
    requires name in names
    requires forall p :: 0 <= p < |log| ==> Attributable(names, log[p])
    ensures WithoutSender(Merged(log), name) == Projection(log, name)
  {
    if log != [] {
      var init := log[..|log| - 1];
      assert Attributable(names, log[|log| - 1]);
      FilteredMergedIsProjection(names, init, name);
      WithoutSenderSnoc(Merged(init), MergedContribution(log[|log| - 1]), name);
    }
  }

  lemma {:induction false} FilterDropsOwn(slots: seq<Slot>, name: string)
    ensures forall slot :: slot in WithoutSender(slots, name) ==> Keeps(slot, name)
  {
    if slots != [] {
      FilterDropsOwn(slots[..|slots| - 1], name);
    }
  }

  function Count(slots: seq<Slot>, slot: Slot): nat {
    multiset(slots)[slot]
  }

  lemma {:induction false} FilterKeepsCount(slots: seq<Slot>, name: string, slot: Slot)
    requires Keeps(slot, name)
    ensures Count(WithoutSender(slots, name), slot) == Count(slots, slot)
  {
    if slots != [] {
      var init := slots[..|slots| - 1];
      FilterKeepsCount(init, name, slot);
      assert slots == init + [slots[|slots| - 1]];
    }
  }

  lemma CountSnoc(log: seq<Entry>, name: string, slot: Slot)
    requires log != []
    ensures var init, last := log[..|log| - 1], log[|log| - 1];
      && Count(Projection(log, name), slot) == Count(Projection(init, name), slot) + Count(Contribution(last, name), slot)
      && Count(Merged(log), slot) == Count(Merged(init), slot) + Count(MergedContribution(last), slot)
      && Count(Contribution(last, name), slot) <= Count(MergedContribution(last), slot)
  {
    var last := log[|log| - 1];
    assert Contribution(last, name) == [] || Contribution(last, name) == MergedContribution(last);
  }

  lemma {:induction false} ProjectionCounts(log: seq<Entry>, name: string, slot: Slot)
    ensures Count(Projection(log, name), slot) <= Count(Merged(log), slot)
  {
    if log != [] {
      ProjectionCounts(log[..|log| - 1], name, slot);
      CountSnoc(log, name, slot);
    }
  }

  /** An agent's own entry is in the merged stream and not in the agent's projection. */
  lemma {:induction false} OwnEntryCounts(log: seq<Entry>, name: string, p: nat, slot: Slot)
    requires p < |log| && log[p].FromAgent? && log[p].name == name && MergedContribution(log[p]) == [slot]
    ensures Count(Projection(log, name), slot) < Count(Merged(log), slot)
  {
    var init := log[..|log| - 1];
    CountSnoc(log, name, slot);
    if p == |init| {
      ProjectionCounts(init, name, slot);
    } else {
      OwnEntryCounts(init, name, p, slot);
    }
  }

  lemma UnattributableEntryShows(names: seq<string>, log: seq<Entry>, p: nat)
    requires p < |log| && !Attributable(names, log[p])
    requires log[p].FromAgent? ==> log[p].name in names
    ensures exists name :: name in names && WithoutSender(Merged(log), name) != Projection(log, name)
  {
    var slot := MergedContribution(log[p])[0];
    var sender := SenderOf(slot.request);
    if sender.Some? && sender.value in names {
      var name := sender.value;
      assert Contribution(log[p], name) == [slot];
      ContributionHasSlot(log, name, p);
      var k :| 0 <= k < |Positions(log, name)| && Positions(log, name)[k] == p;
      ProjectionIsExact(log, name);
      assert slot in Projection(log, name);
      FilterDropsOwn(Merged(log), name);
    } else {
      var name := log[p].name;
      assert Keeps(slot, name);
      FilterKeepsCount(Merged(log), name, slot);
      assert MergedContribution(log[p]) == [slot];
      OwnEntryCounts(log, name, p, slot);
    }
  }

  /** For any log of the two transports, dropping own messages from the merged stream gives every
      agent the stream of its N-streams queue if and only if every entry is attributable. */
  lemma TransportsAgreeIffAttributable(names: seq<string>, log: seq<Entry>)
    requires forall p :: 0 <= p < |log| && log[p].FromAgent? ==> log[p].name in names
    ensures (forall name :: name in names ==> WithoutSender(Merged(log), name) == Projection(log, name))
            <==> (forall p :: 0 <= p < |log| ==> Attributable(names, log[p]))
  {
    if forall p :: 0 <= p < |log| ==> Attributable(names, log[p]) {
      forall name | name in names
        ensures WithoutSender(Merged(log), name) == Projection(log, name)
      {
        FilteredMergedIsProjection(names, log, name);
      }
    } else {
      var p :| 0 <= p < |log| && !Attributable(names, log[p]);
      UnattributableEntryShows(names, log, p);
    }
  }

  lemma StatesAgree(s: State, g: Group, name: string)
    requires Inv(s) && GroupInv(g) && s.log == g.log && name in s.names
    requires forall p :: 0 <= p < |s.log| ==> Attributable(s.names, s.log[p])
    ensures name in s.delivered && name in s.queues
    ensures WithoutSender(g.sent + g.queue, name) == s.delivered[name] + s.queues[name]
  {
    FilteredMergedIsProjection(s.names, s.log, name);
  }

  /** Any run of the N-streams relay and any run of the group relay that merge the same attributable
      items in the same order have the same stream for every agent. */
  lemma TransportsDeliverTheSame(names: seq<string>, source: string, steps: seq<Step>, moves: seq<Move>, name: string)
    requires Distinct(names) && name in names
    requires CanRun(Start(names, source), steps) && CanMoves(Open(source), moves)
    requires After(Start(names, source), steps).log == AfterMoves(Open(source), moves).log
    requires forall p :: 0 <= p < |After(Start(names, source), steps).log| ==> Attributable(names, After(Start(names, source), steps).log[p])
    ensures var s, g := After(Start(names, source), steps), AfterMoves(Open(source), moves);
      && name in s.delivered && name in s.queues
      && WithoutSender(g.sent + g.queue, name) == s.delivered[name] + s.queues[name]
  {
    StartInv(names, source);
    RunKeepsInv(Start(names, source), steps);
    MovesKeepInv(Open(source), moves);
    StatesAgree(After(Start(names, source), steps), AfterMoves(Open(source), moves), name);
  }

  lemma {:induction false} FiltersCommute(slots: seq<Slot>, one: string, two: string)
    ensures WithoutSender(WithoutSender(slots, one), two) == WithoutSender(WithoutSender(slots, two), one)
  {
    if slots != [] {
      var init, last := slots[..|slots| - 1], slots[|slots| - 1];
      FiltersCommute(init, one, two);
      WithoutSenderSnoc(WithoutSender(init, one), if Keeps(last, one) then [last] else [], two);
      WithoutSenderSnoc(WithoutSender(init, two), if Keeps(last, two) then [last] else [], one);
    }
  }

  /** On the group channel two agents that drop their own messages, and each other's, are left with the
      same stream; of an attributable log it is what third parties send to either on the N-streams relay. */
  lemma ThirdPartiesBySender(names: seq<string>, log: seq<Entry>, one: string, two: string)
    requires one in names && two in names
    ensures WithoutSender(WithoutSender(Merged(log), one), two) == WithoutSender(WithoutSender(Merged(log), two), one)
    ensures (forall p :: 0 <= p < |log| ==> Attributable(names, log[p])) ==>
              && WithoutSender(Projection(log, one), two) == WithoutSender(WithoutSender(Merged(log), one), two)
              && WithoutSender(Projection(log, two), one) == WithoutSender(WithoutSender(Merged(log), one), two)
  {
    FiltersCommute(Merged(log), one, two);
    if forall p :: 0 <= p < |log| ==> Attributable(names, log[p]) {
      FilteredMergedIsProjection(names, log, one);
      FilteredMergedIsProjection(names, log, two);
    }
  }

  // What comes back to its author.

  lemma MoveSnoc(g: Group, moves: seq<Move>, move: Move)
    requires CanMoves(g, moves) && CanMove(AfterMoves(g, moves), move)
    ensures CanMoves(g, moves + [move]) && AfterMoves(g, moves + [move]) == MoveTo(AfterMoves(g, moves), move)
  {
    assert (moves + [move])[..|moves|] == moves;
  }

  /** An agent's response arrives, is relayed, and is sent to the group. */
  function RoundTrip(name: string, response: Response): seq<Move> {
    [Arrive(name, response)] + [RelayPending] + [Send]
  }

  lemma RoundTripRuns(source: string, name: string, response: Response)
    requires Translate(response, name).Some?
    ensures CanMoves(Open(source), RoundTrip(name, response))
    ensures var g := AfterMoves(Open(source), RoundTrip(name, response));
      g.sent == [Item(Translate(response, name).value)] && g.log == [Forward(name, response)]
  {
    var g := Open(source);
    MoveSnoc(g, [], Arrive(name, response));
    assert [] + [Arrive(name, response)] == [Arrive(name, response)];
    MoveSnoc(g, [Arrive(name, response)], RelayPending);
    MoveSnoc(g, [Arrive(name, response)] + [RelayPending], Send);
  }

  /** The agent's projection of that run's log is empty, and it keeps what the group was sent unless that
      carries its name. */
  lemma ComesBack(source: string, name: string, response: Response)
    requires Translate(response, name).Some? && Keeps(Item(Translate(response, name).value), name)
    ensures CanMoves(Open(source), RoundTrip(name, response))
    ensures var g := AfterMoves(Open(source), RoundTrip(name, response));
      WithoutSender(g.sent, name) == [Item(Translate(response, name).value)] && Projection(g.log, name) == []
  {
    RoundTripRuns(source, name, response);
    var slots, log := [Item(Translate(response, name).value)], [Forward(name, response)];
    assert slots[..0] == [] && log[..0] == [];
  }

  /** An artifact is not stamped: here is a run over the group channel that sends it back to its author. */
  lemma ArtifactEchoes(source: string, name: string, artifact: Artifact)
    ensures CanMoves(Open(source), RoundTrip(name, ArtifactResponse(artifact)))
    ensures var g := AfterMoves(Open(source), RoundTrip(name, ArtifactResponse(artifact)));
      WithoutSender(g.sent, name) == [Item(ArtifactRequest(artifact))] && Projection(g.log, name) == []
  {
    ComesBack(source, name, ArtifactResponse(artifact));
  }

  /** So it is with a message update that does not name the agent it came from. */
  lemma ForeignUpdateEchoes(source: string, name: string, update: MessageUpdate)
    requires GetMessageSender(update.message) != name
    ensures CanMoves(Open(source), RoundTrip(name, MessageUpdateResponse(update)))
    ensures var g := AfterMoves(Open(source), RoundTrip(name, MessageUpdateResponse(update)));
      && Projection(g.log, name) == []
      && |WithoutSender(g.sent, name)| == 1 && WithoutSender(g.sent, name)[0].Item?
      && WithoutSender(g.sent, name)[0].request.MessageRequest?
      && GetMessageText(WithoutSender(g.sent, name)[0].request.message) == GetMessageText(update.message)
  {
    TranslationPreservesContent(MessageUpdateResponse(update), name);
    ComesBack(source, name, MessageUpdateResponse(update));
  }
}
