/** A room together with a reactive client: it opens with a trigger, answers what it is handed by
    putting requests into its send queue, and closes by putting nothing. */
module Sessions {
  import opened Options
  import opened Wire
  import opened Relay
  import opened Execution
  import opened Rooms
  import opened Progress

  /** What the client does with one response: its new flag and what it puts into its send queue, where
      nothing is the close signal. */
  datatype Reply = Reply(approved: bool, puts: seq<Option<Request>>)

  datatype Setup<!M> = Setup(
    names: seq<string>,
    source: string,
    react: (M, Line) -> Reaction<M>,
    start: map<string, M>,
    trigger: Request,
    client: (bool, Emission) -> Reply)

  datatype Session<M> = Session(room: Room<M>, triggered: bool, approved: bool, queue: seq<Option<Request>>)

  /** `Yield` is the client's request generator; the rest is the room's, where the client's own actions
      do not occur, except that its generator is cancelled after the caller has left. */
  datatype Turn = Yield | Act(action: Action)

  function Begin<M>(setup: Setup<M>): Session<M> {
    Session(Enter(setup.names, setup.source, setup.start), false, false, [])
  }

  /** What the generator will yield next: first the trigger, then the send queue. */
  function Pending<M>(setup: Setup<M>, s: Session<M>): seq<Option<Request>> {
    if s.triggered then s.queue else [Some(setup.trigger)] + s.queue
  }

  ghost predicate MayTurn<M>(setup: Setup<M>, s: Session<M>, turn: Turn) {
    match turn
    case Yield => s.room.relay.collecting && s.room.relay.clientOpen && Pending(setup, s) != []
    case Act(a) => May(s.room, a) && !a.ClientSends? && (a.ClientCloses? ==> !s.room.relay.collecting)
  }

  function YieldAction(item: Option<Request>): Action {
    match item case Some(request) => ClientSends(request) case None => ClientCloses
  }

  function DoTurn<M>(setup: Setup<M>, s: Session<M>, turn: Turn): Session<M>
    requires MayTurn(setup, s, turn)
  {
    match turn
    case Yield =>
      Session(Do(setup.react, s.room, YieldAction(Pending(setup, s)[0])), true, s.approved,
              if s.triggered then s.queue[1..] else s.queue)
    case Act(a) =>
      var room := Do(setup.react, s.room, a);
      if a.CallerTakes? && s.room.relay.output[0].Some? then
        var reply := setup.client(s.approved, s.room.relay.output[0].value);
        Session(room, s.triggered, reply.approved, s.queue + reply.puts)
      else s.(room := room)
  }

  /** The client's flag and everything it has put, after a sequence of responses. */
  function Replies(client: (bool, Emission) -> Reply, emissions: seq<Emission>): Reply {
    if emissions == [] then Reply(false, [])
    else
      var before := Replies(client, emissions[..|emissions| - 1]);
      var next := client(before.approved, emissions[|emissions| - 1]);
      Reply(next.approved, before.puts + next.puts)
  }

  /** All that the client's generator yields, given the responses it was handed. */
  function Script<M>(setup: Setup<M>, emissions: seq<Emission>): seq<Option<Request>> {
    [Some(setup.trigger)] + Replies(setup.client, emissions).puts
  }

  /** How often the client has spoken or closed. */
  function ClientTurns(log: seq<Entry>): nat {
    if log == [] then 0 else ClientTurns(log[..|log| - 1]) + if log[|log| - 1].FromClient? || log[|log| - 1].CloseSends? then 1 else 0
  }

  predicate TornDown(log: seq<Entry>) {
    Teardown in log
  }

  /** A client entry is the next item of the script, given the responses in the log before it. A close
      after the teardown is the cancelled generator's. */
  ghost predicate ScriptedEntry<M>(setup: Setup<M>, log: seq<Entry>, entry: Entry) {
    var script, k := Script(setup, Emissions(log)), ClientTurns(log);
    && (entry.FromClient? ==> k < |script| && script[k].Some? && entry.request == Stamp(setup.source, script[k].value))
    && (entry.CloseSends? && !TornDown(log) ==> k < |script| && script[k] == None)
  }

  ghost predicate Scripted<M>(setup: Setup<M>, log: seq<Entry>) {
    log == [] || (Scripted(setup, log[..|log| - 1]) && ScriptedEntry(setup, log[..|log| - 1], log[|log| - 1]))
  }

  /** A scripted request is the trigger or something the client has put. */
  lemma ScriptedRequest<M>(setup: Setup<M>, log: seq<Entry>, entry: Entry) returns (put: Option<Request>)
    requires ScriptedEntry(setup, log, entry) && entry.FromClient?
    ensures put == None ==> entry == FromClient(Stamp(setup.source, setup.trigger))
    ensures put.Some? ==> put in Replies(setup.client, Emissions(log)).puts && entry == FromClient(Stamp(setup.source, put.value))
  {
    var puts, k := Replies(setup.client, Emissions(log)).puts, ClientTurns(log);
    if k == 0 {
      put := None;
    } else {
      put := puts[k - 1];
    }
  }

  /** What is still to be yielded is the rest of the script. */
  ghost predicate ClientInv<M>(setup: Setup<M>, log: seq<Entry>, yielded: seq<Emission>, approved: bool, pending: seq<Option<Request>>) {
    var script := Script(setup, yielded);
    && approved == Replies(setup.client, yielded).approved
    && ClientTurns(log) <= |script| && pending == script[ClientTurns(log)..]
  }

  /** The client's part: the log follows the script, and until the caller leaves the generator is at
      the right place in it. */
  ghost predicate KeepsToScript<M>(setup: Setup<M>, log: seq<Entry>, yielded: seq<Emission>, collecting: bool, approved: bool,
                             pending: seq<Option<Request>>) {
    && Scripted(setup, log)
    && (collecting <==> !TornDown(log))
    && (collecting ==> ClientInv(setup, log, yielded, approved, pending))
  }

  ghost predicate ClientFollows<M>(setup: Setup<M>, s: Session<M>) {
    KeepsToScript(setup, s.room.relay.log, s.room.relay.yielded, s.room.relay.collecting, s.approved, Pending(setup, s))
  }

  ghost predicate SessionInv<M>(setup: Setup<M>, s: Session<M>) {
    && s.room.relay.names == setup.names && s.room.relay.source == setup.source
    && RoomInv(setup.react, setup.start, s.room)
    && ClientFollows(setup, s)
  }

  lemma {:induction false} RepliesGrow(client: (bool, Emission) -> Reply, a: seq<Emission>, b: seq<Emission>)
    ensures Replies(client, a).puts <= Replies(client, a + b).puts
  {
    if b == [] {
      assert a + b == a;
    } else {
      RepliesGrow(client, a, b[..|b| - 1]);
      assert (a + b)[..|a + b| - 1] == a + b[..|b| - 1];
    }
  }

  lemma ScriptedSnoc<M>(setup: Setup<M>, log: seq<Entry>, entry: Entry)
    requires Scripted(setup, log) && ScriptedEntry(setup, log, entry)
    ensures Scripted(setup, log + [entry])
    ensures ClientTurns(log + [entry]) == ClientTurns(log) + if entry.FromClient? || entry.CloseSends? then 1 else 0
  {
    assert (log + [entry])[..|log|] == log;
  }

  /** What the generator yields is the next item of the script on the whole log: the client has been
      handed a prefix of the responses in it. */
  lemma YieldIsScripted<M>(setup: Setup<M>, log: seq<Entry>, yielded: seq<Emission>, unread: seq<Emission>, approved: bool,
                           pending: seq<Option<Request>>, entry: Entry)
    requires ClientInv(setup, log, yielded, approved, pending) && pending != []
    requires yielded + unread == Emissions(log)
    requires entry == match pending[0] case Some(request) => FromClient(Stamp(setup.source, request)) case None => CloseSends
    ensures ScriptedEntry(setup, log, entry)
  {
    RepliesGrow(setup.client, yielded, unread);
    assert Script(setup, yielded)[ClientTurns(log)] == pending[0];
  }

  lemma YieldKeepsClient<M>(setup: Setup<M>, log: seq<Entry>, yielded: seq<Emission>, approved: bool,
                            pending: seq<Option<Request>>, longer: seq<Entry>)
    requires ClientInv(setup, log, yielded, approved, pending) && pending != []
    requires ClientTurns(longer) == ClientTurns(log) + 1
    ensures ClientInv(setup, longer, yielded, approved, pending[1..])
  {
  }

  lemma ReplyKeepsClient<M>(setup: Setup<M>, log: seq<Entry>, yielded: seq<Emission>, approved: bool,
                            pending: seq<Option<Request>>, emission: Emission)
    requires ClientInv(setup, log, yielded, approved, pending)
    ensures var reply := setup.client(approved, emission);
      ClientInv(setup, log, yielded + [emission], reply.approved, pending + reply.puts)
  {
    assert (yielded + [emission])[..|yielded|] == yielded;
  }

  function YieldEntry<M>(setup: Setup<M>, item: Option<Request>): Entry {
    match item case Some(request) => FromClient(Stamp(setup.source, request)) case None => CloseSends
  }

  lemma YieldEffect<M>(setup: Setup<M>, s: Session<M>)
    requires MayTurn(setup, s, Yield) && s.room.relay.source == setup.source
    ensures var t, pending := DoTurn(setup, s, Yield), Pending(setup, s);
      && May(s.room, YieldAction(pending[0])) && t.room == Do(setup.react, s.room, YieldAction(pending[0]))
      && t.room.relay.log == s.room.relay.log + [YieldEntry(setup, pending[0])]
      && t.room.relay.yielded == s.room.relay.yielded && t.room.relay.collecting == s.room.relay.collecting
      && t.approved == s.approved && Pending(setup, t) == pending[1..]
  {
  }

  lemma YieldFollows<M>(setup: Setup<M>, s: Session<M>)
    requires ClientFollows(setup, s) && MayTurn(setup, s, Yield) && s.room.relay.source == setup.source
    requires Conserves(s.room.relay.log, s.room.relay.output, s.room.relay.yielded)
    ensures ClientFollows(setup, DoTurn(setup, s, Yield))
  {
    YieldEffect(setup, s);
    var log, yielded, pending := s.room.relay.log, s.room.relay.yielded, Pending(setup, s);
    var entry := YieldEntry(setup, pending[0]);
    YieldIsScripted(setup, log, yielded, Values(s.room.relay.output), s.approved, pending, entry);
    ScriptedSnoc(setup, log, entry);
    YieldKeepsClient(setup, log, yielded, s.approved, pending, log + [entry]);
  }

  lemma YieldKeepsInv<M>(setup: Setup<M>, s: Session<M>)
    requires SessionInv(setup, s) && MayTurn(setup, s, Yield)
    ensures SessionInv(setup, DoTurn(setup, s, Yield))
    ensures Done(DoTurn(setup, s, Yield).room.relay) == Done(s.room.relay) + 1
  {
    YieldFollows(setup, s);
    YieldEffect(setup, s);
    var a := YieldAction(Pending(setup, s)[0]);
    ActionKeepsInv(setup.react, setup.start, s.room, a);
    ActionIsCounted(setup.react, setup.start, s.room, a);
  }

  /** An action of the room that is not the client's: what it does to the part the client sees. */
  lemma ActEffect<M>(setup: Setup<M>, s: Session<M>, a: Action)
    requires MayTurn(setup, s, Act(a))
    ensures var t, relay := DoTurn(setup, s, Act(a)), s.room.relay;
      && t.room == Do(setup.react, s.room, a)
      && t.room.relay.log == relay.log + Logged(s.room, a)
      && (t.room.relay.collecting ==> relay.collecting)
      && (t.room.relay.collecting ==>
            if a.CallerTakes? && relay.output[0].Some? then
              var reply := setup.client(s.approved, relay.output[0].value);
              && t.room.relay.yielded == relay.yielded + [relay.output[0].value]
              && t.approved == reply.approved && Pending(setup, t) == Pending(setup, s) + reply.puts
            else t.room.relay.yielded == relay.yielded && t.approved == s.approved && Pending(setup, t) == Pending(setup, s))
      && (Logged(s.room, a) == [] || Logged(s.room, a)[0].FromAgent? || (!t.room.relay.collecting && !Logged(s.room, a)[0].FromClient?))
      && (Logged(s.room, a) != [] && Logged(s.room, a)[0].CloseSends? ==> !relay.collecting)
  {
    ActionLogs(setup.react, s.room, a);
  }

  lemma TurnsUnchanged<M>(setup: Setup<M>, log: seq<Entry>, entry: Entry, yielded: seq<Emission>, approved: bool, pending: seq<Option<Request>>)
    requires ClientInv(setup, log, yielded, approved, pending) && entry.FromAgent?
    ensures ClientInv(setup, log + [entry], yielded, approved, pending)
  {
    assert (log + [entry])[..|log|] == log;
  }

  /** An entry that is not the client's leaves the client where it is. */
  lemma EntryFollows<M>(setup: Setup<M>, log: seq<Entry>, yielded: seq<Emission>, collecting: bool, still: bool, approved: bool,
                        pending: seq<Option<Request>>, entry: Entry, approvedNow: bool, pendingNow: seq<Option<Request>>)
    requires KeepsToScript(setup, log, yielded, collecting, approved, pending)
    requires !entry.FromClient? && (entry.CloseSends? ==> !collecting)
    requires still <==> collecting && entry != Teardown
    requires still ==> entry.FromAgent? && approvedNow == approved && pendingNow == pending
    ensures KeepsToScript(setup, log + [entry], yielded, still, approvedNow, pendingNow)
  {
    ScriptedSnoc(setup, log, entry);
    if still {
      TurnsUnchanged(setup, log, entry, yielded, approved, pending);
    }
  }

  /** The client is handed a response, or nothing happens to it. */
  lemma HandedFollows<M>(setup: Setup<M>, log: seq<Entry>, yielded: seq<Emission>, collecting: bool, approved: bool,
                         pending: seq<Option<Request>>, handed: Option<Emission>)
    requires KeepsToScript(setup, log, yielded, collecting, approved, pending)
    ensures handed.Some? ==>
              var reply := setup.client(approved, handed.value);
              KeepsToScript(setup, log, yielded + [handed.value], collecting, reply.approved, pending + reply.puts)
  {
    if handed.Some? && collecting {
      ReplyKeepsClient(setup, log, yielded, approved, pending, handed.value);
    }
  }

  lemma StoppedFollows<M>(setup: Setup<M>, log: seq<Entry>, yielded: seq<Emission>, approved: bool, pending: seq<Option<Request>>,
                          later: seq<Emission>, approvedNow: bool, pendingNow: seq<Option<Request>>)
    requires KeepsToScript(setup, log, yielded, false, approved, pending)
    ensures KeepsToScript(setup, log, later, false, approvedNow, pendingNow)
  {
  }

  lemma SilentEffect<M>(setup: Setup<M>, s: Session<M>, a: Action)
    requires MayTurn(setup, s, Act(a)) && Logged(s.room, a) == []
    ensures var t := DoTurn(setup, s, Act(a)).room.relay;
      t.log == s.room.relay.log && t.collecting == s.room.relay.collecting
  {
    ActionLogs(setup.react, s.room, a);
    OnlyLeavingStops(setup.react, s.room, a);
    assert s.room.relay.log + [] == s.room.relay.log;
  }

  lemma SilentActFollows<M>(setup: Setup<M>, s: Session<M>, a: Action)
    requires ClientFollows(setup, s) && MayTurn(setup, s, Act(a)) && Logged(s.room, a) == []
    ensures ClientFollows(setup, DoTurn(setup, s, Act(a)))
  {
    ActEffect(setup, s, a);
    SilentEffect(setup, s, a);
    var t, relay := DoTurn(setup, s, Act(a)), s.room.relay;
    if relay.collecting {
      HandedFollows(setup, relay.log, relay.yielded, true, s.approved, Pending(setup, s),
                    if a.CallerTakes? then relay.output[0] else None);
    } else {
      StoppedFollows(setup, relay.log, relay.yielded, s.approved, Pending(setup, s), t.room.relay.yielded, t.approved, Pending(setup, t));
    }
  }

  lemma LoggedActFollows<M>(setup: Setup<M>, s: Session<M>, a: Action)
    requires ClientFollows(setup, s) && MayTurn(setup, s, Act(a)) && Logged(s.room, a) != []
    ensures ClientFollows(setup, DoTurn(setup, s, Act(a)))
  {
    ActEffect(setup, s, a);
    var t, relay := DoTurn(setup, s, Act(a)), s.room.relay;
    EntryFollows(setup, relay.log, relay.yielded, relay.collecting, t.room.relay.collecting, s.approved, Pending(setup, s),
                 Logged(s.room, a)[0], t.approved, Pending(setup, t));
  }

  lemma ActFollows<M>(setup: Setup<M>, s: Session<M>, a: Action)
    requires ClientFollows(setup, s) && MayTurn(setup, s, Act(a))
    ensures ClientFollows(setup, DoTurn(setup, s, Act(a)))
  {
    if Logged(s.room, a) == [] {
      SilentActFollows(setup, s, a);
    } else {
      LoggedActFollows(setup, s, a);
    }
  }

  lemma ActKeepsInv<M>(setup: Setup<M>, s: Session<M>, a: Action)
    requires SessionInv(setup, s) && MayTurn(setup, s, Act(a))
    ensures SessionInv(setup, DoTurn(setup, s, Act(a)))
    ensures Done(DoTurn(setup, s, Act(a)).room.relay) == Done(s.room.relay) + 1
  {
    ActFollows(setup, s, a);
    ActEffect(setup, s, a);
    ActionKeepsInv(setup.react, setup.start, s.room, a);
    ActionIsCounted(setup.react, setup.start, s.room, a);
  }

  // Runs of a session.

  ghost predicate Goes<M>(setup: Setup<M>, turns: seq<Turn>)
    decreases |turns|, 0
  {
    turns == [] ||
    (var before := turns[..|turns| - 1];
     Goes(setup, before) && MayTurn(setup, Reached(setup, before), turns[|turns| - 1]))
  }

  ghost function Reached<M>(setup: Setup<M>, turns: seq<Turn>): Session<M>
    requires Goes(setup, turns)
    decreases |turns|, 1
  {
    if turns == [] then Begin(setup) else DoTurn(setup, Reached(setup, turns[..|turns| - 1]), turns[|turns| - 1])
  }

  lemma BeginInv<M>(setup: Setup<M>)
    requires Distinct(setup.names) && setup.start.Keys == NameSet(setup.names)
    ensures SessionInv(setup, Begin(setup)) && Done(Begin(setup).room.relay) == 0
  {
    EnterInv(setup.react, setup.names, setup.source, setup.start);
    assert Pending(setup, Begin(setup)) == Script(setup, [])[0..];
  }

  lemma TurnKeepsInv<M>(setup: Setup<M>, s: Session<M>, turn: Turn)
    requires SessionInv(setup, s) && MayTurn(setup, s, turn)
    ensures SessionInv(setup, DoTurn(setup, s, turn))
    ensures Done(DoTurn(setup, s, turn).room.relay) == Done(s.room.relay) + 1
  {
    match turn
    case Yield => YieldKeepsInv(setup, s);
    case Act(a) => ActKeepsInv(setup, s, a);
  }

  /** In every state of every run, whatever fails and whenever the caller leaves, the log consists of
      justified agent entries and scripted client entries; and the run is as long as the progress made. */
  lemma {:induction false} SessionKeepsInv<M>(setup: Setup<M>, turns: seq<Turn>)
    requires Distinct(setup.names) && setup.start.Keys == NameSet(setup.names) && Goes(setup, turns)
    ensures SessionInv(setup, Reached(setup, turns))
    ensures Done(Reached(setup, turns).room.relay) == |turns|
  {
    if turns == [] {
      BeginInv(setup);
    } else {
      var before, last := turns[..|turns| - 1], turns[|turns| - 1];
      SessionKeepsInv(setup, before);
      var s := Reached(setup, before);
      TurnKeepsInv(setup, s, last);
      assert Reached(setup, turns) == DoTurn(setup, s, last);
    }
  }
}
