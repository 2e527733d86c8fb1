/** The incident session cannot go on for ever: how often the client speaks, what it has put after how
    much of the remediation agent's output, and how long a run can be. */
module Bounds {
  import opened Sequences
  import opened Scenarios
  import opened Options
  import opened Wire
  import opened Relay
  import opened Execution
  import opened Executors
  import opened Rooms
  import opened Conversations
  import opened Progress
  import opened Sessions
  import opened Incident

  /** Which elements of a trace are texts, and how many come before each. */
  lemma TraceTexts(name: string, messages: seq<Message>, updates: seq<Update>, ended: bool, k: nat)
    requires k < |Trace(name, messages, updates, ended)|
    ensures messages != []
    ensures var trace, task := Trace(name, messages, updates, ended), NewTask(messages[0]);
      && Texts(trace[..k]) == (if k == 0 then 0 else if k <= |updates| + 1 then k - 1 else |updates|)
      && (IsText(trace[k]) <==> 1 <= k <= |updates|)
      && (IsText(trace[k]) ==> trace[k] == UpdateResponse(name, task, updates[k - 1]))
      && (!IsText(trace[k]) ==> ResponseText(trace[k]) == "")
  {
    var trace, task := Trace(name, messages, updates, ended), NewTask(messages[0]);
    if 0 < k <= |updates| + 1 {
      assert trace[..k] == [TaskResponse(task)] + UpdateResponses(name, task, updates[..k - 1]);
      TextsConcat([TaskResponse(task)], UpdateResponses(name, task, updates[..k - 1]));
      TextsOfUpdates(name, task, updates[..k - 1]);
      assert [TaskResponse(task)][..0] == [];
      assert Texts([TaskResponse(task)]) == 0;
    }
  }

  /** The element of a trace that comes after `said`: the next update, or something without a text. */
  lemma NextOfTrace(name: string, messages: seq<Message>, updates: seq<Update>, ended: bool, said: seq<Response>)
    requires said <= Trace(name, messages, updates, ended) && |said| < |Trace(name, messages, updates, ended)|
    ensures var response := Trace(name, messages, updates, ended)[|said|];
      if IsText(response) then Texts(said) < |updates| && ResponseText(response) == updates[Texts(said)].text
      else ResponseText(response) == ""
  {
    var trace, k := Trace(name, messages, updates, ended), |said|;
    TraceTexts(name, messages, updates, ended, k);
    assert trace[..k] == said;
    if IsText(trace[k]) {
      UpdateText(name, NewTask(messages[0]), updates[k - 1]);
    }
  }

  /** After `said` texts the remediation agent responds without a text, or with the plan if there was
      none, or with the execution if there was one. */
  predicate IsNextText(sc: Scenario, said: nat, response: Response) {
    && ResponseText(response) == (if !IsText(response) then "" else if said == 0 then sc.plan else sc.executed)
    && (IsText(response) ==> said <= 1)
  }

  /** The remediation agent's next text, given how many it has said. */
  lemma NextRemediationText(sc: Scenario, log: seq<Entry>, p: nat)
    requires Fits(sc) && Spoken(sc, log) && p < |log| && log[p].FromAgent? && log[p].name == sc.remediation
    ensures IsNextText(sc, Texts(Said(log[..p], sc.remediation)), log[p].response)
  {
    var init, name := log[..p], sc.remediation;
    JustifiedAt(sc, log, p);
    MemoriesFit(sc);
    SaidIsPrefix(sc, init, name);
    FullIsTrace(sc, init, name);
    var mind := Mind(Behaviour(sc), Memories(sc)[name], Conversation(init, name));
    RemediationPhases(sc, Conversation(init, name));
    PhaseUpdates(sc, Conversation(init, name), mind);
    NextOfTrace(name, Heard(Projection(init, name)), mind.updates, Sentinels(init) > 0 || mind.crashed, Said(init, name));
  }

  /** The client's script after `said` texts of the remediation agent. */
  function ScriptAfter(sc: Scenario, said: nat): Reply {
    Reply(said >= 1,
          (if said >= 1 then [Some(MakeRequest(sc.approval))] else []) + (if said >= 2 then [None] else []))
  }

  /** The client's reply to `e` takes its script from `said` texts to `more`. */
  predicate Extends(sc: Scenario, said: nat, more: nat, e: Emission) {
    var reply := Client(sc)(ScriptAfter(sc, said).approved, e);
    reply.approved == ScriptAfter(sc, more).approved && ScriptAfter(sc, said).puts + reply.puts == ScriptAfter(sc, more).puts
  }

  lemma ReplyToText(sc: Scenario, approved: bool, response: Response)
    requires ClientTellsApart(sc) && (ResponseText(response) in {sc.plan, sc.executed} ==> response.StatusResponse?)
    requires ResponseText(response) in {"", sc.plan, sc.executed}
    ensures Client(sc)(approved, Emission(sc.remediation, response)) ==
              if ResponseText(response) == "" then Reply(approved, [])
              else if ResponseText(response) == sc.plan then Reply(true, if approved then [] else [Some(MakeRequest(sc.approval))])
              else Reply(approved, [None])
  {
  }

  lemma ReplyToRemediation(sc: Scenario, said: nat, response: Response)
    requires ClientTellsApart(sc) && IsNextText(sc, said, response)
    ensures Extends(sc, said, said + if IsText(response) then 1 else 0, Emission(sc.remediation, response))
  {
    ReplyToText(sc, ScriptAfter(sc, said).approved, response);
    assert sc.plan != "" && sc.executed != "" && sc.plan != sc.executed;
  }

  lemma RepliesSnoc(client: (bool, Emission) -> Reply, es: seq<Emission>, e: Emission)
    ensures var before, next := Replies(client, es), client(Replies(client, es).approved, e);
      Replies(client, es + [e]) == Reply(next.approved, before.puts + next.puts)
  {
    assert (es + [e])[..|es|] == es;
  }

  lemma ClientIgnoresOthers(sc: Scenario, approved: bool, e: Emission)
    requires e.name != sc.remediation
    ensures Client(sc)(approved, e) == Reply(approved, [])
  {
  }

  lemma EmissionsStep(log: seq<Entry>)
    requires log != []
    ensures Emissions(log) == Emissions(log[..|log| - 1])
              + if log[|log| - 1].FromAgent? then [Emission(log[|log| - 1].name, log[|log| - 1].response)] else []
  {
  }

  /** The client's reply to the remediation agent's latest response completes the script for it. */
  lemma ReplyToLatest(sc: Scenario, log: seq<Entry>)
    requires Fits(sc) && Spoken(sc, log)
    requires log != [] && log[|log| - 1].FromAgent? && log[|log| - 1].name == sc.remediation
    ensures var said, response := Texts(Said(log[..|log| - 1], sc.remediation)), log[|log| - 1].response;
      Extends(sc, said, said + if IsText(response) then 1 else 0, Emission(sc.remediation, response))
  {
    NextRemediationText(sc, log, |log| - 1);
    FitsTellsApart(sc);
    ReplyToRemediation(sc, Texts(Said(log[..|log| - 1], sc.remediation)), log[|log| - 1].response);
  }

  lemma RemediationExtendsScript(sc: Scenario, log: seq<Entry>, e: Emission, said: nat, more: nat)
    requires log != [] && log[|log| - 1].FromAgent? && e == Emission(log[|log| - 1].name, log[|log| - 1].response)
    requires Replies(Client(sc), Emissions(log[..|log| - 1])) == ScriptAfter(sc, said)
    requires Extends(sc, said, more, e)
    ensures Replies(Client(sc), Emissions(log)) == ScriptAfter(sc, more)
  {
    EmissionsStep(log);
    RepliesSnoc(Client(sc), Emissions(log[..|log| - 1]), e);
  }

  /** What the client has put is determined by how many texts the remediation agent has said: nothing
      before the plan, the approval after it, the close after the execution. */
  lemma {:induction false} ScriptIsDetermined(sc: Scenario, log: seq<Entry>)
    requires Fits(sc) && Spoken(sc, log)
    ensures Replies(Client(sc), Emissions(log)) == ScriptAfter(sc, Texts(Said(log, sc.remediation)))
  {
    if log != [] {
      var init, last := log[..|log| - 1], log[|log| - 1];
      JustifiedAt(sc, log, |init|);
      ScriptIsDetermined(sc, init);
      if last.FromAgent? && last.name == sc.remediation {
        ReplyToLatest(sc, log);
        SaidStep(log, sc.remediation);
        RemediationExtendsScript(sc, log, Emission(sc.remediation, last.response),
                                 Texts(Said(init, sc.remediation)), Texts(Said(log, sc.remediation)));
      } else {
        EmissionsStep(log);
        SaidStep(log, sc.remediation);
        if last.FromAgent? {
          var e := Emission(last.name, last.response);
          RepliesSnoc(Client(sc), Emissions(init), e);
          ClientIgnoresOthers(sc, Replies(Client(sc), Emissions(init)).approved, e);
        } else {
          assert Emissions(init) + [] == Emissions(init);
        }
      }
    }
  }

  lemma ClientTurnIsEarly(sc: Scenario, log: seq<Entry>, entry: Entry)
    requires Fits(sc) && Legal(sc, log) && ScriptedEntry(SetupOf(sc), log, entry) && entry.FromClient?
    ensures ClientTurns(log) <= 1
    ensures entry == ClientEntry(sc, if ClientTurns(log) == 0 then sc.trigger else sc.approval)
  {
    ScriptIsDetermined(sc, log);
  }

  /** The client speaks at most twice and raises at most one alarm. */
  lemma {:induction false} ClientSpeaksTwice(sc: Scenario, log: seq<Entry>)
    requires Fits(sc) && Legal(sc, log)
    ensures Clients(log) <= 2 && Clients(log) <= ClientTurns(log)
    ensures ClientAlarms(log) <= 1 && ClientAlarms(log) <= ClientTurns(log)
  {
    if log != [] {
      var init, last := log[..|log| - 1], log[|log| - 1];
      ClientSpeaksTwice(sc, init);
      if last.FromClient? {
        ClientTurnIsEarly(sc, init, last);
        ClientLine(sc, sc.approval, "");
        ClientLine(sc, sc.trigger, "");
      }
    }
  }

  /** Every run of the session, under any interleaving and with any failures, is finite: no run is
      longer than a bound that depends only on the number of log lines. */
  lemma RunsAreBounded(sc: Scenario, turns: seq<Turn>)
    requires Fits(sc) && Goes(SetupOf(sc), turns)
    ensures |turns| <= 6 * (|sc.logs| + 12) + 28
  {
    MemoriesFit(sc);
    SessionKeepsInv(SetupOf(sc), turns);
    var relay := Reached(SetupOf(sc), turns).room.relay;
    ClientSpeaksTwice(sc, relay.log);
    NoBroadcastStorm(sc, relay.log);
    DoneBound(relay, 2, |sc.logs| + 12);
  }

  lemma OpenRoomIsBounded(sc: Scenario, relay: State)
    requires Fits(sc) && Inv(relay) && relay.names == Agents(sc) && Spoken(sc, relay.log)
    ensures var clients, emissions := Clients(relay.log), ClientAlarms(relay.log) + |sc.logs| + 11;
      && AgentTexts(relay.log) <= ClientAlarms(relay.log) + |sc.logs| + 3
      && Done(relay) <= clients + 2 * emissions + 4 * (clients + emissions + 4) + 2
  {
    NoBroadcastStorm(sc, relay.log);
    DoneBound(relay, Clients(relay.log), ClientAlarms(relay.log) + |sc.logs| + 11);
  }

  /** A room of the four agents, before anything has been sent. */
  function OpenRoom(sc: Scenario): Room<Memory> {
    Enter(Agents(sc), sc.client, Memories(sc))
  }

  lemma OpenRoomStarts(sc: Scenario)
    requires Fits(sc)
    ensures RoomInv(Behaviour(sc), Memories(sc), OpenRoom(sc))
    ensures OpenRoom(sc).relay.names == Agents(sc) && Done(OpenRoom(sc).relay) == 0
  {
    MemoriesFit(sc);
    EnterInv(Behaviour(sc), Agents(sc), sc.client, Memories(sc));
  }

  lemma RoomReaches<M>(react: (M, Line) -> Reaction<M>, start: map<string, M>, r: Room<M>, actions: seq<Action>)
    requires RoomInv(react, start, r) && Plays(react, r, actions) && Done(r.relay) == 0
    ensures var relay := Played(react, r, actions).relay;
      Inv(relay) && relay.names == r.relay.names && AllJustified(react, start, relay.log) && Done(relay) == |actions|
  {
    PlayKeepsInv(react, start, r, actions);
  }

  lemma OpenRoomReaches(sc: Scenario, actions: seq<Action>)
    requires Fits(sc) && Plays(Behaviour(sc), OpenRoom(sc), actions)
    ensures var relay := Played(Behaviour(sc), OpenRoom(sc), actions).relay;
      Inv(relay) && relay.names == Agents(sc) && Spoken(sc, relay.log) && Done(relay) == |actions|
  {
    OpenRoomStarts(sc);
    RoomReaches(Behaviour(sc), Memories(sc), OpenRoom(sc), actions);
  }

  /** With any client at all, the number of steps is bounded by what the client does: an open session
      makes no more progress than its client's requests, and the alarms among them, account for. */
  lemma OpenRunsAreBounded(sc: Scenario, actions: seq<Action>)
    requires Fits(sc) && Plays(Behaviour(sc), OpenRoom(sc), actions)
    ensures var log := Played(Behaviour(sc), OpenRoom(sc), actions).relay.log;
      var clients, emissions := Clients(log), ClientAlarms(log) + |sc.logs| + 11;
      && AgentTexts(log) <= ClientAlarms(log) + |sc.logs| + 3
      && |actions| <= clients + 2 * emissions + 4 * (clients + emissions + 4) + 2
  {
    OpenRoomReaches(sc, actions);
    OpenRoomIsBounded(sc, Played(Behaviour(sc), OpenRoom(sc), actions).relay);
  }
}
