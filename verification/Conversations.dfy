/** What the four agents can say to each other: properties of every log in which each agent's entry
    is its next emission. Nothing is assumed about what the client sends. */
module Conversations {
  import opened Sequences
  import opened Scenarios
  import opened Options
  import opened Wire
  import opened Relay
  import opened RelayProperties
  import opened Execution
  import opened Executors
  import opened Echoes
  import opened Rooms

  function Memories(sc: Scenario): map<string, Memory> {
    map[sc.monitoring := Monitoring, sc.logger := FRESH_LOGGER, sc.diagnostics := FRESH_DIAGNOSTICS, sc.remediation := FRESH_REMEDIATION]
  }

  lemma MemoriesFit(sc: Scenario)
    requires NamesFit(sc)
    ensures Memories(sc).Keys == NameSet(Agents(sc)) && Distinct(Agents(sc))
    ensures Memories(sc)[sc.monitoring] == Monitoring && Memories(sc)[sc.logger] == FRESH_LOGGER
    ensures Memories(sc)[sc.diagnostics] == FRESH_DIAGNOSTICS && Memories(sc)[sc.remediation] == FRESH_REMEDIATION
    ensures forall n :: n in Memories(sc) ==> IsFresh(Memories(sc)[n]) && NameOf(sc, Memories(sc)[n]) == n
  {
  }

  ghost predicate Spoken(sc: Scenario, log: seq<Entry>) {
    AllJustified(Behaviour(sc), Memories(sc), log)
  }

  // What an agent hears of a log.

  function EntryLine(entry: Entry, name: string): seq<Line> {
    match entry
    case FromClient(request) => if request.MessageRequest? then [LineOf(request.message)] else []
    case FromAgent(origin, _, forwarded) =>
      if origin != name && forwarded.Some? && forwarded.value.MessageRequest? then [LineOf(forwarded.value.message)] else []
    case _ => []
  }

  /** The lines that reach an agent before the log's first close. */
  function Conversation(log: seq<Entry>, name: string): seq<Line> {
    if log == [] then []
    else
      var init := log[..|log| - 1];
      Conversation(init, name) + if Sentinels(init) > 0 then [] else EntryLine(log[|log| - 1], name)
  }

  lemma {:induction false} ConversationIsHeard(log: seq<Entry>, name: string)
    ensures Conversation(log, name) == Lines(Heard(Projection(log, name)))
    ensures Sentinel in Projection(log, name) <==> Sentinels(log) > 0
  {
    ProjectionSentinels(log, name);
    CountedSentinelOccurs(Projection(log, name));
    if log != [] {
      var init, last := log[..|log| - 1], log[|log| - 1];
      ConversationIsHeard(init, name);
      var before, more := Projection(init, name), Contribution(last, name);
      if more == [] {
        assert before + more == before;
      } else {
        assert (before + more)[..|before|] == before;
        if more[0].Item? && more[0].request.MessageRequest? && Sentinels(init) == 0 {
          LinesSnoc(Heard(before), more[0].request.message);
        } else {
          assert Heard(before + more) == Heard(before);
        }
      }
    }
  }

  /** Every line an agent hears stands at one log position, after the lines before it. */
  lemma {:induction false} LineHasPosition(log: seq<Entry>, name: string, j: nat) returns (p: nat)
    requires j < |Conversation(log, name)|
    ensures p < |log| && Sentinels(log[..p]) == 0
    ensures EntryLine(log[p], name) == [Conversation(log, name)[j]]
    ensures Conversation(log[..p], name) == Conversation(log, name)[..j]
  {
    var init := log[..|log| - 1];
    if j < |Conversation(init, name)| {
      p := LineHasPosition(init, name, j);
      assert log[..p] == init[..p];
      assert Conversation(log, name)[..j] == Conversation(init, name)[..j];
    } else {
      p := |log| - 1;
    }
  }

  /** What an agent emits on its whole projection, in terms of what it hears. */
  lemma FullIsTrace(sc: Scenario, log: seq<Entry>, name: string)
    requires NamesFit(sc) && name in Memories(sc)
    ensures var mind := Mind(Behaviour(sc), Memories(sc)[name], Conversation(log, name));
      && (Conversation(log, name) == [] <==> Heard(Projection(log, name)) == [])
      && Full(Behaviour(sc), Memories(sc), log, name) ==
           Trace(name, Heard(Projection(log, name)), mind.updates, Sentinels(log) > 0 || mind.crashed)
  {
    ConversationIsHeard(log, name);
    TraceShape(Behaviour(sc), name, Memories(sc)[name], Projection(log, name));
  }

  lemma {:induction false} JustifiedAt(sc: Scenario, log: seq<Entry>, p: nat)
    requires Spoken(sc, log) && p < |log|
    ensures Spoken(sc, log[..p]) && Justified(Behaviour(sc), Memories(sc), log[..p], log[p])
  {
    var init := log[..|log| - 1];
    if p < |init| {
      JustifiedAt(sc, init, p);
      assert init[..p] == log[..p];
    }
  }

  /** What an agent's entry holds: its task, its completion, or an update its reactions call for. */
  lemma EntryIsInTrace(sc: Scenario, log: seq<Entry>, p: nat)
    requires Fits(sc) && Spoken(sc, log) && p < |log| && log[p].FromAgent?
    ensures log[p].name in Memories(sc) && log[p].forwarded == Translate(log[p].response, log[p].name)
    ensures var name, text := log[p].name, ResponseText(log[p].response);
      text != "" ==> exists u :: u in Mind(Behaviour(sc), Memories(sc)[name], Conversation(log[..p], name)).updates && u.text == text
  {
    JustifiedAt(sc, log, p);
    var name, response, init := log[p].name, log[p].response, log[..p];
    FullIsTrace(sc, init, name);
    var mind := Mind(Behaviour(sc), Memories(sc)[name], Conversation(init, name));
    InTrace(name, Heard(Projection(init, name)), mind.updates, Sentinels(init) > 0 || mind.crashed, response);
    var task := NewTask(Heard(Projection(init, name))[0]);
    if response != TaskResponse(task) && response != Completion(task) {
      var u :| u in mind.updates && response == UpdateResponse(name, task, u);
      UpdateText(name, task, u);
    }
  }

  lemma EntryIsCalm(sc: Scenario, log: seq<Entry>, p: nat)
    requires Fits(sc) && Spoken(sc, log) && p < |log| && log[p].FromAgent?
    ensures Calm(ResponseText(log[p].response))
    ensures log[p].response.TaskResponse? || log[p].response.StatusResponse?
  {
    JustifiedAt(sc, log, p);
    MemoriesFit(sc);
    EventTexts(sc, Memories(sc)[log[p].name], Projection(log[..p], log[p].name), log[p].response);
  }

  /** An agent's entry carries an update its reactions call for, or else no text; it is forwarded under
      the agent's name with that text. */
  lemma AgentEntry(sc: Scenario, log: seq<Entry>, p: nat)
    requires Fits(sc) && Spoken(sc, log) && p < |log| && log[p].FromAgent?
    ensures var name, text := log[p].name, ResponseText(log[p].response);
      && name in Memories(sc)
      && Calm(text)
      && (log[p].response.TaskResponse? || log[p].response.StatusResponse?)
      && (forall n :: EntryLine(log[p], n) == if n == name then [] else [Line(name, text)])
      && (text != "" ==> exists u :: u in Mind(Behaviour(sc), Memories(sc)[name], Conversation(log[..p], name)).updates && u.text == text)
  {
    EntryIsInTrace(sc, log, p);
    EntryIsCalm(sc, log, p);
    TranslationPreservesContent(log[p].response, log[p].name);
  }

  // No broadcast storm.

  /** Client messages that raise an alarm. */
  function ClientAlarms(log: seq<Entry>): nat {
    if log == [] then 0
    else
      var last := log[|log| - 1];
      ClientAlarms(log[..|log| - 1])
      + if last.FromClient? && last.request.MessageRequest? && HasAnomaly(GetMessageText(last.request.message)) then 1 else 0
  }

  lemma CountAlarmsSnoc(lines: seq<Line>, more: seq<Line>, name: string)
    requires |more| <= 1
    ensures CountAlarms(lines + more, name) == CountAlarms(lines, name) + if more != [] && Alarms(more[0], name) then 1 else 0
  {
    if more == [] {
      assert lines + more == lines;
    } else {
      assert (lines + more)[..|lines|] == lines;
    }
  }

  lemma ClientAlarmCounts(log: seq<Entry>, name: string)
    requires log != [] && log[|log| - 1].FromClient?
    requires EntryLine(log[|log| - 1], name) != [] && HasAnomaly(EntryLine(log[|log| - 1], name)[0].text)
    ensures ClientAlarms(log) == ClientAlarms(log[..|log| - 1]) + 1
  {
  }

  lemma AgentsAlarmNobody(sc: Scenario, log: seq<Entry>, p: nat, name: string)
    requires Fits(sc) && Spoken(sc, log) && p < |log| && log[p].FromAgent?
    ensures forall line :: line in EntryLine(log[p], name) ==> !HasAnomaly(line.text)
  {
    AgentEntry(sc, log, p);
  }

  /** How many alarms the latest entry adds to a conversation. */
  lemma LatestLine(log: seq<Entry>, name: string)
    requires log != []
    ensures var init, line := log[..|log| - 1], EntryLine(log[|log| - 1], name);
      CountAlarms(Conversation(log, name), name) ==
        CountAlarms(Conversation(init, name), name) + if Sentinels(init) == 0 && line != [] && Alarms(line[0], name) then 1 else 0
  {
    var init := log[..|log| - 1];
    CountAlarmsSnoc(Conversation(init, name), if Sentinels(init) > 0 then [] else EntryLine(log[|log| - 1], name), name);
  }

  lemma LatestOfAgent(sc: Scenario, log: seq<Entry>, name: string)
    requires Fits(sc) && Spoken(sc, log) && log != [] && log[|log| - 1].FromAgent?
    ensures CountAlarms(Conversation(log, name), name) == CountAlarms(Conversation(log[..|log| - 1], name), name)
  {
    LatestLine(log, name);
    AgentsAlarmNobody(sc, log, |log| - 1, name);
    var line := EntryLine(log[|log| - 1], name);
    assert line != [] ==> line[0] in line;
  }

  lemma LatestOfOther(log: seq<Entry>, name: string)
    requires log != [] && !log[|log| - 1].FromAgent?
    ensures CountAlarms(Conversation(log, name), name) - CountAlarms(Conversation(log[..|log| - 1], name), name)
         <= ClientAlarms(log) - ClientAlarms(log[..|log| - 1])
  {
    LatestLine(log, name);
    var line := EntryLine(log[|log| - 1], name);
    if line != [] && Alarms(line[0], name) {
      ClientAlarmCounts(log, name);
    }
  }

  /** Only the client's messages raise alarms. */
  lemma {:induction false} AlarmsComeFromTheClient(sc: Scenario, log: seq<Entry>, name: string)
    requires Fits(sc) && Spoken(sc, log)
    ensures CountAlarms(Conversation(log, name), name) <= ClientAlarms(log)
  {
    if log != [] {
      JustifiedAt(sc, log, |log| - 1);
      AlarmsComeFromTheClient(sc, log[..|log| - 1], name);
      if log[|log| - 1].FromAgent? {
        LatestOfAgent(sc, log, name);
      } else {
        LatestOfOther(log, name);
      }
    }
  }

  function IsText(response: Response): bool {
    response.StatusResponse? && response.status.message.Some?
  }

  function Texts(responses: seq<Response>): nat {
    if responses == [] then 0
    else Texts(responses[..|responses| - 1]) + if IsText(responses[|responses| - 1]) then 1 else 0
  }

  lemma {:induction false} TextsConcat(a: seq<Response>, b: seq<Response>)
    ensures Texts(a + b) == Texts(a) + Texts(b)
  {
    if b == [] {
      assert a + b == a;
    } else {
      TextsConcat(a, b[..|b| - 1]);
      assert (a + b)[..|a + b| - 1] == a + b[..|b| - 1];
    }
  }

  lemma {:induction false} TextsOfUpdates(name: string, task: Task, updates: seq<Update>)
    ensures Texts(UpdateResponses(name, task, updates)) == |updates|
  {
    if updates != [] {
      var init := updates[..|updates| - 1];
      TextsOfUpdates(name, task, init);
      assert UpdateResponses(name, task, updates)[..|updates| - 1] == UpdateResponses(name, task, init);
    }
  }

  lemma TextsOfTrace(name: string, messages: seq<Message>, updates: seq<Update>, ended: bool)
    ensures Texts(Trace(name, messages, updates, ended)) == if messages == [] then 0 else |updates|
    ensures |Trace(name, messages, updates, ended)| <= |updates| + 2
  {
    if messages != [] {
      var task := NewTask(messages[0]);
      var tail := if ended then [Completion(task)] else [];
      TextsConcat([TaskResponse(task)] + UpdateResponses(name, task, updates), tail);
      TextsConcat([TaskResponse(task)], UpdateResponses(name, task, updates));
      TextsOfUpdates(name, task, updates);
      assert [TaskResponse(task)][..0] == [] && tail != [] ==> tail[..0] == [];
      assert Texts([TaskResponse(task)]) == 0;
      assert Texts(tail) == 0;
    }
  }

  /** What was read of an agent is a prefix of what it emits on the log. */
  lemma SaidIsPrefix(sc: Scenario, log: seq<Entry>, name: string)
    requires Spoken(sc, log) && name in Memories(sc)
    ensures Said(log, name) <= Full(Behaviour(sc), Memories(sc), log, name)
  {
    JustifiedIsPrefix(Behaviour(sc), Memories(sc), log, name);
  }

  /** How many updates each agent can have to make. */
  lemma UpdateBounds(sc: Scenario, log: seq<Entry>, name: string)
    requires Fits(sc) && Spoken(sc, log) && name in Memories(sc)
    ensures |Mind(Behaviour(sc), Memories(sc)[name], Conversation(log, name)).updates| <=
              if name == sc.monitoring then ClientAlarms(log)
              else if name == sc.logger then |sc.logs|
              else if name == sc.diagnostics then 1
              else 2
  {
    MemoriesFit(sc);
    var lines := Conversation(log, name);
    if name == sc.monitoring {
      MonitoringAnswersEveryAlarm(sc, lines);
      AlarmsComeFromTheClient(sc, log, name);
    } else if name == sc.logger {
      LoggerSendsItsLinesOnce(sc, lines);
    } else if name == sc.diagnostics {
      DiagnosticsAccumulates(sc, lines);
    } else {
      RemediationPhases(sc, lines);
    }
  }

  lemma SaidBounds(sc: Scenario, log: seq<Entry>, name: string)
    requires Fits(sc) && Spoken(sc, log) && name in Memories(sc)
    ensures var most := |Mind(Behaviour(sc), Memories(sc)[name], Conversation(log, name)).updates|;
      Texts(Said(log, name)) <= most && |Said(log, name)| <= most + 2
  {
    SaidIsPrefix(sc, log, name);
    FullIsTrace(sc, log, name);
    var full := Full(Behaviour(sc), Memories(sc), log, name);
    var mind := Mind(Behaviour(sc), Memories(sc)[name], Conversation(log, name));
    TextsOfTrace(name, Heard(Projection(log, name)), mind.updates, Sentinels(log) > 0 || mind.crashed);
    assert full == Said(log, name) + full[|Said(log, name)|..];
    TextsConcat(Said(log, name), full[|Said(log, name)|..]);
  }

  /** All text updates in a log. */
  function AgentTexts(log: seq<Entry>): nat {
    if log == [] then 0
    else AgentTexts(log[..|log| - 1]) + if log[|log| - 1].FromAgent? && IsText(log[|log| - 1].response) then 1 else 0
  }

  lemma SaidStep(log: seq<Entry>, name: string)
    requires log != []
    ensures var init, last := log[..|log| - 1], log[|log| - 1];
      && |Said(log, name)| == |Said(init, name)| + (if last.FromAgent? && last.name == name then 1 else 0)
      && Texts(Said(log, name)) == Texts(Said(init, name)) + (if last.FromAgent? && last.name == name && IsText(last.response) then 1 else 0)
  {
    var init, last := log[..|log| - 1], log[|log| - 1];
    if last.FromAgent? && last.name == name {
      assert (Said(init, name) + [last.response])[..|Said(init, name)|] == Said(init, name);
    } else {
      assert Said(log, name) == Said(init, name);
    }
  }

  lemma {:induction false} SplitByName(log: seq<Entry>, a: string, b: string, c: string, d: string)
    requires a != b && a != c && a != d && b != c && b != d && c != d
    requires forall p :: 0 <= p < |log| && log[p].FromAgent? ==> log[p].name == a || log[p].name == b || log[p].name == c || log[p].name == d
    ensures |Emissions(log)| == |Said(log, a)| + |Said(log, b)| + |Said(log, c)| + |Said(log, d)|
    ensures AgentTexts(log) == Texts(Said(log, a)) + Texts(Said(log, b)) + Texts(Said(log, c)) + Texts(Said(log, d))
  {
    if log != [] {
      SplitByName(log[..|log| - 1], a, b, c, d);
      SaidStep(log, a);
      SaidStep(log, b);
      SaidStep(log, c);
      SaidStep(log, d);
    }
  }

  lemma SplitByAgent(sc: Scenario, log: seq<Entry>)
    requires NamesFit(sc) && Spoken(sc, log)
    ensures |Emissions(log)| == |Said(log, sc.monitoring)| + |Said(log, sc.logger)| + |Said(log, sc.diagnostics)| + |Said(log, sc.remediation)|
    ensures AgentTexts(log) == Texts(Said(log, sc.monitoring)) + Texts(Said(log, sc.logger))
                             + Texts(Said(log, sc.diagnostics)) + Texts(Said(log, sc.remediation))
  {
    forall p | 0 <= p < |log| && log[p].FromAgent?
      ensures log[p].name in Memories(sc)
    {
      JustifiedAt(sc, log, p);
    }
    SplitByName(log, sc.monitoring, sc.logger, sc.diagnostics, sc.remediation);
  }

  /** Whatever the client sends, the agents' updates are bounded by its alarms: one metrics update per
      alarm, the log agent's lines once, one diagnosis, one plan and one execution; besides these each
      agent emits at most its task and its completion. */
  lemma NoBroadcastStorm(sc: Scenario, log: seq<Entry>)
    requires Fits(sc) && Spoken(sc, log)
    ensures AgentTexts(log) <= ClientAlarms(log) + |sc.logs| + 3
    ensures |Emissions(log)| <= ClientAlarms(log) + |sc.logs| + 3 + 8
  {
    SplitByAgent(sc, log);
    MemoriesFit(sc);
    forall name | name in Memories(sc)
      ensures Texts(Said(log, name)) <= |Mind(Behaviour(sc), Memories(sc)[name], Conversation(log, name)).updates|
      ensures |Said(log, name)| <= |Mind(Behaviour(sc), Memories(sc)[name], Conversation(log, name)).updates| + 2
    {
      SaidBounds(sc, log, name);
    }
    UpdateBounds(sc, log, sc.monitoring);
    UpdateBounds(sc, log, sc.logger);
    UpdateBounds(sc, log, sc.diagnostics);
    UpdateBounds(sc, log, sc.remediation);
  }
}
