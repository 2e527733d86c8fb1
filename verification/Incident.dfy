/** The incident-response session: the four agents, the relay and the approving client, closed under
    every interleaving. */
module Incident {
  import opened Sequences
  import opened Strings
  import opened Scenarios
  import opened Options
  import opened Wire
  import opened Relay
  import opened Execution
  import opened Executors
  import opened Echoes
  import opened Rooms
  import opened Conversations
  import opened Sessions

  function MakeRequest(text: string): Request {
    MessageRequest(Message("", "", UserRole, [TextPart(text)], map[]))
  }

  /** The client approves the first plan and closes on every report of an execution; it looks at status
      updates of the remediation agent only. */
  function ClientReact(sc: Scenario, approved: bool, e: Emission): Reply {
    if !e.response.StatusResponse? || e.name != sc.remediation then Reply(approved, [])
    else
      var text := ResponseText(e.response);
      var approves := !approved && Contains(text, "REMEDIATION:");
      var closes := Contains(text, "REMEDIATION EXECUTED:");
      Reply(approved || approves,
            (if approves then [Some(MakeRequest(sc.approval))] else []) + (if closes then [None] else []))
  }

  function Client(sc: Scenario): (bool, Emission) -> Reply {
    (approved, e) => ClientReact(sc, approved, e)
  }

  function SetupOf(sc: Scenario): Setup<Memory> {
    Setup(Agents(sc), sc.client, Behaviour(sc), Memories(sc), MakeRequest(sc.trigger), Client(sc))
  }

  /** What every log of the session meets: each agent's entry is its next emission and each of the client's
      the next item of its script. */
  ghost predicate Legal(sc: Scenario, log: seq<Entry>) {
    Spoken(sc, log) && Scripted(SetupOf(sc), log)
  }

  function ClientEntry(sc: Scenario, text: string): Entry {
    FromClient(Stamp(sc.client, MakeRequest(text)))
  }

  predicate AgentSays(log: seq<Entry>, p: nat, name: string, text: string) {
    p < |log| && log[p].FromAgent? && log[p].name == name && ResponseText(log[p].response) == text
  }

  // The client's script.

  lemma ClientLine(sc: Scenario, text: string, name: string)
    requires sc.client != ""
    ensures EntryLine(ClientEntry(sc, text), name) == [Line(sc.client, text)]
  {
    var msg := MakeRequest(text).message;
    SenderIsStamped(msg, sc.client);
    assert FirstText([TextPart(text)]) == text;
  }

  /** Every item the client puts has its reason among the responses it was handed. */
  lemma {:induction false} PutsHaveReasons(sc: Scenario, es: seq<Emission>, item: Option<Request>) returns (j: nat)
    requires item in Replies(Client(sc), es).puts
    ensures item.Some? ==> item.value == MakeRequest(sc.approval)
    ensures j < |es| && es[j].name == sc.remediation
    ensures Contains(ResponseText(es[j].response), if item.Some? then "REMEDIATION:" else "REMEDIATION EXECUTED:")
  {
    var init := es[..|es| - 1];
    if item in Replies(Client(sc), init).puts {
      j := PutsHaveReasons(sc, init, item);
    } else {
      j := |es| - 1;
    }
  }

  lemma {:induction false} EmissionHasPosition(log: seq<Entry>, j: nat) returns (p: nat)
    requires j < |Emissions(log)|
    ensures p < |log| && log[p].FromAgent? && Emissions(log)[j] == Emission(log[p].name, log[p].response)
  {
    var init := log[..|log| - 1];
    if j < |Emissions(init)| {
      p := EmissionHasPosition(init, j);
    } else {
      p := |log| - 1;
    }
  }

  lemma {:induction false} ScriptedAt(sc: Scenario, log: seq<Entry>, p: nat)
    requires Scripted(SetupOf(sc), log) && p < |log|
    ensures ScriptedEntry(SetupOf(sc), log[..p], log[p]) && Scripted(SetupOf(sc), log[..p])
  {
    var init := log[..|log| - 1];
    if p < |init| {
      ScriptedAt(sc, init, p);
      assert init[..p] == log[..p];
    }
  }

  /** The client says nothing but the trigger and the approval. */
  lemma ClientSpeaks(sc: Scenario, log: seq<Entry>, p: nat)
    requires Legal(sc, log) && p < |log| && log[p].FromClient?
    ensures log[p] == ClientEntry(sc, sc.trigger)
         || (log[p] == ClientEntry(sc, sc.approval) && Some(MakeRequest(sc.approval)) in Replies(Client(sc), Emissions(log[..p])).puts)
  {
    ScriptedAt(sc, log, p);
    var put := ScriptedRequest(SetupOf(sc), log[..p], log[p]);
    if put.Some? {
      var j := PutsHaveReasons(sc, Emissions(log[..p]), put);
    }
  }

  // Causal safety, link by link.

  /** The update behind an agent's text. */
  lemma SaidUpdate(sc: Scenario, log: seq<Entry>, p: nat) returns (u: Update)
    requires Fits(sc) && Spoken(sc, log) && p < |log| && log[p].FromAgent? && ResponseText(log[p].response) != ""
    ensures log[p].name in Memories(sc)
    ensures u in Mind(Behaviour(sc), Memories(sc)[log[p].name], Conversation(log[..p], log[p].name)).updates
    ensures u.text == ResponseText(log[p].response)
  {
    AgentEntry(sc, log, p);
    u :| u in Mind(Behaviour(sc), Memories(sc)[log[p].name], Conversation(log[..p], log[p].name)).updates && u.text == ResponseText(log[p].response);
  }

  lemma RemediationText(sc: Scenario, log: seq<Entry>, p: nat)
    requires Fits(sc) && Spoken(sc, log) && p < |log| && log[p].FromAgent? && log[p].name == sc.remediation
    ensures ResponseText(log[p].response) in {sc.plan, sc.executed, ""}
  {
    if ResponseText(log[p].response) != "" {
      var u := SaidUpdate(sc, log, p);
      MemoriesFit(sc);
      var lines := Conversation(log[..p], sc.remediation);
      RemediationPhases(sc, lines);
      PhaseUpdates(sc, lines, Mind(Behaviour(sc), FRESH_REMEDIATION, lines));
    }
  }

  /** The wording by which the client tells the plan from the execution. */
  predicate ClientTellsApart(sc: Scenario) {
    && Contains(sc.plan, "REMEDIATION:") && !Contains(sc.plan, "REMEDIATION EXECUTED:")
    && Contains(sc.executed, "REMEDIATION EXECUTED:") && !Contains(sc.executed, "REMEDIATION:")
    && !Contains("", "REMEDIATION:") && !Contains("", "REMEDIATION EXECUTED:")
  }

  lemma FitsTellsApart(sc: Scenario)
    requires Fits(sc)
    ensures ClientTellsApart(sc)
  {
    LacksCharacter("", "REMEDIATION:", "REMEDIATION:"[0]);
    LacksCharacter("", "REMEDIATION EXECUTED:", "REMEDIATION EXECUTED:"[0]);
  }

  /** The remediation agent's texts: the plan, the execution, or none. */
  lemma RemediationSays(sc: Scenario, log: seq<Entry>, p: nat)
    requires Fits(sc) && Spoken(sc, log) && p < |log| && log[p].FromAgent? && log[p].name == sc.remediation
    ensures var text := ResponseText(log[p].response);
      && text in {sc.plan, sc.executed, ""}
      && (Contains(text, "REMEDIATION:") ==> text == sc.plan)
      && (Contains(text, "REMEDIATION EXECUTED:") ==> text == sc.executed)
  {
    RemediationText(sc, log, p);
    FitsTellsApart(sc);
  }

  /** An approval follows the plan. */
  lemma ApprovalNeedsPlan(sc: Scenario, log: seq<Entry>, p: nat) returns (q: nat)
    requires Fits(sc) && Legal(sc, log) && p < |log| && log[p] == ClientEntry(sc, sc.approval)
    ensures q < p && AgentSays(log, q, sc.remediation, sc.plan)
  {
    ClientSpeaks(sc, log, p);
    ClientLine(sc, sc.approval, "");
    ClientLine(sc, sc.trigger, "");
    assert sc.approval != sc.trigger;
    var j := PutsHaveReasons(sc, Emissions(log[..p]), Some(MakeRequest(sc.approval)));
    q := EmissionHasPosition(log[..p], j);
    assert log[..p][q] == log[q];
    RemediationSays(sc, log, q);
  }

  lemma ContainsSomething(text: string, pattern: string)
    requires Contains(text, pattern) && pattern != ""
    ensures text != ""
  {
  }

  /** A line that grants an approval comes from the client and is its approval. */
  lemma ApprovedByClient(sc: Scenario, log: seq<Entry>, p: nat, name: string, line: Line)
    requires Fits(sc) && Legal(sc, log) && p < |log| && EntryLine(log[p], name) == [line] && HasApproved(line.text)
    ensures log[p] == ClientEntry(sc, sc.approval)
  {
    if log[p].FromAgent? {
      AgentEntry(sc, log, p);
      assert false;
    } else {
      ClientSpeaks(sc, log, p);
      ClientLine(sc, sc.trigger, name);
    }
  }

  /** A line that raises an alarm comes from the client and is its trigger. */
  lemma AlarmedByClient(sc: Scenario, log: seq<Entry>, p: nat, name: string, line: Line)
    requires Fits(sc) && Legal(sc, log) && p < |log| && EntryLine(log[p], name) == [line] && HasAnomaly(line.text)
    ensures log[p] == ClientEntry(sc, sc.trigger)
  {
    if log[p].FromAgent? {
      AgentEntry(sc, log, p);
      assert false;
    } else {
      ClientSpeaks(sc, log, p);
      ClientLine(sc, sc.approval, name);
    }
  }

  lemma ExecutedMeansApproved(sc: Scenario, lines: seq<Line>, mind: Reaction<Memory>, u: Update) returns (k: nat)
    requires InPhase(sc, lines, mind) && u in mind.updates && u.text == sc.executed && sc.executed != sc.plan
    ensures k < |lines| && HasApproved(lines[k].text)
  {
    k := First(APPROVES, lines, First(Noticed(sc), lines, 0) + 1);
    assert APPROVES(lines[k]);
  }

  lemma PlannedMeansAccepted(sc: Scenario, lines: seq<Line>, mind: Reaction<Memory>)
    requires InPhase(sc, lines, mind) && mind.updates != []
    ensures First(Noticed(sc), lines, 0) < |lines|
    ensures Judge(sc, lines[First(Noticed(sc), lines, 0)]) == Accepted
  {
    assert Noticed(sc)(lines[First(Noticed(sc), lines, 0)]);
  }

  /** An execution follows the client's approval. */
  lemma ExecutionNeedsApproval(sc: Scenario, log: seq<Entry>, p: nat) returns (q: nat)
    requires Fits(sc) && Legal(sc, log) && AgentSays(log, p, sc.remediation, sc.executed)
    ensures q < p && log[q] == ClientEntry(sc, sc.approval)
  {
    ContainsSomething(sc.executed, "REMEDIATION EXECUTED:");
    var u := SaidUpdate(sc, log, p);
    MemoriesFit(sc);
    var lines := Conversation(log[..p], sc.remediation);
    RemediationPhases(sc, lines);
    var k := ExecutedMeansApproved(sc, lines, Mind(Behaviour(sc), FRESH_REMEDIATION, lines), u);
    q := LineHasPosition(log[..p], sc.remediation, k);
    assert log[..p][q] == log[q];
    ApprovedByClient(sc, log, q, sc.remediation, lines[k]);
  }

  /** A plan follows a diagnosis of the diagnostics agent, which reads as at least 0.7. */
  lemma PlanNeedsDiagnosis(sc: Scenario, log: seq<Entry>, p: nat) returns (q: nat)
    requires Fits(sc) && Legal(sc, log) && AgentSays(log, p, sc.remediation, sc.plan)
    ensures q < p && log[q].FromAgent? && log[q].name == sc.diagnostics
    ensures IsConfident(sc, Line(sc.diagnostics, ResponseText(log[q].response)))
    ensures Judge(sc, Line(sc.diagnostics, ResponseText(log[q].response))) == Accepted
  {
    ContainsSomething(sc.plan, "REMEDIATION:");
    var u := SaidUpdate(sc, log, p);
    MemoriesFit(sc);
    var lines := Conversation(log[..p], sc.remediation);
    RemediationPhases(sc, lines);
    PlannedMeansAccepted(sc, lines, Mind(Behaviour(sc), FRESH_REMEDIATION, lines));
    var n := First(Noticed(sc), lines, 0);
    q := LineHasPosition(log[..p], sc.remediation, n);
    assert log[..p][q] == log[q];
    if log[q].FromClient? {
      ClientSpeaks(sc, log, q);
      ClientLine(sc, sc.approval, sc.remediation);
      ClientLine(sc, sc.trigger, sc.remediation);
      assert false;
    } else {
      AgentEntry(sc, log, q);
    }
  }

  lemma {:induction false} EvidenceHasSource(sc: Scenario, lines: seq<Line>) returns (j: nat)
    requires Found(sc, lines) != []
    ensures j < |lines| && NewSignals(sc, lines[j]) != []
  {
    var init := lines[..|lines| - 1];
    if Found(sc, init) != [] {
      j := EvidenceHasSource(sc, init);
    } else {
      j := |lines| - 1;
    }
  }

  /** A diagnosis follows evidence of total weight at least the threshold, as the diagnostics agent had
      heard it. */
  lemma DiagnosisNeedsTotal(sc: Scenario, log: seq<Entry>, p: nat)
    requires Fits(sc) && Legal(sc, log) && p < |log| && log[p].FromAgent? && log[p].name == sc.diagnostics
    requires ResponseText(log[p].response) != ""
    ensures Total(Found(sc, Conversation(log[..p], sc.diagnostics))) >= THRESHOLD
  {
    var u := SaidUpdate(sc, log, p);
    MemoriesFit(sc);
    DiagnosticsAccumulates(sc, Conversation(log[..p], sc.diagnostics));
  }

  /** Evidence comes from a peer. */
  lemma EvidenceFromPeer(sc: Scenario, log: seq<Entry>, p: nat, line: Line)
    requires Fits(sc) && Legal(sc, log) && p < |log| && EntryLine(log[p], sc.diagnostics) == [line] && NewSignals(sc, line) != []
    ensures log[p].FromAgent? && log[p].name != sc.diagnostics && line == Line(log[p].name, ResponseText(log[p].response))
  {
    if log[p].FromClient? {
      ClientSpeaks(sc, log, p);
      ClientLine(sc, sc.approval, sc.diagnostics);
      ClientLine(sc, sc.trigger, sc.diagnostics);
      assert false;
    } else {
      AgentEntry(sc, log, p);
    }
  }

  lemma EvidenceInLog(sc: Scenario, log: seq<Entry>) returns (q: nat)
    requires Fits(sc) && Legal(sc, log) && Found(sc, Conversation(log, sc.diagnostics)) != []
    ensures q < |log| && log[q].FromAgent? && log[q].name != sc.diagnostics
    ensures NewSignals(sc, Line(log[q].name, ResponseText(log[q].response))) != []
  {
    var lines := Conversation(log, sc.diagnostics);
    var j := EvidenceHasSource(sc, lines);
    q := LineHasPosition(log, sc.diagnostics, j);
    EvidenceFromPeer(sc, log, q, lines[j]);
  }

  lemma LegalPrefix(sc: Scenario, log: seq<Entry>, p: nat)
    requires Legal(sc, log) && p < |log|
    ensures Legal(sc, log[..p])
  {
    JustifiedAt(sc, log, p);
    ScriptedAt(sc, log, p);
  }

  lemma {:induction false} AlarmHasSource(lines: seq<Line>, name: string) returns (j: nat)
    requires CountAlarms(lines, name) > 0
    ensures j < |lines| && Alarms(lines[j], name)
  {
    var init := lines[..|lines| - 1];
    if CountAlarms(init, name) > 0 {
      j := AlarmHasSource(init, name);
    } else {
      j := |lines| - 1;
    }
  }

  lemma SignalsNeedText(sc: Scenario, line: Line)
    requires NewSignals(sc, line) != []
    ensures line.text != "" && (line.sender == sc.logger || line.sender == sc.monitoring)
  {
  }

  /** Whoever provides evidence has been alarmed by somebody else. */
  lemma EvidenceIsAlarmed(sc: Scenario, log: seq<Entry>, p: nat)
    requires Fits(sc) && Legal(sc, log) && p < |log| && log[p].FromAgent?
    requires NewSignals(sc, Line(log[p].name, ResponseText(log[p].response))) != []
    ensures CountAlarms(Conversation(log[..p], log[p].name), log[p].name) > 0
  {
    SignalsNeedText(sc, Line(log[p].name, ResponseText(log[p].response)));
    var u := SaidUpdate(sc, log, p);
    MemoriesFit(sc);
    MonitoringAnswersEveryAlarm(sc, Conversation(log[..p], log[p].name));
    LoggerSendsItsLinesOnce(sc, Conversation(log[..p], log[p].name));
  }

  /** Every piece of evidence follows the client's trigger. */
  lemma EvidenceNeedsTrigger(sc: Scenario, log: seq<Entry>, p: nat) returns (q: nat)
    requires Fits(sc) && Legal(sc, log) && p < |log| && log[p].FromAgent?
    requires NewSignals(sc, Line(log[p].name, ResponseText(log[p].response))) != []
    ensures q < p && log[q] == ClientEntry(sc, sc.trigger) && Sentinels(log[..q]) == 0
  {
    EvidenceIsAlarmed(sc, log, p);
    var name, lines := log[p].name, Conversation(log[..p], log[p].name);
    var j := AlarmHasSource(lines, name);
    q := LineHasPosition(log[..p], name, j);
    assert log[..p][q] == log[q] && log[..p][..q] == log[..q];
    AlarmedByClient(sc, log, q, name, lines[j]);
  }

  /** What must have happened, and in what order, for a remediation to be executed. */
  ghost predicate Chain(sc: Scenario, log: seq<Entry>, trigger: nat, evidence: nat, diagnosis: nat, plan: nat, approval: nat, execution: nat) {
    && trigger < evidence < diagnosis < plan < approval < execution < |log|
    && log[trigger] == ClientEntry(sc, sc.trigger)
    && log[evidence].FromAgent? && NewSignals(sc, Line(log[evidence].name, ResponseText(log[evidence].response))) != []
    && Total(Found(sc, Conversation(log[..diagnosis], sc.diagnostics))) >= 0.7
    && log[diagnosis].FromAgent? && log[diagnosis].name == sc.diagnostics
    && IsConfident(sc, Line(sc.diagnostics, ResponseText(log[diagnosis].response)))
    && AgentSays(log, plan, sc.remediation, sc.plan)
    && log[approval] == ClientEntry(sc, sc.approval)
    && AgentSays(log, execution, sc.remediation, sc.executed)
  }

  lemma ExecutionHasChain(sc: Scenario, log: seq<Entry>, p: nat)
    requires Fits(sc) && Legal(sc, log) && AgentSays(log, p, sc.remediation, sc.executed)
    ensures exists trigger, evidence, diagnosis, plan, approval :: Chain(sc, log, trigger, evidence, diagnosis, plan, approval, p)
  {
    var approval := ExecutionNeedsApproval(sc, log, p);
    var plan := ApprovalNeedsPlan(sc, log, approval);
    var diagnosis := PlanNeedsDiagnosis(sc, log, plan);
    DiagnosisNeedsTotal(sc, log, diagnosis);
    LegalPrefix(sc, log, diagnosis);
    var evidence := EvidenceInLog(sc, log[..diagnosis]);
    assert log[..diagnosis][evidence] == log[evidence];
    var trigger := EvidenceNeedsTrigger(sc, log, evidence);
    assert Chain(sc, log, trigger, evidence, diagnosis, plan, approval, p);
  }

  /** In every run, whatever fails and however the steps interleave, an execution is preceded by the
      client's approval, that by the plan, that by a confident diagnosis, that by evidence of the
      required weight, and that by the client's trigger. */
  lemma CausalSafety(sc: Scenario, turns: seq<Turn>, p: nat)
    requires Fits(sc) && Goes(SetupOf(sc), turns)
    requires AgentSays(Reached(SetupOf(sc), turns).room.relay.log, p, sc.remediation, sc.executed)
    ensures exists trigger, evidence, diagnosis, plan, approval ::
              Chain(sc, Reached(SetupOf(sc), turns).room.relay.log, trigger, evidence, diagnosis, plan, approval, p)
  {
    MemoriesFit(sc);
    SessionKeepsInv(SetupOf(sc), turns);
    ExecutionHasChain(sc, Reached(SetupOf(sc), turns).room.relay.log, p);
  }
}
