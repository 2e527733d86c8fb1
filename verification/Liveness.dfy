/** Why the incident session cannot get stuck: a log in which everybody has said all they have to say,
    and nobody has closed, does not exist. */
module Liveness {
  import opened Sequences
  import opened Strings
  import opened Scenarios
  import opened Options
  import opened Wire
  import opened Relay
  import opened Execution
  import opened Executors
  import opened Rooms
  import opened Conversations
  import opened Sessions
  import opened Incident
  import opened Bounds

  // Positions in a log.

  /** An entry before the first close is heard right after what was heard before it. */
  lemma {:induction false} EntryIsHeard(log: seq<Entry>, name: string, p: nat)
    requires p < |log| && Sentinels(log[..p]) == 0
    ensures Conversation(log[..p], name) + EntryLine(log[p], name) <= Conversation(log, name)
  {
    var init := log[..|log| - 1];
    if p < |init| {
      assert init[..p] == log[..p];
      EntryIsHeard(init, name, p);
    }
  }

  lemma {:induction false} ConversationGrows(log: seq<Entry>, name: string, p: nat)
    requires p <= |log|
    ensures Conversation(log[..p], name) <= Conversation(log, name)
  {
    if p < |log| {
      var init := log[..|log| - 1];
      assert init[..p] == log[..p];
      ConversationGrows(init, name, p);
    } else {
      assert log[..p] == log;
    }
  }

  lemma {:induction false} SaidHasPosition(log: seq<Entry>, name: string, k: nat) returns (p: nat)
    requires k < |Said(log, name)|
    ensures p < |log| && log[p].FromAgent? && log[p].name == name && log[p].response == Said(log, name)[k]
  {
    var init := log[..|log| - 1];
    if k < |Said(init, name)| {
      p := SaidHasPosition(init, name, k);
    } else {
      p := |log| - 1;
    }
  }

  lemma {:induction false} TurnHasPosition(log: seq<Entry>, k: nat) returns (p: nat)
    requires k < ClientTurns(log)
    ensures p < |log| && ClientTurns(log[..p]) == k && (log[p].FromClient? || log[p].CloseSends?)
  {
    var init := log[..|log| - 1];
    if k < ClientTurns(init) {
      p := TurnHasPosition(init, k);
      assert init[..p] == log[..p];
    } else {
      p := |log| - 1;
    }
  }

  lemma {:induction false} NoSentinels(log: seq<Entry>, p: nat)
    requires Sentinels(log) == 0 && p < |log|
    ensures Sentinels(log[..p]) == 0 && !log[p].CloseSends? && !log[p].Teardown?
  {
    var init := log[..|log| - 1];
    if p < |init| {
      assert init[..p] == log[..p];
      NoSentinels(init, p);
    }
  }

  // Alarms.

  lemma {:induction false} AlarmIsCounted(lines: seq<Line>, name: string, j: nat)
    requires j < |lines| && Alarms(lines[j], name)
    ensures CountAlarms(lines, name) > 0
  {
    if j < |lines| - 1 {
      AlarmIsCounted(lines[..|lines| - 1], name, j);
    }
  }

  /** Once the trigger is in the log, before any close, every agent has an alarm. */
  lemma TriggerAlarms(sc: Scenario, log: seq<Entry>, p: nat, name: string)
    requires Fits(sc) && name in Agents(sc)
    requires p < |log| && Sentinels(log[..p]) == 0 && log[p] == ClientEntry(sc, sc.trigger)
    ensures CountAlarms(Conversation(log, name), name) > 0
  {
    ClientLine(sc, sc.trigger, name);
    EntryIsHeard(log, name, p);
    AlarmIsCounted(Conversation(log, name), name, |Conversation(log[..p], name)|);
  }

  // Evidence.

  lemma SumSnoc<T>(weight: T -> real, xs: seq<T>, x: T)
    ensures SumBy(weight, xs + [x]) == SumBy(weight, xs) + weight(x)
  {
    assert (xs + [x])[..|xs|] == xs;
  }

  /** The evidence in one response of the log agent. */
  function LoggerWeight(sc: Scenario): Response -> real {
    response => WeightOf(sc)(Line(sc.logger, ResponseText(response)))
  }

  lemma WeightIsNonnegative(sc: Scenario, line: Line)
    ensures WeightOf(sc)(line) >= 0.0
  {
    TotalNonnegative(NewSignals(sc, line));
  }

  /** What the latest entry adds to what the diagnostics agent hears and to what the log agent has said. */
  lemma LatestIsWeighed(hear: Line -> real, say: Response -> real, log: seq<Entry>, listener: string, speaker: string)
    requires log != [] && Sentinels(log[..|log| - 1]) == 0
    ensures var init, last := log[..|log| - 1], log[|log| - 1];
      && |EntryLine(last, listener)| <= 1
      && SumBy(hear, Conversation(log, listener)) ==
           SumBy(hear, Conversation(init, listener)) + (if EntryLine(last, listener) == [] then 0.0 else hear(EntryLine(last, listener)[0]))
      && SumBy(say, Said(log, speaker)) ==
           SumBy(say, Said(init, speaker)) + (if last.FromAgent? && last.name == speaker then say(last.response) else 0.0)
  {
    var init, last := log[..|log| - 1], log[|log| - 1];
    var heard, more := Conversation(init, listener), EntryLine(last, listener);
    if more == [] {
      assert heard + more == heard;
    } else {
      assert heard + more == heard + [more[0]];
      SumSnoc(hear, heard, more[0]);
    }
    if last.FromAgent? && last.name == speaker {
      SumSnoc(say, Said(init, speaker), last.response);
    } else {
      assert Said(log, speaker) == Said(init, speaker);
    }
  }

  /** What the latest entry adds to what the diagnostics agent hears is at least what it adds to what the
      log agent has said. */
  lemma LatestIsHeard(sc: Scenario, log: seq<Entry>)
    requires Fits(sc) && Spoken(sc, log) && log != []
    ensures var last := log[|log| - 1];
      (if EntryLine(last, sc.diagnostics) == [] then 0.0 else WeightOf(sc)(EntryLine(last, sc.diagnostics)[0]))
      >= (if last.FromAgent? && last.name == sc.logger then LoggerWeight(sc)(last.response) else 0.0)
  {
    var last := log[|log| - 1];
    if EntryLine(last, sc.diagnostics) != [] {
      WeightIsNonnegative(sc, EntryLine(last, sc.diagnostics)[0]);
    }
    if last.FromAgent? && last.name == sc.logger {
      AgentEntry(sc, log, |log| - 1);
    }
  }

  /** The diagnostics agent hears all that the log agent says. */
  lemma {:induction false} LoggerIsHeard(sc: Scenario, log: seq<Entry>)
    requires Fits(sc) && Spoken(sc, log) && Sentinels(log) == 0
    ensures SumBy(WeightOf(sc), Conversation(log, sc.diagnostics)) >= SumBy(LoggerWeight(sc), Said(log, sc.logger))
  {
    if log != [] {
      var init := log[..|log| - 1];
      NoSentinels(log, |init|);
      JustifiedAt(sc, log, |init|);
      LoggerIsHeard(sc, init);
      LatestIsWeighed(WeightOf(sc), LoggerWeight(sc), log, sc.diagnostics, sc.logger);
      LatestIsHeard(sc, log);
    }
  }

  lemma SilentWeighsNothing(sc: Scenario, response: Response)
    requires ResponseText(response) == ""
    ensures LoggerWeight(sc)(response) == 0.0
  {
    var line := Line(sc.logger, "");
    assert EvidenceIn(sc, line) == None;
    assert NewSignals(sc, line) == [];
    assert LoggerWeight(sc)(response) == WeightOf(sc)(line);
  }

  lemma LogLineWeighs(sc: Scenario, name: string, task: Task, line: string)
    ensures LoggerWeight(sc)(UpdateResponse(name, task, Update(Working, LogText(line)))) == Total(Matches(sc.logSignals, Strip(LogText(line)[4..])))
  {
    UpdateText(name, task, Update(Working, LogText(line)));
    var spoken := Line(sc.logger, LogText(line));
    assert LogText(line)[..4] == "LOG:";
    assert EvidenceIn(sc, spoken) == Some(Matches(sc.logSignals, Strip(LogText(line)[4..])));
    assert WeightOf(sc)(spoken) == Total(NewSignals(sc, spoken));
  }

  /** All the log lines together weigh what they amount to in all. */
  lemma {:induction false} LogUpdatesWeigh(sc: Scenario, weight: Response -> real, name: string, task: Task, logs: seq<string>)
    requires weight == LoggerWeight(sc)
    ensures SumBy(weight, [TaskResponse(task)] + UpdateResponses(name, task, LogUpdates(logs))) == LogsTotal(sc.logSignals, logs)
  {
    if logs == [] {
      assert [TaskResponse(task)] + UpdateResponses(name, task, LogUpdates(logs)) == [] + [TaskResponse(task)];
      SilentWeighsNothing(sc, TaskResponse(task));
      SumSnoc(weight, [], TaskResponse(task));
    } else {
      var init, last := logs[..|logs| - 1], logs[|logs| - 1];
      LogUpdatesWeigh(sc, weight, name, task, init);
      var before := [TaskResponse(task)] + UpdateResponses(name, task, LogUpdates(init));
      var response := UpdateResponse(name, task, Update(Working, LogText(last)));
      assert [TaskResponse(task)] + UpdateResponses(name, task, LogUpdates(logs)) == before + [response];
      SumSnoc(weight, before, response);
      LogLineWeighs(sc, name, task, last);
    }
  }

  // Nothing the diagnostics agent says is rejected or makes the remediation agent crash.

  lemma DiagnosisForIsAccepted(sc: Scenario, signals: seq<Signal>)
    requires Total(signals) >= THRESHOLD
    ensures Judge(sc, Line(sc.diagnostics, DiagnosisFor(sc, signals).text)) == Accepted
  {
    DiagnosisReadsBack(sc, Cap(Total(signals)), Descriptions(signals));
  }

  /** What the diagnostics agent says: once the evidence is enough, one diagnosis of it. */
  lemma DiagnosticsSays(sc: Scenario, lines: seq<Line>)
    ensures var updates := Mind(Behaviour(sc), FRESH_DIAGNOSTICS, lines).updates;
      if Total(Found(sc, lines)) < THRESHOLD then updates == []
      else exists signals :: Total(signals) >= THRESHOLD && updates == [DiagnosisFor(sc, signals)]
  {
    DiagnosticsAccumulates(sc, lines);
    var updates := Mind(Behaviour(sc), FRESH_DIAGNOSTICS, lines).updates;
    if EvidenceTotal(sc)(lines) >= THRESHOLD {
      var n: nat :| FirstReaches(EvidenceTotal(sc), THRESHOLD, lines, n) && updates == [DiagnosisOn(sc)(lines[..n])];
      var signals := Found(sc, lines[..n]);
      assert EvidenceTotal(sc)(lines[..n]) == Total(signals);
      assert updates == [DiagnosisFor(sc, signals)];
    }
  }

  /** No diagnosis is rejected for its printed confidence. */
  lemma DiagnosisIsAccepted(sc: Scenario, log: seq<Entry>, p: nat)
    requires Fits(sc) && Spoken(sc, log) && p < |log| && log[p].FromAgent? && log[p].name == sc.diagnostics
    requires ResponseText(log[p].response) != ""
    ensures Judge(sc, Line(sc.diagnostics, ResponseText(log[p].response))) == Accepted
  {
    var u := SaidUpdate(sc, log, p);
    MemoriesFit(sc);
    var lines := Conversation(log[..p], sc.diagnostics);
    DiagnosticsSays(sc, lines);
    var signals :| Total(signals) >= THRESHOLD && Mind(Behaviour(sc), FRESH_DIAGNOSTICS, lines).updates == [DiagnosisFor(sc, signals)];
    DiagnosisForIsAccepted(sc, signals);
  }

  lemma JudgeNeedsDiagnosis(sc: Scenario, line: Line)
    requires Judge(sc, line) != Ignored
    ensures line.sender == sc.diagnostics && line.text != ""
  {
  }

  lemma NoticedIsAccepted(sc: Scenario, log: seq<Entry>, j: nat)
    requires Fits(sc) && Legal(sc, log) && j < |Conversation(log, sc.remediation)|
    requires Judge(sc, Conversation(log, sc.remediation)[j]) != Ignored
    ensures Judge(sc, Conversation(log, sc.remediation)[j]) == Accepted
  {
    var line := Conversation(log, sc.remediation)[j];
    var q := LineHasPosition(log, sc.remediation, j);
    JudgeNeedsDiagnosis(sc, line);
    if log[q].FromClient? {
      ClientSpeaks(sc, log, q);
      ClientLine(sc, sc.approval, sc.remediation);
      ClientLine(sc, sc.trigger, sc.remediation);
      assert false;
    } else {
      AgentEntry(sc, log, q);
      DiagnosisIsAccepted(sc, log, q);
    }
  }

  /** No agent of the session ever crashes: every printed confidence reads back as a number. */
  lemma NobodyCrashes(sc: Scenario, log: seq<Entry>, name: string)
    requires Fits(sc) && Legal(sc, log) && name in Memories(sc)
    ensures !Mind(Behaviour(sc), Memories(sc)[name], Conversation(log, name)).crashed
  {
    MemoriesFit(sc);
    var lines := Conversation(log, name);
    if name == sc.monitoring {
      MonitoringAnswersEveryAlarm(sc, lines);
    } else if name == sc.logger {
      LoggerSendsItsLinesOnce(sc, lines);
    } else if name == sc.diagnostics {
      DiagnosticsAccumulates(sc, lines);
    } else {
      RemediationPhases(sc, lines);
      var n := First(Noticed(sc), lines, 0);
      if n < |lines| {
        NoticedIsAccepted(sc, log, n);
      }
    }
  }

  // A log in which nothing is left to say.

  /** Nobody has closed, every agent has said all that its stream calls for, and the client has sent
      all that it has put. */
  ghost predicate Complete(sc: Scenario, log: seq<Entry>) {
    && Legal(sc, log) && Sentinels(log) == 0
    && (forall n :: n in Memories(sc) ==> Said(log, n) == Full(Behaviour(sc), Memories(sc), log, n))
    && ClientTurns(log) == |Script(SetupOf(sc), Emissions(log))|
  }

  function UpdatesOn(sc: Scenario, log: seq<Entry>, name: string): seq<Update>
    requires name in Memories(sc)
  {
    Mind(Behaviour(sc), Memories(sc)[name], Conversation(log, name)).updates
  }

  /** What an agent has said in a complete log, if it has heard anything. */
  lemma CompleteTrace(sc: Scenario, log: seq<Entry>, name: string) returns (task: Task)
    requires Fits(sc) && Complete(sc, log) && name in Memories(sc) && Conversation(log, name) != []
    ensures Said(log, name) == [TaskResponse(task)] + UpdateResponses(name, task, UpdatesOn(sc, log, name))
    ensures Texts(Said(log, name)) == |UpdatesOn(sc, log, name)|
  {
    FullIsTrace(sc, log, name);
    NobodyCrashes(sc, log, name);
    var heard := Heard(Projection(log, name));
    task := NewTask(heard[0]);
    TextsOfTrace(name, heard, UpdatesOn(sc, log, name), false);
    assert Trace(name, heard, UpdatesOn(sc, log, name), false)
        == [TaskResponse(task)] + UpdateResponses(name, task, UpdatesOn(sc, log, name)) + [];
  }

  /** The client's `k`-th request in a log without a close: only the trigger and the approval exist. */
  lemma ClientSaysNext(sc: Scenario, log: seq<Entry>, k: nat) returns (p: nat)
    requires Fits(sc) && Legal(sc, log) && Sentinels(log) == 0 && k < ClientTurns(log)
    ensures k <= 1 && p < |log| && Sentinels(log[..p]) == 0
    ensures log[p] == ClientEntry(sc, if k == 0 then sc.trigger else sc.approval)
  {
    p := TurnHasPosition(log, k);
    NoSentinels(log, p);
    LegalPrefix(sc, log, p);
    ScriptedAt(sc, log, p);
    ClientTurnIsEarly(sc, log[..p], log[p]);
  }

  lemma TriggerIsSent(sc: Scenario, log: seq<Entry>) returns (p: nat)
    requires Fits(sc) && Complete(sc, log)
    ensures p < |log| && Sentinels(log[..p]) == 0 && log[p] == ClientEntry(sc, sc.trigger)
  {
    p := ClientSaysNext(sc, log, 0);
  }

  lemma AlarmedHasHeard(lines: seq<Line>, name: string)
    requires CountAlarms(lines, name) > 0
    ensures lines != []
  {
  }

  lemma AllAreAlarmed(sc: Scenario, log: seq<Entry>, name: string)
    requires Fits(sc) && Complete(sc, log) && name in Agents(sc)
    ensures CountAlarms(Conversation(log, name), name) > 0 && Conversation(log, name) != []
  {
    var p := TriggerIsSent(sc, log);
    TriggerAlarms(sc, log, p, name);
    AlarmedHasHeard(Conversation(log, name), name);
  }

  lemma EvidenceSuffices(sc: Scenario, log: seq<Entry>)
    requires Fits(sc) && Complete(sc, log)
    ensures Total(Found(sc, Conversation(log, sc.diagnostics))) >= THRESHOLD
  {
    MemoriesFit(sc);
    AllAreAlarmed(sc, log, sc.logger);
    LoggerSendsItsLinesOnce(sc, Conversation(log, sc.logger));
    var task := CompleteTrace(sc, log, sc.logger);
    LogUpdatesWeigh(sc, LoggerWeight(sc), sc.logger, task, sc.logs);
    LoggerIsHeard(sc, log);
    TotalIsSum(sc, Conversation(log, sc.diagnostics));
  }

  lemma DiagnosisIsSaid(sc: Scenario, log: seq<Entry>) returns (p: nat)
    requires Fits(sc) && Complete(sc, log)
    ensures p < |log| && log[p].FromAgent? && log[p].name == sc.diagnostics && ResponseText(log[p].response) != ""
  {
    MemoriesFit(sc);
    EvidenceSuffices(sc, log);
    var lines := Conversation(log, sc.diagnostics);
    DiagnosticsSays(sc, lines);
    var signals :| Total(signals) >= THRESHOLD && Mind(Behaviour(sc), FRESH_DIAGNOSTICS, lines).updates == [DiagnosisFor(sc, signals)];
    AllAreAlarmed(sc, log, sc.diagnostics);
    var task := CompleteTrace(sc, log, sc.diagnostics);
    p := SaidHasPosition(log, sc.diagnostics, 1);
    UpdateText(sc.diagnostics, task, DiagnosisFor(sc, signals));
    DiagnosisForIsAccepted(sc, signals);
    JudgeNeedsDiagnosis(sc, Line(sc.diagnostics, DiagnosisFor(sc, signals).text));
  }

  lemma FirstIsEarliest<T>(p: T -> bool, xs: seq<T>, from: nat, k: nat)
    requires from <= k < |xs| && p(xs[k])
    ensures First(p, xs, from) <= k
  {
  }

  lemma NoticedMeansPlanned(sc: Scenario, lines: seq<Line>, mind: Reaction<Memory>, j: nat)
    requires InPhase(sc, lines, mind) && !mind.crashed && j < |lines| && Noticed(sc)(lines[j])
    ensures mind.updates != []
  {
    FirstIsEarliest(Noticed(sc), lines, 0, j);
  }

  lemma DiagnosisIsNoticed(sc: Scenario, log: seq<Entry>, p: nat)
    requires Fits(sc) && Spoken(sc, log) && Sentinels(log) == 0
    requires p < |log| && log[p].FromAgent? && log[p].name == sc.diagnostics && ResponseText(log[p].response) != ""
    ensures |Conversation(log[..p], sc.remediation)| < |Conversation(log, sc.remediation)|
    ensures Noticed(sc)(Conversation(log, sc.remediation)[|Conversation(log[..p], sc.remediation)|])
  {
    NoSentinels(log, p);
    AgentEntry(sc, log, p);
    DiagnosisIsAccepted(sc, log, p);
    EntryIsHeard(log, sc.remediation, p);
  }

  /** The remediation agent hears an acceptable diagnosis, so it has proposed its plan. */
  lemma PlanIsSaid(sc: Scenario, log: seq<Entry>)
    requires Fits(sc) && Complete(sc, log)
    ensures Texts(Said(log, sc.remediation)) >= 1
  {
    MemoriesFit(sc);
    var p := DiagnosisIsSaid(sc, log);
    DiagnosisIsNoticed(sc, log, p);
    NobodyCrashes(sc, log, sc.remediation);
    var lines := Conversation(log, sc.remediation);
    RemediationPhases(sc, lines);
    NoticedMeansPlanned(sc, lines, Mind(Behaviour(sc), FRESH_REMEDIATION, lines), |Conversation(log[..p], sc.remediation)|);
    var task := CompleteTrace(sc, log, sc.remediation);
  }

  /** The client has read the plan and sent its approval. */
  lemma ApprovalIsSent(sc: Scenario, log: seq<Entry>) returns (p: nat)
    requires Fits(sc) && Complete(sc, log)
    ensures p < |log| && Sentinels(log[..p]) == 0 && log[p] == ClientEntry(sc, sc.approval)
  {
    PlanIsSaid(sc, log);
    ScriptIsDetermined(sc, log);
    p := ClientSaysNext(sc, log, 1);
  }

  /** When the plan is in the log, the remediation agent has noticed a diagnosis among the lines before it. */
  lemma PlanHasNoticed(sc: Scenario, log: seq<Entry>, p: nat)
    requires Fits(sc) && Spoken(sc, log) && AgentSays(log, p, sc.remediation, sc.plan)
    ensures First(Noticed(sc), Conversation(log[..p], sc.remediation), 0) < |Conversation(log[..p], sc.remediation)|
  {
    ContainsSomething(sc.plan, "REMEDIATION:");
    var u := SaidUpdate(sc, log, p);
    MemoriesFit(sc);
    RemediationPhases(sc, Conversation(log[..p], sc.remediation));
  }

  /** Something with `q` comes after the first with `p`. */
  predicate Succeeds<T>(p: T -> bool, q: T -> bool, xs: seq<T>) {
    First(p, xs, 0) < |xs| && First(q, xs, First(p, xs, 0) + 1) < |xs|
  }

  lemma FirstTwo<T>(p: T -> bool, q: T -> bool, xs: seq<T>, n: nat, m: nat)
    requires n < m < |xs| && p(xs[n]) && q(xs[m])
    ensures Succeeds(p, q, xs)
  {
    FirstIsEarliest(p, xs, 0, n);
    FirstIsEarliest(q, xs, First(p, xs, 0) + 1, m);
  }

  lemma NoticedBefore(sc: Scenario, log: seq<Entry>, p: nat) returns (n: nat)
    requires Fits(sc) && Legal(sc, log) && p < |log| && log[p] == ClientEntry(sc, sc.approval)
    ensures n < |Conversation(log[..p], sc.remediation)| && Noticed(sc)(Conversation(log[..p], sc.remediation)[n])
  {
    var q := ApprovalNeedsPlan(sc, log, p);
    PlanHasNoticed(sc, log, q);
    assert log[..p][..q] == log[..q];
    ConversationGrows(log[..p], sc.remediation, q);
    n := First(Noticed(sc), Conversation(log[..q], sc.remediation), 0);
  }

  lemma ApprovalIsHeard(sc: Scenario, log: seq<Entry>, p: nat)
    requires Fits(sc) && p < |log| && Sentinels(log[..p]) == 0 && log[p] == ClientEntry(sc, sc.approval)
    ensures Conversation(log[..p], sc.remediation) <= Conversation(log, sc.remediation)
    ensures |Conversation(log[..p], sc.remediation)| < |Conversation(log, sc.remediation)|
    ensures APPROVES(Conversation(log, sc.remediation)[|Conversation(log[..p], sc.remediation)|])
  {
    EntryIsHeard(log, sc.remediation, p);
    ClientLine(sc, sc.approval, sc.remediation);
  }

  lemma FirstWithin<T>(p: T -> bool, q: T -> bool, before: seq<T>, xs: seq<T>, n: nat)
    requires before <= xs && n < |before| < |xs| && p(before[n]) && q(xs[|before|])
    ensures Succeeds(p, q, xs)
  {
    FirstTwo(p, q, xs, n, |before|);
  }

  /** The approval reaches the remediation agent after it has proposed its plan, since it proposes the
      plan before the client can have read it; so the approval is not lost. */
  lemma ApprovalIsNotLost(sc: Scenario, log: seq<Entry>, p: nat)
    requires Fits(sc) && Legal(sc, log) && p < |log| && Sentinels(log[..p]) == 0 && log[p] == ClientEntry(sc, sc.approval)
    ensures Succeeds(Noticed(sc), APPROVES, Conversation(log, sc.remediation))
  {
    var n := NoticedBefore(sc, log, p);
    ApprovalIsHeard(sc, log, p);
    FirstWithin(Noticed(sc), APPROVES, Conversation(log[..p], sc.remediation), Conversation(log, sc.remediation), n);
  }

  lemma ApprovedIsExecuted(sc: Scenario, lines: seq<Line>, mind: Reaction<Memory>)
    requires InPhase(sc, lines, mind) && !mind.crashed && Succeeds(Noticed(sc), APPROVES, lines)
    ensures mind.updates == [Update(InputRequired, sc.plan), Update(Working, sc.executed)]
  {
  }

  lemma ExecutionIsSaid(sc: Scenario, log: seq<Entry>)
    requires Fits(sc) && Complete(sc, log)
    ensures Texts(Said(log, sc.remediation)) == 2
  {
    MemoriesFit(sc);
    var p := ApprovalIsSent(sc, log);
    ApprovalIsNotLost(sc, log, p);
    NobodyCrashes(sc, log, sc.remediation);
    var lines := Conversation(log, sc.remediation);
    RemediationPhases(sc, lines);
    ApprovedIsExecuted(sc, lines, Mind(Behaviour(sc), FRESH_REMEDIATION, lines));
    var task := CompleteTrace(sc, log, sc.remediation);
  }

  /** There is no complete log: somebody always has something left to say until the client closes. */
  lemma NothingIsComplete(sc: Scenario, log: seq<Entry>)
    requires Fits(sc)
    ensures !Complete(sc, log)
  {
    if Complete(sc, log) {
      ExecutionIsSaid(sc, log);
      ScriptIsDetermined(sc, log);
      var p := ClientSaysNext(sc, log, 2);
      assert false;
    }
  }
}
