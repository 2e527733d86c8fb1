/** The reactions of the four agents, and what they amount to over a whole conversation. */
module Executors {
  import opened Sequences
  import opened Strings
  import opened Confidence
  import opened Scenarios
  import opened Options
  import opened Wire
  import opened Relay
  import opened Execution

  datatype Memory =
    | Monitoring
    | Logger(logsSent: bool)
    | Diagnostics(evidence: seq<string>, confidence: Unit, diagnosisSent: bool)
    | Remediation(remediationSent: bool, awaitingApproval: bool)

  const FRESH_LOGGER := Logger(false)
  const FRESH_DIAGNOSTICS := Diagnostics([], 0.0, false)
  const FRESH_REMEDIATION := Remediation(false, false)

  function Cap(r: real): Unit
    requires r >= 0.0
  {
    if r <= 1.0 then r else 1.0
  }

  /** The confidence after adding the weights one by one, capped at one after each. */
  function Saturate(confidence: Unit, signals: seq<Signal>): Unit {
    if signals == [] then confidence
    else Cap(Saturate(confidence, signals[..|signals| - 1]) + signals[|signals| - 1].weight)
  }

  /** The signals a message carries for the diagnostics agent, or none if it does not count as
      evidence at all. */
  function EvidenceIn(sc: Scenario, line: Line): Option<seq<Signal>> {
    if line.sender == sc.logger && StartsWith(line.text, "LOG:") then
      Some(Matches(sc.logSignals, Strip(line.text[4..])))
    else if line.sender == sc.monitoring && StartsWith(line.text, "METRICS:") then
      Some(Matches(sc.metricsSignals, line.text))
    else None
  }

  predicate Alarms(line: Line, name: string) {
    HasAnomaly(line.text) && line.sender != name
  }

  function ReactMonitoring(sc: Scenario, line: Line): seq<Update> {
    if Alarms(line, sc.monitoring) then [Update(Working, sc.metrics)] else []
  }

  function LogUpdates(logs: seq<string>): seq<Update> {
    seq(|logs|, i requires 0 <= i < |logs| => Update(Working, LogText(logs[i])))
  }

  function ReactLogger(sc: Scenario, m: Memory, line: Line): Reaction<Memory>
    requires m.Logger?
  {
    if !m.logsSent && Alarms(line, sc.logger) then Reaction(Logger(true), LogUpdates(sc.logs), false)
    else Reaction(m, [], false)
  }

  function ReactDiagnostics(sc: Scenario, m: Memory, line: Line): Reaction<Memory>
    requires m.Diagnostics?
  {
    var found := EvidenceIn(sc, line);
    if found == None then Reaction(m, [], false)
    else
      var evidence := m.evidence + Descriptions(found.value);
      var confidence := Saturate(m.confidence, found.value);
      if confidence >= THRESHOLD && !m.diagnosisSent then
        Reaction(Diagnostics(evidence, confidence, true), [Update(Working, DiagnosisText(sc, confidence, evidence))], false)
      else Reaction(Diagnostics(evidence, confidence, m.diagnosisSent), [], false)
  }

  /** How the remediation agent reads a message before it has proposed a plan. */
  datatype Verdict = Ignored | Accepted | Broken

  function Judge(sc: Scenario, line: Line): Verdict {
    if !StartsWith(line.text, "DIAGNOSIS") || line.sender != sc.diagnostics then Ignored
    else
      match ReadConfidence(line.text)
      case Malformed => Broken
      case Absent => Ignored
      case Number(confidence) => if confidence < THRESHOLD then Ignored else Accepted
  }

  /** A diagnosis of the diagnostics agent that reads as confident enough to act on. */
  predicate IsConfident(sc: Scenario, line: Line) {
    && line.sender == sc.diagnostics && "DIAGNOSIS" <= line.text
    && ReadConfidence(line.text).Number? && ReadConfidence(line.text).value >= 0.7
  }

  function ReactRemediation(sc: Scenario, m: Memory, line: Line): Reaction<Memory>
    requires m.Remediation?
  {
    if !m.remediationSent then
      match Judge(sc, line)
      case Broken => Reaction(m, [], true)
      case Ignored => Reaction(m, [], false)
      case Accepted => Reaction(Remediation(true, true), [Update(InputRequired, sc.plan)], false)
    else if m.awaitingApproval && HasApproved(line.text) then
      Reaction(Remediation(true, false), [Update(Working, sc.executed)], false)
    else Reaction(m, [], false)
  }

  function React(sc: Scenario, m: Memory, line: Line): Reaction<Memory> {
    match m
    case Monitoring => Reaction(m, ReactMonitoring(sc, line), false)
    case Logger(_) => ReactLogger(sc, m, line)
    case Diagnostics(_, _, _) => ReactDiagnostics(sc, m, line)
    case Remediation(_, _) => ReactRemediation(sc, m, line)
  }

  function Behaviour(sc: Scenario): (Memory, Line) -> Reaction<Memory> {
    (m, line) => React(sc, m, line)
  }

  function NameOf(sc: Scenario, m: Memory): string {
    match m
    case Monitoring => sc.monitoring
    case Logger(_) => sc.logger
    case Diagnostics(_, _, _) => sc.diagnostics
    case Remediation(_, _) => sc.remediation
  }

  predicate IsFresh(m: Memory) {
    m == Monitoring || m == FRESH_LOGGER || m == FRESH_DIAGNOSTICS || m == FRESH_REMEDIATION
  }

  // Monitoring and log agent.

  function CountAlarms(lines: seq<Line>, name: string): nat {
    if lines == [] then 0
    else CountAlarms(lines[..|lines| - 1], name) + if Alarms(lines[|lines| - 1], name) then 1 else 0
  }

  /** The monitoring agent answers every alarm of somebody else with one metrics update, and nothing
      else with anything. */
  lemma {:induction false} MonitoringAnswersEveryAlarm(sc: Scenario, lines: seq<Line>)
    ensures var mind := Mind(Behaviour(sc), Monitoring, lines);
      && mind.memory == Monitoring && !mind.crashed
      && |mind.updates| == CountAlarms(lines, sc.monitoring)
      && forall u :: u in mind.updates ==> u == Update(Working, sc.metrics)
  {
    if lines != [] {
      MonitoringAnswersEveryAlarm(sc, lines[..|lines| - 1]);
    }
  }

  /** The log agent sends its lines once, on the first alarm of somebody else. */
  lemma {:induction false} LoggerSendsItsLinesOnce(sc: Scenario, lines: seq<Line>)
    ensures var mind := Mind(Behaviour(sc), FRESH_LOGGER, lines);
      && mind.memory == Logger(CountAlarms(lines, sc.logger) > 0) && !mind.crashed
      && mind.updates == if CountAlarms(lines, sc.logger) > 0 then LogUpdates(sc.logs) else []
  {
    if lines != [] {
      LoggerSendsItsLinesOnce(sc, lines[..|lines| - 1]);
    }
  }

  // Diagnostics.

  /** The signals a message adds to the evidence. */
  function NewSignals(sc: Scenario, line: Line): seq<Signal> {
    match EvidenceIn(sc, line) case None => [] case Some(signals) => signals
  }

  /** All signals matched in a conversation, in order. */
  function Found(sc: Scenario, lines: seq<Line>): seq<Signal> {
    if lines == [] then []
    else Found(sc, lines[..|lines| - 1]) + NewSignals(sc, lines[|lines| - 1])
  }

  function EvidenceTotal(sc: Scenario): seq<Line> -> real {
    lines => Total(Found(sc, lines))
  }

  lemma {:induction false} SaturateIsCappedTotal(before: seq<Signal>, more: seq<Signal>)
    ensures Total(before) >= 0.0 && Total(before + more) >= Total(before)
    ensures Saturate(Cap(Total(before)), more) == Cap(Total(before + more))
  {
    TotalNonnegative(before);
    TotalConcat(before, more);
    TotalNonnegative(more);
    if more == [] {
      assert before + more == before;
    } else {
      var init := more[..|more| - 1];
      SaturateIsCappedTotal(before, init);
      assert (before + more)[..|before + more| - 1] == before + init;
    }
  }

  lemma DescriptionsConcat(a: seq<Signal>, b: seq<Signal>)
    ensures Descriptions(a + b) == Descriptions(a) + Descriptions(b)
  {
  }

  /** What the diagnostics agent remembers once it has matched `signals`. */
  function DiagnosticsMemory(signals: seq<Signal>): Memory
    requires Total(signals) >= 0.0
  {
    Diagnostics(Descriptions(signals), Cap(Total(signals)), Total(signals) >= THRESHOLD)
  }

  function DiagnosisFor(sc: Scenario, signals: seq<Signal>): Update {
    Update(Working, DiagnosisText(sc, if Total(signals) >= 0.0 then Cap(Total(signals)) else 0.0, Descriptions(signals)))
  }

  function DiagnosisOn(sc: Scenario): seq<Line> -> Update {
    lines => DiagnosisFor(sc, Found(sc, lines))
  }

  /** One message in terms of the signals matched before and by it. */
  lemma DiagnosticsStep(sc: Scenario, before: seq<Signal>, line: Line)
    ensures Total(before) >= 0.0 && Total(before + NewSignals(sc, line)) >= Total(before)
    ensures var after := before + NewSignals(sc, line);
      React(sc, DiagnosticsMemory(before), line) ==
        Reaction(DiagnosticsMemory(after),
                 if Total(before) < THRESHOLD <= Total(after) then [DiagnosisFor(sc, after)] else [], false)
  {
    var more := NewSignals(sc, line);
    SaturateIsCappedTotal(before, more);
    DescriptionsConcat(before, more);
    assert EvidenceIn(sc, line) == None ==> before + more == before;
  }

  ghost predicate TallyStep(react: (Memory, Line) -> Reaction<Memory>, memoryOf: seq<Line> -> Memory,
                            total: seq<Line> -> real, answer: seq<Line> -> Update, xs: seq<Line>, x: Line) {
    && total(xs) <= total(xs + [x])
    && react(memoryOf(xs), x) ==
         Reaction(memoryOf(xs + [x]), if total(xs) < THRESHOLD <= total(xs + [x]) then [answer(xs + [x])] else [], false)
  }

  /** A reaction that keeps `memoryOf` and answers when `total` first reaches the threshold. */
  ghost predicate KeepsTally(react: (Memory, Line) -> Reaction<Memory>, memoryOf: seq<Line> -> Memory,
                             total: seq<Line> -> real, answer: seq<Line> -> Update) {
    forall xs, x :: TallyStep(react, memoryOf, total, answer, xs, x)
  }

  lemma {:induction false} TallyAnswersOnce(react: (Memory, Line) -> Reaction<Memory>, memoryOf: seq<Line> -> Memory,
                                            total: seq<Line> -> real, answer: seq<Line> -> Update, lines: seq<Line>)
    requires KeepsTally(react, memoryOf, total, answer) && total([]) < THRESHOLD
    ensures var mind := Mind(react, memoryOf([]), lines);
      !mind.crashed && mind.memory == memoryOf(lines) && AnswersOnce(total, THRESHOLD, answer, lines, mind.updates)
  {
    if lines != [] {
      var init, last := lines[..|lines| - 1], lines[|lines| - 1];
      TallyAnswersOnce(react, memoryOf, total, answer, init);
      assert lines == init + [last];
      assert TallyStep(react, memoryOf, total, answer, init, last);
      AnswersOnceStep(total, THRESHOLD, answer, init, last, Mind(react, memoryOf([]), init).updates);
      if total(init) < THRESHOLD {
        assert [] + [answer(lines)] == [answer(lines)];
      }
    }
  }

  function MemoryAfter(sc: Scenario): seq<Line> -> Memory {
    lines => if Total(Found(sc, lines)) >= 0.0 then DiagnosticsMemory(Found(sc, lines)) else FRESH_DIAGNOSTICS
  }

  lemma DiagnosticsTallies(sc: Scenario, xs: seq<Line>, x: Line)
    ensures TallyStep(Behaviour(sc), MemoryAfter(sc), EvidenceTotal(sc), DiagnosisOn(sc), xs, x)
  {
    var before, after := Found(sc, xs), Found(sc, xs) + NewSignals(sc, x);
    DiagnosticsStep(sc, before, x);
    assert (xs + [x])[..|xs|] == xs;
    assert Found(sc, xs + [x]) == after;
    assert MemoryAfter(sc)(xs) == DiagnosticsMemory(before) && MemoryAfter(sc)(xs + [x]) == DiagnosticsMemory(after);
    assert DiagnosisOn(sc)(xs + [x]) == DiagnosisFor(sc, after);
  }

  /** For every conversation the confidence is the total weight of the evidence capped at one, the
      evidence is what was matched, in order, and a diagnosis is sent exactly once, on the first
      message with which the total reaches the threshold, citing the evidence up to that message. */
  lemma DiagnosticsAccumulates(sc: Scenario, lines: seq<Line>)
    ensures Total(Found(sc, lines)) >= 0.0
    ensures var mind := Mind(Behaviour(sc), FRESH_DIAGNOSTICS, lines);
      && !mind.crashed
      && mind.memory == DiagnosticsMemory(Found(sc, lines))
      && AnswersOnce(EvidenceTotal(sc), THRESHOLD, DiagnosisOn(sc), lines, mind.updates)
  {
    TotalNonnegative(Found(sc, lines));
    assert Descriptions([]) == [];
    assert MemoryAfter(sc)([]) == FRESH_DIAGNOSTICS;
    forall xs: seq<Line>, x: Line
      ensures TallyStep(Behaviour(sc), MemoryAfter(sc), EvidenceTotal(sc), DiagnosisOn(sc), xs, x)
    {
      DiagnosticsTallies(sc, xs, x);
    }
    TallyAnswersOnce(Behaviour(sc), MemoryAfter(sc), EvidenceTotal(sc), DiagnosisOn(sc), lines);
  }

  function WeightOf(sc: Scenario): Line -> real {
    line => Total(NewSignals(sc, line))
  }

  lemma {:induction false} TotalIsSum(sc: Scenario, lines: seq<Line>)
    ensures Total(Found(sc, lines)) == SumBy(WeightOf(sc), lines)
  {
    if lines != [] {
      var init, last := lines[..|lines| - 1], lines[|lines| - 1];
      TotalIsSum(sc, init);
      TotalConcat(Found(sc, init), NewSignals(sc, last));
    }
  }

  /** The confidence does not depend on how the log lines, the metrics and other messages interleave. */
  lemma ConfidenceIgnoresOrder(sc: Scenario, one: seq<Line>, two: seq<Line>)
    requires multiset(one) == multiset(two)
    ensures var mind1, mind2 := Mind(Behaviour(sc), FRESH_DIAGNOSTICS, one), Mind(Behaviour(sc), FRESH_DIAGNOSTICS, two);
      && mind1.memory.Diagnostics? && mind2.memory.Diagnostics?
      && mind1.memory.confidence == mind2.memory.confidence
      && |mind1.updates| == |mind2.updates|
  {
    TotalIsSum(sc, one);
    TotalIsSum(sc, two);
    SumIgnoresOrder(WeightOf(sc), one, two);
    DiagnosticsAccumulates(sc, one);
    DiagnosticsAccumulates(sc, two);
  }

  // Remediation.

  function Noticed(sc: Scenario): Line -> bool {
    line => Judge(sc, line) != Ignored
  }

  function Breaks(sc: Scenario): Line -> bool {
    line => Judge(sc, line) == Broken
  }

  const APPROVES := (line: Line) => HasApproved(line.text)

  /** A remediation agent that has read `lines`. It is in one of four phases: nothing noticed yet; an
      unreadable diagnosis noticed first; the plan proposed and no approval since; the plan approved. */
  ghost predicate Phase(noticed: Line -> bool, breaks: Line -> bool, approves: Line -> bool, plan: Update, executed: Update,
                        lines: seq<Line>, mind: Reaction<Memory>) {
    var n := First(noticed, lines, 0);
    if n == |lines| then mind == Reaction(FRESH_REMEDIATION, [], false)
    else if breaks(lines[n]) then mind == Reaction(FRESH_REMEDIATION, [], true)
    else if First(approves, lines, n + 1) == |lines| then mind == Reaction(Remediation(true, true), [plan], false)
    else mind == Reaction(Remediation(true, false), [plan, executed], false)
  }

  ghost predicate InPhase(sc: Scenario, lines: seq<Line>, mind: Reaction<Memory>) {
    Phase(Noticed(sc), Breaks(sc), APPROVES, Update(InputRequired, sc.plan), Update(Working, sc.executed), lines, mind)
  }

  lemma PhaseUpdates(sc: Scenario, lines: seq<Line>, mind: Reaction<Memory>)
    requires InPhase(sc, lines, mind)
    ensures |mind.updates| <= 2
    ensures forall k :: 0 <= k < |mind.updates| ==> mind.updates[k].text == if k == 0 then sc.plan else sc.executed
  {
  }

  /** How one message moves the agent on. */
  ghost predicate Moves(noticed: Line -> bool, breaks: Line -> bool, approves: Line -> bool, plan: Update, executed: Update,
                        memory: Memory, line: Line, next: Reaction<Memory>) {
    && (memory == FRESH_REMEDIATION ==>
          next == if !noticed(line) then Reaction(memory, [], false)
                  else if breaks(line) then Reaction(memory, [], true)
                  else Reaction(Remediation(true, true), [plan], false))
    && (memory == Remediation(true, true) ==>
          next == if approves(line) then Reaction(Remediation(true, false), [executed], false) else Reaction(memory, [], false))
    && (memory == Remediation(true, false) ==> next == Reaction(memory, [], false))
  }

  lemma RemediationMoves(sc: Scenario, memory: Memory, line: Line)
    ensures Moves(Noticed(sc), Breaks(sc), APPROVES, Update(InputRequired, sc.plan), Update(Working, sc.executed),
                  memory, line, Behaviour(sc)(memory, line))
  {
  }

  /** One more message. */
  lemma PhaseStep(noticed: Line -> bool, breaks: Line -> bool, approves: Line -> bool, plan: Update, executed: Update,
                  lines: seq<Line>, line: Line, mind: Reaction<Memory>, next: Reaction<Memory>)
    requires Phase(noticed, breaks, approves, plan, executed, lines, mind)
    requires Moves(noticed, breaks, approves, plan, executed, mind.memory, line, next)
    ensures Phase(noticed, breaks, approves, plan, executed, lines + [line],
                  if mind.crashed then mind else Reaction(next.memory, mind.updates + next.updates, next.crashed))
  {
    var n := First(noticed, lines, 0);
    FirstSnoc(noticed, lines, line, 0);
    if n < |lines| {
      FirstSnoc(approves, lines, line, n + 1);
    }
  }

  ghost predicate AlwaysMoves(react: (Memory, Line) -> Reaction<Memory>, noticed: Line -> bool, breaks: Line -> bool,
                              approves: Line -> bool, plan: Update, executed: Update) {
    forall memory, line :: Moves(noticed, breaks, approves, plan, executed, memory, line, react(memory, line))
  }

  lemma {:induction false} PhasesGoOn(react: (Memory, Line) -> Reaction<Memory>, noticed: Line -> bool, breaks: Line -> bool,
                                      approves: Line -> bool, plan: Update, executed: Update, lines: seq<Line>)
    requires AlwaysMoves(react, noticed, breaks, approves, plan, executed)
    ensures Phase(noticed, breaks, approves, plan, executed, lines, Mind(react, FRESH_REMEDIATION, lines))
  {
    if lines != [] {
      var init, last := lines[..|lines| - 1], lines[|lines| - 1];
      PhasesGoOn(react, noticed, breaks, approves, plan, executed, init);
      assert lines == init + [last];
      MindSnoc(react, FRESH_REMEDIATION, init, last);
      var mind := Mind(react, FRESH_REMEDIATION, init);
      assert Moves(noticed, breaks, approves, plan, executed, mind.memory, last, react(mind.memory, last));
      PhaseStep(noticed, breaks, approves, plan, executed, init, last, mind, react(mind.memory, last));
    }
  }

  /** The plan is proposed exactly on the first message from the diagnostics agent whose confidence
      reaches the minimum, unless an unreadable one comes first, and executed exactly on the first
      approval after that; whoever sends it, an approval before the plan counts for nothing. */
  lemma RemediationPhases(sc: Scenario, lines: seq<Line>)
    ensures InPhase(sc, lines, Mind(Behaviour(sc), FRESH_REMEDIATION, lines))
  {
    var plan, executed := Update(InputRequired, sc.plan), Update(Working, sc.executed);
    forall memory, line
      ensures Moves(Noticed(sc), Breaks(sc), APPROVES, plan, executed, memory, line, Behaviour(sc)(memory, line))
    {
      RemediationMoves(sc, memory, line);
    }
    PhasesGoOn(Behaviour(sc), Noticed(sc), Breaks(sc), APPROVES, plan, executed, lines);
  }
}
