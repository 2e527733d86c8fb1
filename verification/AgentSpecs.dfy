/** What the four agents and the client do, said of the texts and senders they hear and of what they emit,
    and not in terms of the functions that model them. */
module AgentSpecs {
  import opened Sequences
  import opened Strings
  import opened Confidence
  import opened Scenarios
  import opened Options
  import opened Wire
  import opened Relay
  import opened Execution
  import opened Executors
  import opened AgentLoops
  import opened Sessions
  import opened Incident

  // Keywords.

  lemma AnomalyIs(text: string)
    ensures HasAnomaly(text) <==> OccursInAnyCase(text, "ANOMALY")
  {
    FoldedSearch(text, "ANOMALY");
    assert Upper("ANOMALY") == "ANOMALY";
  }

  lemma ApprovedIs(text: string)
    ensures HasApproved(text) <==> OccursInAnyCase(text, "APPROVED")
  {
    FoldedSearch(text, "APPROVED");
    assert Upper("APPROVED") == "APPROVED";
  }

  // Monitoring and log agent.

  /** A line of somebody other than `name` that speaks of an anomaly, in whatever case. */
  ghost function AlarmFor(name: string): Line -> bool {
    (line: Line) => line.sender != name && OccursInAnyCase(line.text, "ANOMALY")
  }

  function TheLine(line: Line): Line {
    line
  }

  lemma {:induction false} AlarmsArePicked(lines: seq<Line>, name: string)
    ensures CountAlarms(lines, name) == |Picked(AlarmFor(name), TheLine, lines)|
  {
    if lines != [] {
      AlarmsArePicked(lines[..|lines| - 1], name);
      AnomalyIs(lines[|lines| - 1].text);
    }
  }

  /** The monitoring agent answers each such line with the metrics, in a working status, and nothing else. */
  lemma MonitoringSpec(sc: Scenario, lines: seq<Line>)
    ensures exists alarms :: ListsSome(lines, AlarmFor(sc.monitoring), TheLine, alarms)
              && |Mind(Behaviour(sc), Monitoring, lines).updates| == |alarms|
    ensures !Mind(Behaviour(sc), Monitoring, lines).crashed
    ensures forall u :: u in Mind(Behaviour(sc), Monitoring, lines).updates ==> u.state == Working && u.text == sc.metrics
  {
    MonitoringAnswersEveryAlarm(sc, lines);
    AlarmsArePicked(lines, sc.monitoring);
    PickedIsListed(AlarmFor(sc.monitoring), TheLine, lines);
  }

  lemma {:induction false} AlarmedIff(lines: seq<Line>, name: string)
    ensures CountAlarms(lines, name) > 0 <==> exists k :: 0 <= k < |lines| && AlarmFor(name)(lines[k])
  {
    if lines != [] {
      var init, last := lines[..|lines| - 1], lines[|lines| - 1];
      AlarmedIff(init, name);
      AnomalyIs(last.text);
      if k :| 0 <= k < |lines| && AlarmFor(name)(lines[k]) {
        assert k < |init| ==> AlarmFor(name)(init[k]);
      }
      if k :| 0 <= k < |init| && AlarmFor(name)(init[k]) {
        assert AlarmFor(name)(lines[k]);
      }
    }
  }

  /** The log agent sends its lines, each after the same mark, once it has heard such a line, and only then. */
  lemma LoggerSpec(sc: Scenario, lines: seq<Line>)
    ensures var mind := Mind(Behaviour(sc), FRESH_LOGGER, lines);
      && !mind.crashed
      && if exists k :: 0 <= k < |lines| && AlarmFor(sc.logger)(lines[k]) then
           |mind.updates| == |sc.logs|
           && forall i :: 0 <= i < |sc.logs| ==> mind.updates[i].state == Working && mind.updates[i].text == "LOG: " + sc.logs[i]
         else mind.updates == []
  {
    LoggerSendsItsLinesOnce(sc, lines);
    AlarmedIff(lines, sc.logger);
  }

  // Diagnostics.

  /** A signal whose keyword occurs in a text, in whatever case. */
  ghost function OccursIn(text: string): Signal -> bool {
    (signal: Signal) => OccursInAnyCase(text, signal.keyword)
  }

  function TheSignal(signal: Signal): Signal {
    signal
  }

  lemma {:induction false} MatchesArePicked(signals: seq<Signal>, text: string)
    ensures Matches(signals, text) == Picked(OccursIn(text), TheSignal, signals)
  {
    if signals != [] {
      var n := |signals| - 1;
      MatchesArePicked(signals[..n], text);
      MatchesSnoc(signals, n, text);
      assert signals[..n + 1] == signals;
      FoldedSearch(text, signals[n].keyword);
    }
  }

  /** `text` without the blanks around it is `rest`. */
  predicate IsStripped(text: string, rest: string) {
    && (exists i, j :: 0 <= i <= j <= |text| && text[i..j] == rest && Blank(text[..i]) && Blank(text[j..]))
    && (rest != "" ==> !IsSpace(rest[0]) && !IsSpace(rest[|rest| - 1]))
  }

  lemma StripIsStripped(text: string)
    ensures IsStripped(text, Strip(text))
  {
    var before, after := StripIs(text);
    var i, j := |before|, |before| + |Strip(text)|;
    assert text[i..j] == Strip(text) && text[..i] == before && text[j..] == after;
  }

  /** What counts as evidence in one line: of the monitoring agent, after the mark for metrics, the metrics
      signals that occur in the text; of the log agent, after the mark for a log line, the log signals that
      occur in the rest without the blanks around it; each once and in list order. Of any other line nothing. */
  ghost predicate Adds(sc: Scenario, line: Line, signals: seq<Signal>) {
    && (line.sender == sc.monitoring && "METRICS:" <= line.text ==>
          ListsSome(sc.metricsSignals, OccursIn(line.text), TheSignal, signals))
    && (line.sender == sc.logger && "LOG:" <= line.text ==>
          exists rest :: IsStripped(line.text[4..], rest) && ListsSome(sc.logSignals, OccursIn(rest), TheSignal, signals))
    && (!(line.sender == sc.monitoring && "METRICS:" <= line.text) && !(line.sender == sc.logger && "LOG:" <= line.text) ==>
          signals == [])
  }

  lemma EvidenceSpec(sc: Scenario, line: Line)
    ensures Adds(sc, line, NewSignals(sc, line))
  {
    if line.sender == sc.logger && "LOG:" <= line.text {
      var rest := Strip(line.text[4..]);
      StripIsStripped(line.text[4..]);
      MatchesArePicked(sc.logSignals, rest);
      PickedIsListed(OccursIn(rest), TheSignal, sc.logSignals);
      assert line.text[0] == 'L';
    } else if line.sender == sc.monitoring && "METRICS:" <= line.text {
      MatchesArePicked(sc.metricsSignals, line.text);
      PickedIsListed(OccursIn(line.text), TheSignal, sc.metricsSignals);
    }
  }

  /** What line `k` adds stands between the cuts `k` and `k + 1`. */
  ghost predicate AddsBetween(sc: Scenario, lines: seq<Line>, signals: seq<Signal>, cuts: seq<nat>, k: nat)
    requires k < |lines| < |cuts|
  {
    cuts[k] <= cuts[k + 1] <= |signals| && Adds(sc, lines[k], signals[cuts[k]..cuts[k + 1]])
  }

  /** The signals of a conversation are those its lines add, line after line. */
  ghost predicate Gathered(sc: Scenario, lines: seq<Line>, signals: seq<Signal>, cuts: seq<nat>) {
    && |cuts| == |lines| + 1 && cuts[0] == 0 && cuts[|lines|] == |signals|
    && forall k :: 0 <= k < |lines| ==> AddsBetween(sc, lines, signals, cuts, k)
  }

  ghost predicate IsGathered(sc: Scenario, lines: seq<Line>, signals: seq<Signal>) {
    exists cuts :: Gathered(sc, lines, signals, cuts)
  }

  lemma StaysBetween(sc: Scenario, lines: seq<Line>, line: Line, signals: seq<Signal>, more: seq<Signal>, before: seq<nat>, k: nat)
    requires |before| == |lines| + 1 && k < |lines| && AddsBetween(sc, lines, signals, before, k)
    ensures AddsBetween(sc, lines + [line], signals + more, before + [|signals + more|], k)
  {
    var cuts := before + [|signals + more|];
    assert cuts[k] == before[k] && cuts[k + 1] == before[k + 1] && (lines + [line])[k] == lines[k];
    assert (signals + more)[before[k]..before[k + 1]] == signals[before[k]..before[k + 1]];
  }

  lemma AddsAtTheEnd(sc: Scenario, lines: seq<Line>, line: Line, signals: seq<Signal>, more: seq<Signal>, before: seq<nat>)
    requires |before| == |lines| + 1 && before[|lines|] == |signals| && Adds(sc, line, more)
    ensures AddsBetween(sc, lines + [line], signals + more, before + [|signals + more|], |lines|)
  {
    assert (signals + more)[|signals|..|signals + more|] == more;
  }

  lemma GatheredSnoc(sc: Scenario, lines: seq<Line>, line: Line, signals: seq<Signal>, more: seq<Signal>, before: seq<nat>)
    requires Gathered(sc, lines, signals, before) && Adds(sc, line, more)
    ensures Gathered(sc, lines + [line], signals + more, before + [|signals + more|])
  {
    forall k | 0 <= k < |lines|
      ensures AddsBetween(sc, lines + [line], signals + more, before + [|signals + more|], k)
    {
      StaysBetween(sc, lines, line, signals, more, before, k);
    }
    AddsAtTheEnd(sc, lines, line, signals, more, before);
  }

  lemma GatheredGrows(sc: Scenario, lines: seq<Line>, line: Line, signals: seq<Signal>, more: seq<Signal>)
    requires IsGathered(sc, lines, signals) && Adds(sc, line, more)
    ensures IsGathered(sc, lines + [line], signals + more)
  {
    var before :| Gathered(sc, lines, signals, before);
    GatheredSnoc(sc, lines, line, signals, more, before);
  }

  lemma NothingIsGathered(sc: Scenario)
    ensures IsGathered(sc, [], [])
  {
    assert Gathered(sc, [], [], [0]);
  }

  lemma {:induction false} FoundIsGathered(sc: Scenario, lines: seq<Line>)
    ensures IsGathered(sc, lines, Found(sc, lines))
  {
    if lines == [] {
      NothingIsGathered(sc);
    } else {
      var init, last := lines[..|lines| - 1], lines[|lines| - 1];
      FoundIsGathered(sc, init);
      EvidenceSpec(sc, last);
      GatheredGrows(sc, init, last, Found(sc, init), NewSignals(sc, last));
      assert lines == init + [last];
      assert Found(sc, lines) == Found(sc, init) + NewSignals(sc, last);
    }
  }

  /** `listed` holds each element of `all` once, in the order in which they first occur. */
  ghost predicate FirstsAt(all: seq<string>, listed: seq<string>, positions: seq<nat>) {
    && |positions| == |listed| && Rising(positions)
    && (forall i :: 0 <= i < |positions| ==>
          positions[i] < |all| && all[positions[i]] == listed[i] && forall k :: 0 <= k < positions[i] ==> all[k] != listed[i])
    && forall e :: e in all ==> e in listed
  }

  lemma {:induction false} DedupFirsts(all: seq<string>) returns (positions: seq<nat>)
    ensures FirstsAt(all, Dedup(all), positions)
  {
    if all == [] {
      positions := [];
    } else {
      var init, last := all[..|all| - 1], all[|all| - 1];
      assert all == init + [last];
      positions := DedupFirsts(init);
      if last !in init {
        positions := positions + [|init|];
      }
    }
  }

  /** A diagnosis: the confidence to one decimal, the cause, and each piece of evidence once, in the order in
      which they were first found. */
  ghost predicate IsDiagnosis(sc: Scenario, text: string, confidence: Unit, evidence: seq<string>) {
    exists listed, positions ::
      && FirstsAt(evidence, listed, positions)
      && text == "DIAGNOSIS (confidence: " + Format(confidence) + ")" + sc.cause + Join("; ", listed) + "."
  }

  lemma DiagnosisJoins(number: string, cause: string, list: string)
    ensures "DIAGNOSIS (" + "confidence: " + number + ")" + (cause + (list + "."))
         == "DIAGNOSIS (confidence: " + number + ")" + cause + list + "."
  {
    assert "DIAGNOSIS (" + "confidence: " == "DIAGNOSIS (confidence: ";
  }

  lemma DiagnosisIs(sc: Scenario, confidence: Unit, evidence: seq<string>)
    ensures IsDiagnosis(sc, DiagnosisText(sc, confidence, evidence), confidence, evidence)
  {
    var positions := DedupFirsts(evidence);
    var list := Join("; ", Dedup(evidence));
    DiagnosisJoins(Format(confidence), sc.cause, list);
    assert FirstsAt(evidence, Dedup(evidence), positions);
  }

  /** The text cites what was found in the first `n` lines, which are the fewest that weigh 0.7. */
  ghost predicate DiagnosedOn(sc: Scenario, lines: seq<Line>, n: nat, text: string) {
    && 0 < n <= |lines|
    && var total := Total(Found(sc, lines[..n]));
       && total >= 0.7 && (forall k :: 0 <= k < n ==> Total(Found(sc, lines[..k])) < 0.7)
       && IsDiagnosis(sc, text, if total <= 1.0 then total else 1.0, Descriptions(Found(sc, lines[..n])))
  }

  lemma DiagnosedText(sc: Scenario, lines: seq<Line>, n: nat)
    requires FirstReaches(EvidenceTotal(sc), THRESHOLD, lines, n)
    ensures DiagnosedOn(sc, lines, n, DiagnosisOn(sc)(lines[..n]).text)
  {
    var found := Found(sc, lines[..n]);
    assert EvidenceTotal(sc)(lines[..n]) == Total(found);
    assert forall k :: 0 <= k < n ==> EvidenceTotal(sc)(lines[..k]) == Total(Found(sc, lines[..k]));
    DiagnosisIs(sc, Cap(Total(found)), Descriptions(found));
  }

  lemma DiagnosticsRemembers(sc: Scenario, lines: seq<Line>)
    ensures var mind, signals, total := Mind(Behaviour(sc), FRESH_DIAGNOSTICS, lines), Found(sc, lines), Total(Found(sc, lines));
      && !mind.crashed && mind.memory.Diagnostics?
      && mind.memory.confidence == (if total <= 1.0 then total else 1.0)
      && |mind.memory.evidence| == |signals| && (forall i :: 0 <= i < |signals| ==> mind.memory.evidence[i] == signals[i].description)
  {
    DiagnosticsAccumulates(sc, lines);
  }

  lemma DiagnosticsDiagnoses(sc: Scenario, lines: seq<Line>)
    ensures var mind, total := Mind(Behaviour(sc), FRESH_DIAGNOSTICS, lines), Total(Found(sc, lines));
      && (total < 0.7 ==> mind.updates == [])
      && (total >= 0.7 ==> |mind.updates| == 1 && mind.updates[0].state == Working && exists n :: DiagnosedOn(sc, lines, n, mind.updates[0].text))
  {
    DiagnosticsAccumulates(sc, lines);
    var mind := Mind(Behaviour(sc), FRESH_DIAGNOSTICS, lines);
    if Total(Found(sc, lines)) >= 0.7 {
      var n: nat :| FirstReaches(EvidenceTotal(sc), THRESHOLD, lines, n) && mind.updates == [DiagnosisOn(sc)(lines[..n])];
      DiagnosedText(sc, lines, n);
    }
  }

  /** For every conversation: the evidence is what the lines add, in order; the confidence is its weight, but at
      most one; and there is no diagnosis as long as the weight is below 0.7, and one from then on, made on the
      first prefix whose weight reaches it. */
  lemma DiagnosticsSpec(sc: Scenario, lines: seq<Line>)
    ensures var mind, signals, total := Mind(Behaviour(sc), FRESH_DIAGNOSTICS, lines), Found(sc, lines), Total(Found(sc, lines));
      && !mind.crashed && mind.memory.Diagnostics?
      && IsGathered(sc, lines, signals)
      && mind.memory.confidence == (if total <= 1.0 then total else 1.0)
      && |mind.memory.evidence| == |signals| && (forall i :: 0 <= i < |signals| ==> mind.memory.evidence[i] == signals[i].description)
      && (total < 0.7 ==> mind.updates == [])
      && (total >= 0.7 ==> |mind.updates| == 1 && mind.updates[0].state == Working && exists n :: DiagnosedOn(sc, lines, n, mind.updates[0].text))
  {
    DiagnosticsRemembers(sc, lines);
    DiagnosticsDiagnoses(sc, lines);
    FoundIsGathered(sc, lines);
  }

  // Remediation.

  /** A diagnosis of the diagnostics agent whose confidence is no number. */
  predicate IsUnreadable(sc: Scenario, line: Line) {
    line.sender == sc.diagnostics && "DIAGNOSIS" <= line.text && ReadConfidence(line.text) == Malformed
  }

  /** Line `k` is the first confident diagnosis, and none before it is unreadable. */
  ghost predicate ActsOn(sc: Scenario, lines: seq<Line>, k: nat) {
    k < |lines| && IsConfident(sc, lines[k]) && forall i :: 0 <= i < k ==> !IsConfident(sc, lines[i]) && !IsUnreadable(sc, lines[i])
  }

  /** Line `k` is unreadable, and none before it is confident. */
  ghost predicate FailsOn(sc: Scenario, lines: seq<Line>, k: nat) {
    k < |lines| && IsUnreadable(sc, lines[k]) && forall i :: 0 <= i < k ==> !IsConfident(sc, lines[i]) && !IsUnreadable(sc, lines[i])
  }

  /** Line `k` is acted on, and a later line grants an approval, in whatever case. */
  ghost predicate ApprovedAfter(sc: Scenario, lines: seq<Line>, k: nat, j: nat) {
    ActsOn(sc, lines, k) && k < j < |lines| && OccursInAnyCase(lines[j].text, "APPROVED")
  }

  lemma JudgeIs(sc: Scenario, line: Line)
    ensures Judge(sc, line) == Accepted <==> IsConfident(sc, line)
    ensures Judge(sc, line) == Broken <==> IsUnreadable(sc, line)
    ensures Noticed(sc)(line) <==> IsConfident(sc, line) || IsUnreadable(sc, line)
    ensures Breaks(sc)(line) <==> IsUnreadable(sc, line)
    ensures APPROVES(line) <==> OccursInAnyCase(line.text, "APPROVED")
  {
    ApprovedIs(line.text);
  }

  lemma NoticedIsFirst(sc: Scenario, lines: seq<Line>, k: nat)
    requires ActsOn(sc, lines, k) || FailsOn(sc, lines, k)
    ensures k == First(Noticed(sc), lines, 0)
  {
    var n := First(Noticed(sc), lines, 0);
    JudgeIs(sc, lines[k]);
    if n < k {
      JudgeIs(sc, lines[n]);
    }
  }

  lemma FirstNoticed(sc: Scenario, lines: seq<Line>)
    ensures var n := First(Noticed(sc), lines, 0);
      && (ActsOn(sc, lines, n) <==> n < |lines| && !Breaks(sc)(lines[n]))
      && (FailsOn(sc, lines, n) <==> n < |lines| && Breaks(sc)(lines[n]))
  {
    var n := First(Noticed(sc), lines, 0);
    forall i | 0 <= i < n
      ensures !IsConfident(sc, lines[i]) && !IsUnreadable(sc, lines[i])
    {
      JudgeIs(sc, lines[i]);
    }
    if n < |lines| {
      JudgeIs(sc, lines[n]);
    }
  }

  /** The agent sends its plan, asking for input, exactly if there is a confident diagnosis with no unreadable
      one before it; it executes exactly if an approval comes after that, from whomever; and it raises an
      error exactly if an unreadable diagnosis comes first. It says nothing else. */
  lemma RemediationSpec(sc: Scenario, lines: seq<Line>)
    ensures var mind := Mind(Behaviour(sc), FRESH_REMEDIATION, lines);
      && (mind.crashed <==> exists k: nat :: FailsOn(sc, lines, k))
      && (mind.updates != [] <==> exists k: nat :: ActsOn(sc, lines, k))
      && (|mind.updates| > 1 <==> exists k: nat, j: nat :: ApprovedAfter(sc, lines, k, j))
      && |mind.updates| <= 2
      && (mind.updates != [] ==> mind.updates[0].state == InputRequired && mind.updates[0].text == sc.plan)
      && (|mind.updates| > 1 ==> mind.updates[1].state == Working && mind.updates[1].text == sc.executed)
  {
    RemediationPhases(sc, lines);
    FirstNoticed(sc, lines);
    forall k: nat | ActsOn(sc, lines, k) || FailsOn(sc, lines, k)
      ensures k == First(Noticed(sc), lines, 0)
    {
      NoticedIsFirst(sc, lines, k);
    }
    var n := First(Noticed(sc), lines, 0);
    if n < |lines| {
      var m := First(APPROVES, lines, n + 1);
      forall line: Line
        ensures APPROVES(line) <==> OccursInAnyCase(line.text, "APPROVED")
      {
        JudgeIs(sc, line);
      }
      if m < |lines| && ActsOn(sc, lines, n) {
        assert ApprovedAfter(sc, lines, n, m);
      }
      if k: nat, j: nat :| ApprovedAfter(sc, lines, k, j) {
        assert k == n && APPROVES(lines[j]);
      }
    }
  }

  // Completion.

  /** Updates of which none says that the task is completed: working, or asking for input with the plan. */
  predicate Open(sc: Scenario, updates: seq<Update>) {
    forall u :: u in updates ==> u.state == Working || (u.state == InputRequired && u.text == sc.plan)
  }

  lemma MonitoringIsOpen(sc: Scenario, lines: seq<Line>)
    ensures Open(sc, Mind(Behaviour(sc), Monitoring, lines).updates)
  {
    MonitoringSpec(sc, lines);
  }

  lemma LoggerIsOpen(sc: Scenario, lines: seq<Line>)
    ensures Open(sc, Mind(Behaviour(sc), FRESH_LOGGER, lines).updates)
  {
    LoggerSpec(sc, lines);
  }

  lemma DiagnosticsIsOpen(sc: Scenario, lines: seq<Line>)
    ensures Open(sc, Mind(Behaviour(sc), FRESH_DIAGNOSTICS, lines).updates)
  {
    DiagnosticsAccumulates(sc, lines);
  }

  lemma PlanIsOpen(sc: Scenario, updates: seq<Update>)
    requires |updates| <= 2
    requires updates != [] ==> updates[0].state == InputRequired && updates[0].text == sc.plan
    requires |updates| > 1 ==> updates[1].state == Working
    ensures Open(sc, updates)
  {
  }

  lemma RemediationIsOpen(sc: Scenario, lines: seq<Line>)
    ensures Open(sc, Mind(Behaviour(sc), FRESH_REMEDIATION, lines).updates)
  {
    RemediationSpec(sc, lines);
    PlanIsOpen(sc, Mind(Behaviour(sc), FRESH_REMEDIATION, lines).updates);
  }

  lemma UpdatesAreOpen(sc: Scenario, m: Memory, lines: seq<Line>)
    requires IsFresh(m)
    ensures Open(sc, Mind(Behaviour(sc), m, lines).updates)
  {
    MonitoringIsOpen(sc, lines);
    LoggerIsOpen(sc, lines);
    DiagnosticsIsOpen(sc, lines);
    RemediationIsOpen(sc, lines);
  }

  /** Each of the four agents, on every sequence of inputs, says exactly once that its task was completed, at
      the end and under the ids it announced, if it has heard a message and its loop has ended, and else never. */
  lemma AgentCompletesOnce(sc: Scenario, m: Memory, slots: seq<Slot>)
    requires IsFresh(m)
    ensures var name, messages := NameOf(sc, m), Heard(slots);
      var mind := Mind(Behaviour(sc), m, Lines(messages));
      var events, ended := Events(Behaviour(sc), Boot(name, m), slots), Sentinel in slots || mind.crashed;
      && ReadsAs(name, messages, mind.updates, ended, events)
      && CompletedCount(events) == if messages != [] && ended then 1 else 0
  {
    var name, messages := NameOf(sc, m), Heard(slots);
    var mind := Mind(Behaviour(sc), m, Lines(messages));
    EventsRead(Behaviour(sc), name, m, slots);
    UpdatesAreOpen(sc, m, Lines(messages));
    CompletedOnce(name, messages, mind.updates, Sentinel in slots || mind.crashed, Events(Behaviour(sc), Boot(name, m), slots));
  }

  // The client.

  /** A status of the remediation agent whose text holds the pattern as it is. */
  predicate Reports(sc: Scenario, e: Emission, pattern: string) {
    && e.name == sc.remediation && e.response.StatusResponse? && e.response.status.message.Some?
    && Contains(GetMessageText(e.response.status.message.value), pattern)
  }

  function Executions(sc: Scenario): Emission -> bool {
    (e: Emission) => Reports(sc, e, "REMEDIATION EXECUTED:")
  }

  function TheEmission(e: Emission): Emission {
    e
  }

  function Closes(n: nat): seq<Option<Request>> {
    seq(n, i => None)
  }

  /** A message of the user with the text, and nothing else in it. */
  predicate IsRequest(request: Request, text: string) {
    && request.MessageRequest? && request.message.role == UserRole && request.message.parts == [TextPart(text)]
    && request.message.metadata == map[] && request.message.taskId == "" && request.message.contextId == ""
  }

  /** The first `k` responses hold no plan, and the one after them, if any, is one. */
  predicate FirstPlanAt(sc: Scenario, es: seq<Emission>, k: nat) {
    k <= |es| && (forall i :: 0 <= i < k ==> !Reports(sc, es[i], "REMEDIATION:")) && (k < |es| ==> Reports(sc, es[k], "REMEDIATION:"))
  }

  /** How many responses report an execution. */
  function Executed(sc: Scenario, es: seq<Emission>): nat {
    |Picked(Executions(sc), TheEmission, es)|
  }

  /** What the client puts: a close for every execution reported, and at the first plan, before the close if
      that reports an execution as well, one approval. */
  ghost predicate PutsFor(sc: Scenario, es: seq<Emission>, puts: seq<Option<Request>>, k: nat) {
    && FirstPlanAt(sc, es, k)
    && if k == |es| then puts == Closes(Executed(sc, es))
       else
         var early, all := Executed(sc, es[..k]), Executed(sc, es);
         && early <= all && |puts| == all + 1
         && puts[..early] == Closes(early) && puts[early].Some? && IsRequest(puts[early].value, sc.approval)
         && puts[early + 1..] == Closes(all - early)
  }

  lemma NothingReported(sc: Scenario, e: Emission)
    requires e.response.StatusResponse? && e.response.status.message == None
    ensures Client(sc)(true, e) == Reply(true, []) && Client(sc)(false, e) == Reply(false, [])
  {
    LacksCharacter("", "REMEDIATION:", "REMEDIATION:"[0]);
    LacksCharacter("", "REMEDIATION EXECUTED:", "REMEDIATION EXECUTED:"[0]);
  }

  /** The reply to one response. */
  lemma ReplyIs(sc: Scenario, approved: bool, e: Emission)
    ensures var approves, closes := !approved && Reports(sc, e, "REMEDIATION:"), Reports(sc, e, "REMEDIATION EXECUTED:");
      && Client(sc)(approved, e).approved == (approved || approves)
      && Client(sc)(approved, e).puts ==
           (if approves then [Some(MakeRequest(sc.approval))] else []) + Closes(if closes then 1 else 0)
  {
    assert Closes(1) == [None] && Closes(0) == [];
    if e.response.StatusResponse? && e.response.status.message == None {
      NothingReported(sc, e);
    }
  }

  lemma ClosesAdd(a: nat, b: nat)
    ensures Closes(a) + Closes(b) == Closes(a + b)
  {
  }

  lemma ExecutedSnoc(sc: Scenario, es: seq<Emission>, e: Emission)
    ensures Executed(sc, es + [e]) == Executed(sc, es) + if Reports(sc, e, "REMEDIATION EXECUTED:") then 1 else 0
  {
    PickedSnoc(Executions(sc), TheEmission, es, e);
  }

  /** One more response, while no plan has been handed over: if it is one, the approval goes out. */
  lemma PutsApproval(sc: Scenario, es: seq<Emission>, e: Emission, puts: seq<Option<Request>>, approval: Request)
    requires PutsFor(sc, es, puts, |es|) && IsRequest(approval, sc.approval)
    ensures var closes := Closes(if Reports(sc, e, "REMEDIATION EXECUTED:") then 1 else 0);
      if Reports(sc, e, "REMEDIATION:") then PutsFor(sc, es + [e], puts + ([Some(approval)] + closes), |es|)
      else PutsFor(sc, es + [e], puts + closes, |es| + 1)
  {
    var more := if Reports(sc, e, "REMEDIATION EXECUTED:") then 1 else 0;
    ExecutedSnoc(sc, es, e);
    ClosesAdd(Executed(sc, es), more);
    assert (es + [e])[..|es|] == es;
    if Reports(sc, e, "REMEDIATION:") {
      var all := puts + ([Some(approval)] + Closes(more));
      assert all[..|puts|] == puts && all[|puts|] == Some(approval) && all[|puts| + 1..] == Closes(more);
    }
  }

  lemma PutsMore(sc: Scenario, es: seq<Emission>, e: Emission, puts: seq<Option<Request>>, k: nat)
    requires PutsFor(sc, es, puts, k) && k < |es|
    ensures PutsFor(sc, es + [e], puts + Closes(if Reports(sc, e, "REMEDIATION EXECUTED:") then 1 else 0), k)
  {
    var more := if Reports(sc, e, "REMEDIATION EXECUTED:") then 1 else 0;
    var early, all, longer := Executed(sc, es[..k]), Executed(sc, es), puts + Closes(more);
    ExecutedSnoc(sc, es, e);
    ClosesAdd(all - early, more);
    assert (es + [e])[..k] == es[..k];
    assert longer[..early] == puts[..early] && longer[early + 1..] == puts[early + 1..] + Closes(more);
  }

  lemma ClientGoesOn(sc: Scenario, es: seq<Emission>, e: Emission, before: Reply, k: nat) returns (now: nat)
    requires PutsFor(sc, es, before.puts, k) && (before.approved <==> k < |es|)
    ensures PutsFor(sc, es + [e], before.puts + Client(sc)(before.approved, e).puts, now)
    ensures Client(sc)(before.approved, e).approved <==> now < |es| + 1
  {
    var closes := Closes(if Reports(sc, e, "REMEDIATION EXECUTED:") then 1 else 0);
    ReplyIs(sc, before.approved, e);
    assert [] + closes == closes;
    if k < |es| {
      now := k;
      PutsMore(sc, es, e, before.puts, k);
    } else {
      now := if Reports(sc, e, "REMEDIATION:") then |es| else |es| + 1;
      PutsApproval(sc, es, e, before.puts, MakeRequest(sc.approval));
    }
  }

  /** For every sequence of responses the client approves exactly if one of them is a plan. */
  lemma {:induction false} ClientSpec(sc: Scenario, es: seq<Emission>) returns (k: nat)
    ensures PutsFor(sc, es, Replies(Client(sc), es).puts, k)
    ensures Replies(Client(sc), es).approved <==> k < |es|
  {
    if es == [] {
      k := 0;
      assert Closes(0) == [];
    } else {
      var init, last := es[..|es| - 1], es[|es| - 1];
      k := ClientSpec(sc, init);
      k := ClientGoesOn(sc, init, last, Replies(Client(sc), init), k);
      assert es == init + [last];
    }
  }
}
