/** The executors and the client as the loops they are. `inputs` is what an executor's input queue
    hands out, where a sentinel is its shutdown; `events` is what goes to its event queue. */
module AgentLoops {
  import opened Strings
  import opened Confidence
  import opened Scenarios
  import opened Options
  import opened Wire
  import opened Relay
  import opened Execution
  import opened Executors
  import opened Sessions
  import opened Incident

  lemma OneMore<M>(react: (M, Line) -> Reaction<M>, boot: Executor<M>, inputs: seq<Slot>, i: nat)
    requires i < |inputs|
    ensures Upto(react, boot, inputs[..i + 1]) == Receive(react, Upto(react, boot, inputs[..i]), inputs[i])
    ensures Events(react, boot, inputs[..i + 1]) == Events(react, boot, inputs[..i]) + Emit(react, Upto(react, boot, inputs[..i]), inputs[i])
  {
    assert inputs[..i + 1][..i] == inputs[..i];
  }

  /** One message: the task is opened if there is none, then come the updates, then the completion if
      the reaction crashed. */
  lemma OneMessage<M>(react: (M, Line) -> Reaction<M>, x: Executor<M>, msg: Message)
    requires !x.stopped
    ensures var task, reaction := TaskOf(x, msg), react(x.memory, LineOf(msg));
      && Receive(react, x, Item(MessageRequest(msg))) == Executor(x.name, reaction.memory, Some(task), reaction.crashed)
      && Emit(react, x, Item(MessageRequest(msg))) ==
           (if x.task.Some? then [] else [TaskResponse(task)])
           + UpdateResponses(x.name, task, reaction.updates)
           + (if reaction.crashed then [Completion(task)] else [])
  {
  }

  /** Nothing is emitted after the loop has ended. */
  lemma {:induction false} NothingAfterTheEnd<M>(react: (M, Line) -> Reaction<M>, boot: Executor<M>, inputs: seq<Slot>, i: nat)
    requires i <= |inputs| && Upto(react, boot, inputs[..i]).stopped
    ensures Upto(react, boot, inputs).stopped && Events(react, boot, inputs) == Events(react, boot, inputs[..i])
  {
    if i < |inputs| {
      var init := inputs[..|inputs| - 1];
      assert init[..i] == inputs[..i];
      NothingAfterTheEnd(react, boot, init, i);
    } else {
      assert inputs[..i] == inputs;
    }
  }

  /** The `finally` block: complete the task if there is one. */
  function FinalResponses(task: Option<Task>): seq<Response> {
    if task.Some? then [Completion(task.value)] else []
  }

  // The loop bodies: how each agent handles one message.

  method HearMonitoring(sc: Scenario, sender: string, text: string) returns (updates: seq<Update>)
    ensures Reaction(Monitoring, updates, false) == React(sc, Monitoring, Line(sender, text))
  {
    updates := [];
    if HasAnomaly(text) && sender != sc.monitoring {
      updates := [Update(Working, sc.metrics)];
    }
  }

  method HearLogger(sc: Scenario, sent: bool, sender: string, text: string) returns (logsSent: bool, updates: seq<Update>)
    ensures Reaction(Logger(logsSent), updates, false) == React(sc, Logger(sent), Line(sender, text))
  {
    logsSent, updates := sent, [];
    if !logsSent && HasAnomaly(text) && sender != sc.logger {
      logsSent := true;
      for k := 0 to |sc.logs|
        invariant updates == LogUpdates(sc.logs[..k])
      {
        updates := updates + [Update(Working, LogText(sc.logs[k]))];
      }
      assert sc.logs[..|sc.logs|] == sc.logs;
    }
  }

  lemma {:induction false} MatchesSnoc(signals: seq<Signal>, k: nat, line: string)
    requires k < |signals|
    ensures Matches(signals[..k + 1], line) ==
              Matches(signals[..k], line) + if Contains(Lower(line), Lower(signals[k].keyword)) then [signals[k]] else []
  {
    if k > 0 {
      assert signals[..k + 1][1..] == signals[1..][..k] && signals[..k][1..] == signals[1..][..k - 1];
      MatchesSnoc(signals[1..], k - 1, line);
    } else {
      assert signals[..1][1..] == [];
    }
  }

  lemma SaturateSnoc(confidence: Unit, signals: seq<Signal>, signal: Signal)
    ensures Saturate(confidence, signals + [signal]) == Cap(Saturate(confidence, signals) + signal.weight)
    ensures Descriptions(signals + [signal]) == Descriptions(signals) + [signal.description]
  {
    assert (signals + [signal])[..|signals|] == signals;
  }

  /** The loop over the signals: append what a matched keyword is evidence of and add its weight,
      never beyond one. */
  method Accumulate(signals: seq<Signal>, line: string, evidence0: seq<string>, confidence0: Unit)
    returns (evidence: seq<string>, confidence: Unit)
    ensures evidence == evidence0 + Descriptions(Matches(signals, line))
    ensures confidence == Saturate(confidence0, Matches(signals, line))
  {
    evidence, confidence := evidence0, confidence0;
    ghost var matched: seq<Signal> := [];
    for k := 0 to |signals|
      invariant matched == Matches(signals[..k], line)
      invariant evidence == evidence0 + Descriptions(matched)
      invariant confidence == Saturate(confidence0, matched)
    {
      MatchesSnoc(signals, k, line);
      if Contains(Lower(line), Lower(signals[k].keyword)) {
        SaturateSnoc(confidence0, matched, signals[k]);
        evidence := evidence + [signals[k].description];
        var sum: real := confidence + signals[k].weight;
        confidence := if sum < 1.0 then sum else 1.0;
        matched := matched + [signals[k]];
      }
    }
    assert signals[..|signals|] == signals;
  }

  method HearDiagnostics(sc: Scenario, evidence0: seq<string>, confidence0: Unit, sent: bool, sender: string, text: string)
    returns (evidence: seq<string>, confidence: Unit, diagnosisSent: bool, updates: seq<Update>)
    ensures Reaction(Diagnostics(evidence, confidence, diagnosisSent), updates, false)
         == React(sc, Diagnostics(evidence0, confidence0, sent), Line(sender, text))
  {
    evidence, confidence, diagnosisSent, updates := evidence0, confidence0, sent, [];
    if sender == sc.logger && StartsWith(text, "LOG:") {
      evidence, confidence := Accumulate(sc.logSignals, Strip(text[4..]), evidence, confidence);
    } else if sender == sc.monitoring && StartsWith(text, "METRICS:") {
      evidence, confidence := Accumulate(sc.metricsSignals, text, evidence, confidence);
    } else {
      return;
    }
    if confidence >= THRESHOLD && !diagnosisSent {
      diagnosisSent := true;
      updates := [Update(Working, DiagnosisText(sc, confidence, evidence))];
    }
  }

  method HearRemediation(sc: Scenario, sent: bool, awaiting: bool, sender: string, text: string)
    returns (remediationSent: bool, awaitingApproval: bool, updates: seq<Update>, crashed: bool)
    ensures Reaction(Remediation(remediationSent, awaitingApproval), updates, crashed)
         == React(sc, Remediation(sent, awaiting), Line(sender, text))
  {
    remediationSent, awaitingApproval, updates, crashed := sent, awaiting, [], false;
    if !remediationSent {
      if !StartsWith(text, "DIAGNOSIS") || sender != sc.diagnostics {
        return;
      }
      var reading := ReadConfidence(text);
      if reading == Malformed {
        // Converting the matched characters to a number raises an error.
        crashed := true;
        return;
      }
      var confidence := if reading.Number? then reading.value else 0.0;
      if confidence < THRESHOLD {
        return;
      }
      remediationSent := true;
      awaitingApproval := true;
      updates := [Update(InputRequired, sc.plan)];
    } else if awaitingApproval {
      if !HasApproved(text) {
        return;
      }
      awaitingApproval := false;
      updates := [Update(Working, sc.executed)];
    }
  }

  // The loops: open a task on the first message, handle every message, and complete the task when the
  // queue shuts down or handling a message raises an error.

  method RunMonitoring(sc: Scenario, inputs: seq<Slot>) returns (events: seq<Response>)
    ensures events == Events(Behaviour(sc), Boot(sc.monitoring, Monitoring), inputs)
  {
    ghost var react, boot := Behaviour(sc), Boot(sc.monitoring, Monitoring);
    var task: Option<Task> := None;
    events := [];
    for i := 0 to |inputs|
      invariant Upto(react, boot, inputs[..i]) == Executor(sc.monitoring, Monitoring, task, false)
      invariant events == Events(react, boot, inputs[..i])
    {
      OneMore(react, boot, inputs, i);
      if inputs[i] == Sentinel {
        events := events + FinalResponses(task);
        NothingAfterTheEnd(react, boot, inputs, i + 1);
        return;
      }
      if inputs[i].request.MessageRequest? {
        var msg, emitted: seq<Response> := inputs[i].request.message, [];
        OneMessage(react, Executor(sc.monitoring, Monitoring, task, false), msg);
        if task == None {
          task := Some(NewTask(msg));
          emitted := [TaskResponse(task.value)];
        }
        var updates := HearMonitoring(sc, GetMessageSender(msg), GetMessageText(msg));
        emitted := emitted + UpdateResponses(sc.monitoring, task.value, updates);
        events := events + emitted;
      }
    }
    assert inputs[..|inputs|] == inputs;
  }

  method RunLogger(sc: Scenario, inputs: seq<Slot>) returns (events: seq<Response>)
    ensures events == Events(Behaviour(sc), Boot(sc.logger, FRESH_LOGGER), inputs)
  {
    ghost var react, boot := Behaviour(sc), Boot(sc.logger, FRESH_LOGGER);
    var task: Option<Task>, logsSent := None, false;
    events := [];
    for i := 0 to |inputs|
      invariant Upto(react, boot, inputs[..i]) == Executor(sc.logger, Logger(logsSent), task, false)
      invariant events == Events(react, boot, inputs[..i])
    {
      OneMore(react, boot, inputs, i);
      if inputs[i] == Sentinel {
        events := events + FinalResponses(task);
        NothingAfterTheEnd(react, boot, inputs, i + 1);
        return;
      }
      if inputs[i].request.MessageRequest? {
        var msg, emitted: seq<Response> := inputs[i].request.message, [];
        OneMessage(react, Executor(sc.logger, Logger(logsSent), task, false), msg);
        if task == None {
          task := Some(NewTask(msg));
          emitted := [TaskResponse(task.value)];
        }
        var updates;
        logsSent, updates := HearLogger(sc, logsSent, GetMessageSender(msg), GetMessageText(msg));
        emitted := emitted + UpdateResponses(sc.logger, task.value, updates);
        events := events + emitted;
      }
    }
    assert inputs[..|inputs|] == inputs;
  }

  method RunDiagnostics(sc: Scenario, inputs: seq<Slot>) returns (events: seq<Response>)
    ensures events == Events(Behaviour(sc), Boot(sc.diagnostics, FRESH_DIAGNOSTICS), inputs)
  {
    ghost var react, boot := Behaviour(sc), Boot(sc.diagnostics, FRESH_DIAGNOSTICS);
    var task: Option<Task>, evidence: seq<string>, confidence: Unit, diagnosisSent := None, [], 0.0, false;
    events := [];
    for i := 0 to |inputs|
      invariant Upto(react, boot, inputs[..i]) == Executor(sc.diagnostics, Diagnostics(evidence, confidence, diagnosisSent), task, false)
      invariant events == Events(react, boot, inputs[..i])
    {
      OneMore(react, boot, inputs, i);
      if inputs[i] == Sentinel {
        events := events + FinalResponses(task);
        NothingAfterTheEnd(react, boot, inputs, i + 1);
        return;
      }
      if inputs[i].request.MessageRequest? {
        var msg, emitted: seq<Response> := inputs[i].request.message, [];
        OneMessage(react, Executor(sc.diagnostics, Diagnostics(evidence, confidence, diagnosisSent), task, false), msg);
        if task == None {
          task := Some(NewTask(msg));
          emitted := [TaskResponse(task.value)];
        }
        var updates;
        evidence, confidence, diagnosisSent, updates :=
          HearDiagnostics(sc, evidence, confidence, diagnosisSent, GetMessageSender(msg), GetMessageText(msg));
        emitted := emitted + UpdateResponses(sc.diagnostics, task.value, updates);
        events := events + emitted;
      }
    }
    assert inputs[..|inputs|] == inputs;
  }

  method RunRemediation(sc: Scenario, inputs: seq<Slot>) returns (events: seq<Response>)
    ensures events == Events(Behaviour(sc), Boot(sc.remediation, FRESH_REMEDIATION), inputs)
  {
    ghost var react, boot := Behaviour(sc), Boot(sc.remediation, FRESH_REMEDIATION);
    var task: Option<Task>, remediationSent, awaitingApproval := None, false, false;
    events := [];
    for i := 0 to |inputs|
      invariant Upto(react, boot, inputs[..i]) == Executor(sc.remediation, Remediation(remediationSent, awaitingApproval), task, false)
      invariant events == Events(react, boot, inputs[..i])
    {
      OneMore(react, boot, inputs, i);
      if inputs[i] == Sentinel {
        events := events + FinalResponses(task);
        NothingAfterTheEnd(react, boot, inputs, i + 1);
        return;
      }
      if inputs[i].request.MessageRequest? {
        var msg, emitted: seq<Response> := inputs[i].request.message, [];
        OneMessage(react, Executor(sc.remediation, Remediation(remediationSent, awaitingApproval), task, false), msg);
        if task == None {
          task := Some(NewTask(msg));
          emitted := [TaskResponse(task.value)];
        }
        var updates, crashed;
        remediationSent, awaitingApproval, updates, crashed :=
          HearRemediation(sc, remediationSent, awaitingApproval, GetMessageSender(msg), GetMessageText(msg));
        emitted := emitted + UpdateResponses(sc.remediation, task.value, updates);
        events := events + (emitted + if crashed then FinalResponses(task) else []);
        if crashed {
          NothingAfterTheEnd(react, boot, inputs, i + 1);
          return;
        }
      }
    }
    assert inputs[..|inputs|] == inputs;
  }

  /** The client's loop over what the transport hands it: its flag, and what it puts into its send
      queue, where nothing is the close signal. */
  method RunClient(sc: Scenario, responses: seq<Emission>) returns (approved: bool, sendQueue: seq<Option<Request>>)
    ensures Reply(approved, sendQueue) == Replies(Client(sc), responses)
  {
    approved, sendQueue := false, [];
    for i := 0 to |responses|
      invariant Reply(approved, sendQueue) == Replies(Client(sc), responses[..i])
    {
      assert responses[..i + 1][..i] == responses[..i];
      var name, response := responses[i].name, responses[i].response;
      if response.StatusResponse? {
        var text := ResponseText(response);
        ghost var before := sendQueue;
        if !approved && name == sc.remediation && Contains(text, "REMEDIATION:") {
          approved := true;
          sendQueue := sendQueue + [Some(MakeRequest(sc.approval))];
        }
        if name == sc.remediation && Contains(text, "REMEDIATION EXECUTED:") {
          sendQueue := sendQueue + [None];
        }
      }
    }
    assert responses[..|responses|] == responses;
  }
}
