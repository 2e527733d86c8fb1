/** An executor that hears its own messages again: over the group channel every agent's output comes
    back to it. */
module EchoedStreams {
  import opened Options
  import opened Wire
  import opened Relay
  import opened Execution
  import opened Multicast

  /** The same output and the same state on two input streams. */
  ghost predicate SameBehaviour<M>(react: (M, Line) -> Reaction<M>, name: string, m: M, one: seq<Slot>, two: seq<Slot>) {
    && Events(react, Boot(name, m), one) == Events(react, Boot(name, m), two)
    && Upto(react, Boot(name, m), one) == Upto(react, Boot(name, m), two)
  }

  /** The echo of something emitted is forwarded, and receiving it emits nothing and changes nothing. */
  ghost predicate IgnoresEcho<M>(react: (M, Line) -> Reaction<M>, name: string, m: M, slots: seq<Slot>, response: Response) {
    var x := Upto(react, Boot(name, m), slots);
    && Translate(response, name).Some?
    && Receive(react, x, Item(Translate(response, name).value)) == x
    && Emit(react, x, Item(Translate(response, name).value)) == []
  }

  ghost predicate DeafToItself<M(!new)>(react: (M, Line) -> Reaction<M>, name: string, m: M) {
    forall slots, response :: response in Events(react, Boot(name, m), slots) ==> IgnoresEcho(react, name, m, slots, response)
  }

  lemma SameSnoc<M>(react: (M, Line) -> Reaction<M>, name: string, m: M, one: seq<Slot>, two: seq<Slot>, slot: Slot)
    requires SameBehaviour(react, name, m, one, two)
    ensures SameBehaviour(react, name, m, one + [slot], two + [slot])
  {
    assert (one + [slot])[..|one|] == one && (two + [slot])[..|two|] == two;
  }

  lemma EchoSnoc<M(!new)>(react: (M, Line) -> Reaction<M>, name: string, m: M, one: seq<Slot>, two: seq<Slot>, response: Response)
    requires DeafToItself(react, name, m) && SameBehaviour(react, name, m, one, two)
    requires response in Events(react, Boot(name, m), one)
    ensures Translate(response, name).Some?
    ensures SameBehaviour(react, name, m, one + [Item(Translate(response, name).value)], two)
  {
    assert IgnoresEcho(react, name, m, one, response);
    assert (one + [Item(Translate(response, name).value)])[..|one|] == one;
  }

  /** An input to an agent: something new, or the echo of its `k`-th emission so far. */
  datatype Input = Genuine(slot: Slot) | Echo(k: nat)

  function WithEchoes<M>(react: (M, Line) -> Reaction<M>, name: string, m: M, inputs: seq<Input>): seq<Slot> {
    if inputs == [] then []
    else
      var before := WithEchoes(react, name, m, inputs[..|inputs| - 1]);
      var said := Events(react, Boot(name, m), before);
      match inputs[|inputs| - 1]
      case Genuine(slot) => before + [slot]
      case Echo(k) =>
        if k < |said| && Translate(said[k], name).Some? then before + [Item(Translate(said[k], name).value)] else before
  }

  function GenuineOnly(inputs: seq<Input>): seq<Slot> {
    if inputs == [] then []
    else GenuineOnly(inputs[..|inputs| - 1]) + if inputs[|inputs| - 1].Genuine? then [inputs[|inputs| - 1].slot] else []
  }

  lemma {:induction false} InsertedEchoes<M(!new)>(react: (M, Line) -> Reaction<M>, name: string, m: M, inputs: seq<Input>)
    requires DeafToItself(react, name, m)
    ensures SameBehaviour(react, name, m, WithEchoes(react, name, m, inputs), GenuineOnly(inputs))
  {
    if inputs != [] {
      var init := inputs[..|inputs| - 1];
      InsertedEchoes(react, name, m, init);
      var before, genuine := WithEchoes(react, name, m, init), GenuineOnly(init);
      match inputs[|inputs| - 1]
      case Genuine(slot) => SameSnoc(react, name, m, before, genuine, slot);
      case Echo(k) =>
        assert genuine + [] == genuine;
        var said := Events(react, Boot(name, m), before);
        if k < |said| {
          EchoSnoc(react, name, m, before, genuine, said[k]);
        }
    }
  }

  /** Every entry of this agent in the log is the translation of something it emitted on the part of
      the merged stream before it. */
  ghost predicate SpeaksForItself<M>(react: (M, Line) -> Reaction<M>, name: string, m: M, log: seq<Entry>) {
    log == [] ||
    (var init, last := log[..|log| - 1], log[|log| - 1];
     && SpeaksForItself(react, name, m, init)
     && (last.FromAgent? && last.name == name ==>
           && last.forwarded == Translate(last.response, name)
           && last.response in Events(react, Boot(name, m), Merged(init))))
  }

  /** One more entry: the agent's own comes back to it as an echo, any other comes as it is. */
  lemma EntryKeepsSame<M(!new)>(react: (M, Line) -> Reaction<M>, name: string, m: M, merged: seq<Slot>, own: seq<Slot>, entry: Entry)
    requires DeafToItself(react, name, m) && SameBehaviour(react, name, m, merged, own)
    requires entry.FromAgent? && entry.name == name ==>
               entry.forwarded == Translate(entry.response, name) && entry.response in Events(react, Boot(name, m), merged)
    ensures SameBehaviour(react, name, m, merged + MergedContribution(entry), own + Contribution(entry, name))
  {
    assert own + [] == own;
    if entry.FromAgent? && entry.name == name {
      EchoSnoc(react, name, m, merged, own, entry.response);
    } else if MergedContribution(entry) == [] {
      assert merged + [] == merged;
    } else {
      SameSnoc(react, name, m, merged, own, MergedContribution(entry)[0]);
    }
  }

  lemma {:induction false} MergedStreamIsProjection<M(!new)>(react: (M, Line) -> Reaction<M>, name: string, m: M, log: seq<Entry>)
    requires DeafToItself(react, name, m) && SpeaksForItself(react, name, m, log)
    ensures SameBehaviour(react, name, m, Merged(log), Projection(log, name))
  {
    if log != [] {
      var init, last := log[..|log| - 1], log[|log| - 1];
      MergedStreamIsProjection(react, name, m, init);
      EntryKeepsSame(react, name, m, Merged(init), Projection(init, name), last);
    }
  }
}

/** None of the four agents reacts to its own messages. The diagnostics and the remediation agent
    have no guard against their own name; that nothing happens rests on the wording. */
module Echoes {
  import opened Sequences
  import opened Strings
  import opened Scenarios
  import opened Options
  import opened Wire
  import opened Relay
  import opened Execution
  import opened Executors
  import opened Multicast
  import opened EchoedStreams

  lemma MatchesAreListed(signals: seq<Signal>, line: string)
    ensures forall s :: s in Matches(signals, line) ==> s in signals
  {
  }

  lemma {:induction false} FoundIsListed(sc: Scenario, lines: seq<Line>)
    ensures forall s :: s in Found(sc, lines) ==> s in sc.logSignals || s in sc.metricsSignals
  {
    if lines != [] {
      FoundIsListed(sc, lines[..|lines| - 1]);
      var last := lines[|lines| - 1];
      MatchesAreListed(sc.metricsSignals, last.text);
      if |last.text| >= 4 {
        MatchesAreListed(sc.logSignals, Strip(last.text[4..]));
      }
      var more := NewSignals(sc, last);
      assert forall s :: s in more ==> s in sc.logSignals || s in sc.metricsSignals;
    }
  }

  lemma DescriptionsAreListed(sc: Scenario, signals: seq<Signal>)
    requires forall s :: s in signals ==> s in sc.logSignals || s in sc.metricsSignals
    ensures forall e :: e in Descriptions(signals) ==> e in Descriptions(sc.logSignals) + Descriptions(sc.metricsSignals)
  {
    forall e | e in Descriptions(signals)
      ensures e in Descriptions(sc.logSignals) + Descriptions(sc.metricsSignals)
    {
      var i :| 0 <= i < |signals| && signals[i].description == e;
      var s := signals[i];
      if s in sc.logSignals {
        var j :| 0 <= j < |sc.logSignals| && sc.logSignals[j] == s;
        assert Descriptions(sc.logSignals)[j] == e;
      } else {
        var j :| 0 <= j < |sc.metricsSignals| && sc.metricsSignals[j] == s;
        assert Descriptions(sc.metricsSignals)[j] == e;
      }
    }
  }

  lemma DiagnosisIsCalm(sc: Scenario, lines: seq<Line>)
    requires TextsFit(sc)
    ensures Calm(DiagnosisFor(sc, Found(sc, lines)).text)
  {
    FoundIsListed(sc, lines);
    DescriptionsAreListed(sc, Found(sc, lines));
  }

  /** No agent ever says anything that raises an alarm or grants an approval. */
  lemma UpdatesAreCalm(sc: Scenario, m: Memory, lines: seq<Line>)
    requires TextsFit(sc) && IsFresh(m)
    ensures forall u :: u in Mind(Behaviour(sc), m, lines).updates ==> Calm(u.text)
  {
    match m
    case Monitoring => MonitoringAnswersEveryAlarm(sc, lines);
    case Logger(_) =>
      LoggerSendsItsLinesOnce(sc, lines);
      assert forall u :: u in LogUpdates(sc.logs) ==> Calm(u.text);
    case Diagnostics(_, _, _) =>
      DiagnosticsAccumulates(sc, lines);
      var updates := Mind(Behaviour(sc), m, lines).updates;
      if updates != [] {
        var n: nat :| FirstReaches(EvidenceTotal(sc), THRESHOLD, lines, n) && updates == [DiagnosisOn(sc)(lines[..n])];
        DiagnosisIsCalm(sc, lines[..n]);
      }
    case Remediation(_, _) => RemediationPhases(sc, lines);
  }

  /** Hearing a calm message under its own name changes nothing in an agent. */
  lemma OwnCalmMessageIsIgnored(sc: Scenario, m: Memory, text: string)
    requires NamesFit(sc) && Calm(text)
    ensures React(sc, m, Line(NameOf(sc, m), text)) == Reaction(m, [], false)
  {
  }

  /** Everything an agent emits is its task, one of its updates, or its completion. */
  lemma EventTexts(sc: Scenario, m: Memory, slots: seq<Slot>, response: Response)
    requires TextsFit(sc) && IsFresh(m) && response in Events(Behaviour(sc), Boot(NameOf(sc, m), m), slots)
    ensures response.TaskResponse? || response.StatusResponse?
    ensures Calm(ResponseText(response))
    ensures Heard(slots) != []
  {
    var name, messages := NameOf(sc, m), Heard(slots);
    TraceShape(Behaviour(sc), name, m, slots);
    var updates := Mind(Behaviour(sc), m, Lines(messages)).updates;
    UpdatesAreCalm(sc, m, Lines(messages));
    InTrace(name, messages, updates, Upto(Behaviour(sc), Boot(name, m), slots).stopped, response);
    var task := NewTask(messages[0]);
    if response != TaskResponse(task) && response != Completion(task) {
      var u :| u in updates && response == UpdateResponse(name, task, u);
      UpdateText(name, task, u);
    }
  }

  lemma {:induction false} MindKeepsName(sc: Scenario, m: Memory, lines: seq<Line>)
    ensures NameOf(sc, Mind(Behaviour(sc), m, lines).memory) == NameOf(sc, m)
  {
    if lines != [] {
      MindKeepsName(sc, m, lines[..|lines| - 1]);
    }
  }

  /** An echo of anything an agent has emitted, stamped with its name, leaves its state and its output
      as they are. */
  lemma AgentsIgnoreTheirEchoes(sc: Scenario, m: Memory, slots: seq<Slot>, response: Response)
    requires NamesFit(sc) && TextsFit(sc) && IsFresh(m)
    requires response in Events(Behaviour(sc), Boot(NameOf(sc, m), m), slots)
    ensures IgnoresEcho(Behaviour(sc), NameOf(sc, m), m, slots, response)
  {
    var name := NameOf(sc, m);
    EventTexts(sc, m, slots, response);
    TranslationPreservesContent(response, name);
    var echo := Item(Translate(response, name).value);
    TraceShape(Behaviour(sc), name, m, slots);
    var x := Upto(Behaviour(sc), Boot(name, m), slots);
    MindKeepsName(sc, m, Lines(Heard(slots)));
    var line := LineOf(echo.request.message);
    OwnCalmMessageIsIgnored(sc, x.memory, line.text);
    assert !x.stopped ==> Behaviour(sc)(x.memory, line) == Reaction(x.memory, [], false);
  }

  lemma AgentsAreDeafToThemselves(sc: Scenario, m: Memory)
    requires NamesFit(sc) && TextsFit(sc) && IsFresh(m)
    ensures DeafToItself(Behaviour(sc), NameOf(sc, m), m)
  {
    forall slots, response | response in Events(Behaviour(sc), Boot(NameOf(sc, m), m), slots)
      ensures IgnoresEcho(Behaviour(sc), NameOf(sc, m), m, slots, response)
    {
      AgentsIgnoreTheirEchoes(sc, m, slots, response);
    }
  }

  /** Inserting any number of echoes of what one of the four agents has already emitted, anywhere in
      its input, changes neither what it emits nor what it remembers. */
  lemma EchoesChangeNothing(sc: Scenario, m: Memory, inputs: seq<Input>)
    requires NamesFit(sc) && TextsFit(sc) && IsFresh(m)
    ensures SameBehaviour(Behaviour(sc), NameOf(sc, m), m,
                          WithEchoes(Behaviour(sc), NameOf(sc, m), m, inputs), GenuineOnly(inputs))
  {
    AgentsAreDeafToThemselves(sc, m);
    InsertedEchoes(Behaviour(sc), NameOf(sc, m), m, inputs);
  }

  /** Over the group channel, where it hears itself, an agent emits and remembers exactly what it does
      on its N-streams queue: the two transports give the same session. */
  lemma GroupSessionIsTheSame(sc: Scenario, m: Memory, log: seq<Entry>)
    requires NamesFit(sc) && TextsFit(sc) && IsFresh(m)
    requires SpeaksForItself(Behaviour(sc), NameOf(sc, m), m, log)
    ensures SameBehaviour(Behaviour(sc), NameOf(sc, m), m, Merged(log), Projection(log, NameOf(sc, m)))
  {
    AgentsAreDeafToThemselves(sc, m);
    MergedStreamIsProjection(Behaviour(sc), NameOf(sc, m), m, log);
  }
}
