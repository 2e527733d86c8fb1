/** Runs without failures: no reader fails, and the caller leaves only when its loop ends. */
module GentleRuns {
  import opened Options
  import opened Wire
  import opened Relay
  import opened RelayProperties
  import opened Execution
  import opened Rooms
  import opened Sessions

  ghost predicate Gentle<M>(s: Session<M>, turn: Turn) {
    match turn
    case Yield => true
    case Act(a) => !a.ReaderFails? && (a.CallerLeaves? ==> s.room.relay.doneCount == |s.room.relay.names|)
  }

  /** A run of gentle turns. */
  ghost predicate GoesGently<M>(setup: Setup<M>, turns: seq<Turn>) {
    && Goes(setup, turns)
    && (turns == [] ||
        (var before := turns[..|turns| - 1];
         GoesGently(setup, before) && Gentle(Reached(setup, before), turns[|turns| - 1])))
  }

  /** No gentle turn is possible. */
  ghost predicate Settled<M>(setup: Setup<M>, s: Session<M>) {
    forall turn :: MayTurn(setup, s, turn) ==> !Gentle(s, turn)
  }

  /** A reader has ended only after its agent stopped and all its responses were read. */
  ghost predicate Rested<M>(r: Room<M>) {
    forall n :: n in r.agents && n !in r.relay.reading ==> n in r.responses && r.agents[n].stopped && r.responses[n] == []
  }

  /** The caller left only after every reader had ended, everything was collected and the client had closed. */
  predicate LeftCleanly(relay: State) {
    !relay.collecting ==> relay.reading == {} && relay.output == [] && !relay.clientOpen
  }

  lemma ActionKeepsRested<M>(react: (M, Line) -> Reaction<M>, r: Room<M>, a: Action)
    requires Rested(r) && May(r, a) && !a.ReaderFails?
    ensures Rested(Do(react, r, a))
  {
  }

  lemma StepLeavesCleanly(s: State, step: Step)
    requires LeftCleanly(s) && Enabled(s, step)
    requires step.Leave? ==> s.reading == {} && s.output == [] && !s.clientOpen
    ensures LeftCleanly(Apply(s, step))
  {
  }

  lemma ActionLeavesCleanly<M>(react: (M, Line) -> Reaction<M>, r: Room<M>, a: Action)
    requires LeftCleanly(r.relay) && May(r, a)
    requires a.CallerLeaves? ==> r.relay.reading == {} && r.relay.output == [] && !r.relay.clientOpen
    ensures LeftCleanly(Do(react, r, a).relay)
  {
    ActionIsStep(react, r, a);
    StepLeavesCleanly(r.relay, StepOf(r, a));
  }

  /** The collector's loop has ended exactly when every reader has and the output is empty. */
  lemma AllCounted(names: seq<string>, output: seq<Option<Emission>>, doneCount: nat, reading: set<string>)
    requires CountsReaders(names, output, doneCount, reading)
    ensures doneCount == |names| <==> reading == {} && output == []
  {
    if doneCount == |names| && output != [] {
      LastMarkCounts(output);
    }
  }

  // What an agent that has stopped has read.

  lemma {:induction false} CrashLasts<M>(react: (M, Line) -> Reaction<M>, m: M, a: seq<Line>, b: seq<Line>)
    requires a <= b && Mind(react, m, a).crashed
    ensures Mind(react, m, b).crashed
  {
    if |a| < |b| {
      CrashLasts(react, m, a, b[..|b| - 1]);
    } else {
      assert a == b;
    }
  }

  lemma {:induction false} HeardGrows(a: seq<Slot>, b: seq<Slot>)
    ensures Heard(a) <= Heard(a + b)
    ensures Sentinel in a ==> Heard(a + b) == Heard(a)
  {
    if b == [] {
      assert a + b == a;
    } else {
      assert (a + b)[..|a + b| - 1] == a + b[..|b| - 1];
      HeardGrows(a, b[..|b| - 1]);
    }
  }

  lemma CrashOnPartLasts<M>(react: (M, Line) -> Reaction<M>, m: M, part: seq<Message>, whole: seq<Message>)
    requires part <= whole && Mind(react, m, Lines(part)).crashed
    ensures Mind(react, m, Lines(whole)).crashed
  {
    assert Lines(part) <= Lines(whole);
    CrashLasts(react, m, Lines(part), Lines(whole));
  }

  /** An agent whose reactions to the whole stream do not crash stops exactly at a sentinel. */
  lemma StopsAtShutdown<M>(react: (M, Line) -> Reaction<M>, name: string, m: M, taken: seq<Slot>, queue: seq<Slot>)
    requires !Mind(react, m, Lines(Heard(taken + queue))).crashed
    ensures Upto(react, Boot(name, m), taken).stopped <==> Sentinel in taken
  {
    TraceShape(react, name, m, taken);
    HeardGrows(taken, queue);
    if Mind(react, m, Lines(Heard(taken))).crashed {
      CrashOnPartLasts(react, m, Heard(taken), Heard(taken + queue));
    }
  }

  /** What an agent has emitted that was shut down. */
  lemma ShutDownTrace<M>(react: (M, Line) -> Reaction<M>, name: string, m: M, taken: seq<Slot>, queue: seq<Slot>)
    requires Sentinel in taken
    ensures var messages := Heard(taken + queue);
      Events(react, Boot(name, m), taken) == Trace(name, messages, Mind(react, m, Lines(messages)).updates, true)
  {
    TraceShape(react, name, m, taken);
    HeardGrows(taken, queue);
  }

  // What is left in a settled session whose caller has not left.

  /** In a settled session every stream was read as far as it goes, and every response was read. */
  lemma SettledAgent<M>(setup: Setup<M>, s: Session<M>, n: string)
    requires Settled(setup, s) && s.room.relay.collecting && Rested(s.room)
    requires n in s.room.agents && n in s.room.responses && n in s.room.relay.queues && n in s.room.relay.delivered
    ensures s.room.responses[n] == []
    ensures s.room.relay.queues[n] == [] || Closed(s.room.relay.delivered[n])
    ensures n in s.room.relay.reading ==> !s.room.agents[n].stopped
  {
    assert !MayTurn(setup, s, Act(AgentReceives(n))) by {
      assert Gentle(s, Act(AgentReceives(n)));
    }
    assert !MayTurn(setup, s, Act(ReaderReads(n))) by {
      assert Gentle(s, Act(ReaderReads(n)));
    }
    assert !MayTurn(setup, s, Act(ReaderEnds(n))) by {
      assert Gentle(s, Act(ReaderEnds(n)));
    }
  }

  lemma SettledCaller<M>(setup: Setup<M>, s: Session<M>)
    requires Settled(setup, s) && s.room.relay.collecting
    requires CountsReaders(s.room.relay.names, s.room.relay.output, s.room.relay.doneCount, s.room.relay.reading)
    ensures s.room.relay.output == [] && s.room.relay.reading != {}
    ensures s.room.relay.clientOpen ==> Pending(setup, s) == []
  {
    assert !MayTurn(setup, s, Yield) by {
      assert Gentle(s, Yield);
    }
    assert s.room.relay.doneCount != |s.room.relay.names| by {
      if s.room.relay.doneCount == |s.room.relay.names| {
        assert MayTurn(setup, s, Act(CallerLeaves));
        assert Gentle(s, Act(CallerLeaves));
      }
    }
    assert !MayTurn(setup, s, Act(CallerTakes)) by {
      assert Gentle(s, Act(CallerTakes));
    }
    AllCounted(s.room.relay.names, s.room.relay.output, s.room.relay.doneCount, s.room.relay.reading);
  }
}
