/** What every run of the N-streams relay guarantees to its agents and to its caller. */
module RelayProperties {
  import opened Sequences
  import opened Options
  import opened Wire
  import opened Relay

  /** The log positions that reach an agent, in order. */
  function Positions(log: seq<Entry>, name: string): seq<nat> {
    if log == [] then []
    else
      Positions(log[..|log| - 1], name)
      + if Contribution(log[|log| - 1], name) != [] then [|log| - 1] else []
  }

  ghost predicate Increasing(positions: seq<nat>) {
    forall i, j :: 0 <= i < j < |positions| ==> positions[i] < positions[j]
  }

  lemma {:induction false} PositionsIncrease(log: seq<Entry>, name: string)
    ensures |Positions(log, name)| == |Projection(log, name)|
    ensures Increasing(Positions(log, name))
    ensures forall k :: 0 <= k < |Positions(log, name)| ==> Positions(log, name)[k] < |log|
  {
    if log != [] {
      PositionsIncrease(log[..|log| - 1], name);
    }
  }

  lemma PositionsStep(log: seq<Entry>, name: string)
    requires log != []
    ensures var init, more := log[..|log| - 1], Contribution(log[|log| - 1], name);
      && |more| <= 1
      && Positions(log, name) == Positions(init, name) + (if more != [] then [|log| - 1] else [])
      && Projection(log, name) == Projection(init, name) + more
      && Projection(log, name)[..|Projection(init, name)|] == Projection(init, name)
      && forall k :: 0 <= k <= |Projection(init, name)| ==> Projection(log, name)[..k] == Projection(init, name)[..k]
  {
  }

  /** Slot `k` of an agent's stream is what the entry at `Positions[k]` adds, and the entries before
      that position add exactly the slots before `k`. */
  lemma {:induction false} SlotHasPosition(log: seq<Entry>, name: string, k: nat)
    requires k < |Projection(log, name)|
    ensures k < |Positions(log, name)| && Positions(log, name)[k] < |log|
    ensures Contribution(log[Positions(log, name)[k]], name) == [Projection(log, name)[k]]
    ensures Projection(log[..Positions(log, name)[k]], name) == Projection(log, name)[..k]
  {
    var init, last := log[..|log| - 1], log[|log| - 1];
    PositionsIncrease(init, name);
    PositionsStep(log, name);
    if k < |Projection(init, name)| {
      SlotHasPosition(init, name, k);
      var p := Positions(init, name)[k];
      assert log[..p] == init[..p];
    }
  }

  lemma {:induction false} ContributionHasSlot(log: seq<Entry>, name: string, p: nat)
    requires p < |log| && Contribution(log[p], name) != []
    ensures p in Positions(log, name)
  {
    var init := log[..|log| - 1];
    if p < |init| {
      ContributionHasSlot(init, name, p);
    } else {
      assert Positions(log, name)[|Positions(init, name)|] == p;
    }
  }

  /** The entry is put into some queue: everything but a response that is not forwarded. */
  predicate IsSentOn(entry: Entry) {
    entry.FromAgent? ==> entry.forwarded.Some?
  }

  function SlotOf(entry: Entry): Slot {
    if entry.FromClient? then Item(entry.request)
    else if entry.FromAgent? && entry.forwarded.Some? then Item(entry.forwarded.value)
    else Sentinel
  }

  lemma ContributionIs(entry: Entry, name: string)
    ensures Contribution(entry, name) == if IsSentOn(entry) && !(entry.FromAgent? && entry.name == name) then [SlotOf(entry)] else []
  {
  }

  /** An agent's stream holds every log entry that concerns it, each once and in log order: slot `k`
      is what entry `Positions[k]` adds, the positions increase, and no contributing entry is left
      out: the client's requests, every close, and what is forwarded of the other agents' responses.
      An agent's own entries contribute nothing, so nothing is echoed. */
  lemma ProjectionIsExact(log: seq<Entry>, name: string)
    ensures var positions := Positions(log, name);
      && |positions| == |Projection(log, name)|
      && Increasing(positions)
      && (forall k :: 0 <= k < |positions| ==>
            positions[k] < |log| && Contribution(log[positions[k]], name) == [Projection(log, name)[k]])
      && (forall k :: 0 <= k < |positions| ==> !(log[positions[k]].FromAgent? && log[positions[k]].name == name))
      && (forall p :: 0 <= p < |log| ==> (Contribution(log[p], name) != [] <==> p in positions))
      && (forall k :: 0 <= k < |positions| ==> Projection(log, name)[k] == SlotOf(log[positions[k]]))
      && (forall p :: 0 <= p < |log| ==> (p in positions <==> IsSentOn(log[p]) && !(log[p].FromAgent? && log[p].name == name)))
  {
    PositionsIncrease(log, name);
    forall p | 0 <= p < |log|
      ensures Contribution(log[p], name) != [] <==> IsSentOn(log[p]) && !(log[p].FromAgent? && log[p].name == name)
    {
      ContributionIs(log[p], name);
    }
    forall k | 0 <= k < |Projection(log, name)|
      ensures Positions(log, name)[k] < |log|
      ensures Contribution(log[Positions(log, name)[k]], name) == [Projection(log, name)[k]]
    {
      SlotHasPosition(log, name, k);
    }
    forall p | 0 <= p < |log| && Contribution(log[p], name) != []
      ensures p in Positions(log, name)
    {
      ContributionHasSlot(log, name, p);
    }
  }

  /** Those of some log positions that do not hold a response of `name`. */
  function NotFrom(log: seq<Entry>, positions: seq<nat>, name: string): seq<nat> {
    if positions == [] then []
    else
      var last := positions[|positions| - 1];
      NotFrom(log, positions[..|positions| - 1], name)
      + if last < |log| && log[last].FromAgent? && log[last].name == name then [] else [last]
  }

  lemma NotFromSnoc(log: seq<Entry>, positions: seq<nat>, more: seq<nat>, name: string)
    requires |more| <= 1
    ensures NotFrom(log, positions + more, name) ==
              NotFrom(log, positions, name)
              + if more == [] || (more[0] < |log| && log[more[0]].FromAgent? && log[more[0]].name == name) then [] else more
  {
    if more == [] {
      assert positions + more == positions;
    } else {
      assert (positions + more)[..|positions|] == positions;
    }
  }

  lemma {:induction false} NotFromLonger(log: seq<Entry>, entry: Entry, positions: seq<nat>, name: string)
    requires forall k :: 0 <= k < |positions| ==> positions[k] < |log|
    ensures NotFrom(log + [entry], positions, name) == NotFrom(log, positions, name)
    ensures forall p :: p in NotFrom(log, positions, name) ==> p < |log|
  {
    if positions != [] {
      NotFromLonger(log, entry, positions[..|positions| - 1], name);
    }
  }

  /** What the next entry adds to the positions that reach `one` and are not from `two`. */
  lemma NotFromStep(log: seq<Entry>, entry: Entry, one: string, two: string)
    ensures NotFrom(log + [entry], Positions(log + [entry], one), two) ==
              NotFrom(log, Positions(log, one), two)
              + if Contribution(entry, one) == [] || (entry.FromAgent? && entry.name == two) then [] else [|log|]
  {
    var longer, more := log + [entry], if Contribution(entry, one) != [] then [|log|] else [];
    assert longer[..|log|] == log;
    PositionsIncrease(log, one);
    NotFromLonger(log, entry, Positions(log, one), two);
    NotFromSnoc(longer, Positions(log, one), more, two);
  }

  lemma {:induction false} SamePositions(log: seq<Entry>, one: string, two: string)
    ensures NotFrom(log, Positions(log, one), two) == NotFrom(log, Positions(log, two), one)
  {
    if log != [] {
      var init, last := log[..|log| - 1], log[|log| - 1];
      SamePositions(init, one, two);
      NotFromStep(init, last, one, two);
      NotFromStep(init, last, two, one);
      assert log == init + [last];
    }
  }

  lemma {:induction false} NotFromIsPart(log: seq<Entry>, positions: seq<nat>, name: string, p: nat)
    requires p in NotFrom(log, positions, name)
    ensures p in positions && (p < |log| && log[p].FromAgent? ==> log[p].name != name)
  {
    var init, last := positions[..|positions| - 1], positions[|positions| - 1];
    if p in NotFrom(log, init, name) {
      NotFromIsPart(log, init, name, p);
    } else {
      assert p == last;
    }
  }

  /** Two agents are sent everybody else's items in the same order: the log positions that reach the one
      and are not from the other are the same both ways, and so is what stands there, whatever it is. */
  lemma ThirdPartiesInSameOrder(log: seq<Entry>, one: string, two: string)
    ensures NotFrom(log, Positions(log, one), two) == NotFrom(log, Positions(log, two), one)
    ensures forall p :: p in NotFrom(log, Positions(log, one), two) ==>
              p < |log| && Contribution(log[p], one) == Contribution(log[p], two)
  {
    SamePositions(log, one, two);
    PositionsIncrease(log, one);
    forall p | p in NotFrom(log, Positions(log, one), two)
      ensures p < |log| && Contribution(log[p], one) == Contribution(log[p], two)
    {
      NotFromIsPart(log, Positions(log, one), two, p);
      NotFromIsPart(log, Positions(log, two), one, p);
    }
  }

  /** The slots an agent reads before its send side closes. */
  function Cut(slots: seq<Slot>): seq<Slot> {
    if slots == [] || slots[0] == Sentinel then [] else [slots[0]] + Cut(slots[1..])
  }

  predicate Closing(entry: Entry) {
    entry.CloseSends? || entry.Teardown?
  }

  /** The log before its first closing entry. */
  function UpToClose(log: seq<Entry>): seq<Entry> {
    if log == [] then []
    else if Closing(log[|log| - 1]) || UpToClose(log[..|log| - 1]) != log[..|log| - 1] then UpToClose(log[..|log| - 1])
    else log
  }

  lemma {:induction false} CutConcat(a: seq<Slot>, b: seq<Slot>)
    ensures Cut(a + b) == if Sentinel in a then Cut(a) else a + Cut(b)
  {
    if a == [] {
      assert a + b == b;
    } else {
      var head, rest := [a[0]], a[1..];
      CutConcat(rest, b);
      assert (a + b)[0] == a[0] && (a + b)[1..] == rest + b;
      assert a == head + rest;
      if a[0] != Sentinel {
        assert Cut(a + b) == head + Cut(rest + b) && Cut(a) == head + Cut(rest);
        assert Sentinel in a <==> Sentinel in rest;
        Rebracket(head, rest, Cut(b));
      }
    }
  }

  lemma CutIsPrefix(a: seq<Slot>, b: seq<Slot>)
    ensures Cut(a) <= Cut(a + b)
  {
    CutConcat(a, b);
    CutConcat(a, []);
    assert a + [] == a;
  }

  lemma {:induction false} UpToCloseIsPrefix(log: seq<Entry>)
    ensures UpToClose(log) <= log
    ensures forall e :: e in UpToClose(log) ==> !Closing(e)
    ensures UpToClose(log) != log ==> Closing(log[|UpToClose(log)|])
  {
    if log != [] {
      UpToCloseIsPrefix(log[..|log| - 1]);
    }
  }

  /** One more slot, or none, after the slots before: it is read unless they were closed. */
  lemma CutSnoc(before: seq<Slot>, more: seq<Slot>)
    requires |more| <= 1 && (Sentinel !in before ==> Cut(before) == before)
    ensures Cut(before + more) == if Sentinel in before || Sentinel in more then Cut(before) else before + more
    ensures Sentinel in before + more <==> Sentinel in before || Sentinel in more
    ensures Sentinel !in before + more ==> Cut(before + more) == before + more
  {
    CutConcat(before, more);
    if more == [] {
      assert before + more == before;
    } else {
      assert more[1..] == [];
      assert Cut(more) == if more[0] == Sentinel then [] else more;
      assert before + [] == before;
    }
  }

  lemma ClosingContributes(entry: Entry, name: string)
    ensures |Contribution(entry, name)| <= 1
    ensures Sentinel in Contribution(entry, name) <==> Closing(entry)
  {
  }

  lemma UpToCloseStep(log: seq<Entry>)
    requires log != []
    ensures var init, last := log[..|log| - 1], log[|log| - 1];
      && UpToClose(log) == (if Closing(last) || UpToClose(init) != init then UpToClose(init) else log)
      && UpToClose(init) != log
  {
    UpToCloseIsPrefix(log[..|log| - 1]);
  }

  lemma {:induction false} CutProjection(log: seq<Entry>, name: string)
    ensures Cut(Projection(log, name)) == Projection(UpToClose(log), name)
    ensures Sentinel in Projection(log, name) <==> UpToClose(log) != log
    ensures Sentinel !in Projection(log, name) ==> Cut(Projection(log, name)) == Projection(log, name)
  {
    if log != [] {
      var init, last := log[..|log| - 1], log[|log| - 1];
      var before, more := Projection(init, name), Contribution(last, name);
      CutProjection(init, name);
      UpToCloseStep(log);
      ClosingContributes(last, name);
      CutSnoc(before, more);
      assert Projection(log, name) == before + more;
      assert Sentinel in before + more <==> UpToClose(log) != log;
    }
  }

  lemma StateRefinesLog(s: State, name: string)
    requires Inv(s) && name in s.names
    ensures name in s.delivered && name in s.queues
    ensures s.delivered[name] + s.queues[name] == Projection(s.log, name)
    ensures Cut(s.delivered[name] + s.queues[name]) == Projection(UpToClose(s.log), name)
    ensures Cut(s.delivered[name]) <= Projection(UpToClose(s.log), name)
  {
    CutProjection(s.log, name);
    CutIsPrefix(s.delivered[name], s.queues[name]);
  }

  /** In every state of every run there is one log such that what each agent has taken and still
      has queued is the log's projection on it, and every send stream is cut at the same log
      position, the first close. */
  lemma OneGlobalLog(names: seq<string>, source: string, steps: seq<Step>, name: string)
    requires Distinct(names) && name in names && CanRun(Start(names, source), steps)
    ensures var s := After(Start(names, source), steps);
      && name in s.delivered && name in s.queues
      && s.delivered[name] + s.queues[name] == Projection(s.log, name)
      && Cut(s.delivered[name] + s.queues[name]) == Projection(UpToClose(s.log), name)
      && Cut(s.delivered[name]) <= Projection(UpToClose(s.log), name)
  {
    StartInv(names, source);
    RunKeepsInv(Start(names, source), steps);
    StateRefinesLog(After(Start(names, source), steps), name);
  }

  /** The steps that put something into an agent's queue: every fan-out, both closes, and what the reader of
      another agent reads, unless that is a plain message. */
  function Feeds(name: string): Step -> bool {
    (step: Step) =>
      match step
      case FanOut(_) => true
      case CloseClient => true
      case Read(origin, response) => origin != name && !response.MessageResponse?
      case Leave => true
      case _ => false
  }

  function SlotOfStep(source: string): Step -> Slot {
    (step: Step) =>
      match step
      case FanOut(request) => Item(Stamp(source, request))
      case Read(origin, response) => if Translate(response, origin).Some? then Item(Translate(response, origin).value) else Sentinel
      case _ => Sentinel
  }

  lemma StepContributes(s: State, step: Step, name: string)
    requires Enabled(s, step)
    ensures Apply(s, step).source == s.source
    ensures Projection(Apply(s, step).log, name) == Projection(s.log, name) + if Feeds(name)(step) then [SlotOfStep(s.source)(step)] else []
  {
    match step
    case FanOut(request) => ProjectionSnoc(s.log, FromClient(Stamp(s.source, request)), name);
    case CloseClient => ProjectionSnoc(s.log, CloseSends, name);
    case Read(origin, response) =>
      FormOfForwarded(response, origin);
      ProjectionSnoc(s.log, Forward(origin, response), name);
    case Leave => ProjectionSnoc(s.log, Teardown, name);
    case _ =>
  }

  lemma {:induction false} ProjectionIsPicked(s: State, steps: seq<Step>, name: string)
    requires CanRun(s, steps) && s.log == []
    ensures After(s, steps).source == s.source
    ensures Projection(After(s, steps).log, name) == Picked(Feeds(name), SlotOfStep(s.source), steps)
  {
    if steps != [] {
      var before, last := steps[..|steps| - 1], steps[|steps| - 1];
      ProjectionIsPicked(s, before, name);
      StepContributes(After(s, before), last, name);
      assert After(s, steps) == Apply(After(s, before), last);
    }
  }

  /** Said of the steps themselves: in every run an agent has been sent, or has queued, one item for each
      client request, for each close, and for each response of another agent but plain messages, in the
      order of these steps: the request under the source's name, the translation, a sentinel. */
  lemma StreamIsOfSteps(names: seq<string>, source: string, steps: seq<Step>, name: string)
    requires Distinct(names) && name in names && CanRun(Start(names, source), steps)
    ensures var s := After(Start(names, source), steps);
      && name in s.delivered && name in s.queues
      && ListsSome(steps, Feeds(name), SlotOfStep(source), s.delivered[name] + s.queues[name])
  {
    OneGlobalLog(names, source, steps, name);
    ProjectionIsPicked(Start(names, source), steps, name);
    PickedIsListed(Feeds(name), SlotOfStep(source), steps);
  }

  // Attribution.

  /** Every message from the client carries the source name, if there is one; every task and status item
      carries the name of the agent it came from; a message update keeps the sender it arrived with. */
  lemma QueuedItemsAreAttributed(source: string, log: seq<Entry>, name: string, k: nat)
    requires AllAttributed(source, log)
    requires k < |Projection(log, name)|
    requires Projection(log, name)[k].Item? && Projection(log, name)[k].request.MessageRequest?
    ensures k < |Positions(log, name)| && Positions(log, name)[k] < |log|
    ensures var sender := GetMessageSender(Projection(log, name)[k].request.message);
      match log[Positions(log, name)[k]]
      case FromClient(_) => source != "" ==> sender == source
      case FromAgent(origin, response, _) =>
        && origin != name
        && (response.TaskResponse? || response.StatusResponse? ==> sender == origin)
        && (response.MessageUpdateResponse? ==> sender == GetMessageSender(response.update.message))
        && (response.TaskResponse? || response.StatusResponse? || response.MessageUpdateResponse?)
      case _ => false
  {
    SlotHasPosition(log, name, k);
    var entry := log[Positions(log, name)[k]];
    if entry.FromAgent? {
      TranslationPreservesContent(entry.response, entry.name);
    }
  }

  /** So it is with every item in any agent's queue, and every item already taken from it, in every
      state of every run. */
  lemma EveryItemIsAttributed(names: seq<string>, source: string, steps: seq<Step>, name: string, k: nat)
    requires Distinct(names) && name in names && CanRun(Start(names, source), steps)
    requires name in After(Start(names, source), steps).delivered && name in After(Start(names, source), steps).queues
    requires k < |After(Start(names, source), steps).delivered[name] + After(Start(names, source), steps).queues[name]|
    requires (After(Start(names, source), steps).delivered[name] + After(Start(names, source), steps).queues[name])[k].Item?
    requires (After(Start(names, source), steps).delivered[name] + After(Start(names, source), steps).queues[name])[k].request.MessageRequest?
    ensures var s := After(Start(names, source), steps);
      var sender := GetMessageSender((s.delivered[name] + s.queues[name])[k].request.message);
      && k < |Positions(s.log, name)| && Positions(s.log, name)[k] < |s.log|
      && match s.log[Positions(s.log, name)[k]]
         case FromClient(_) => source != "" ==> sender == source
         case FromAgent(origin, response, _) =>
           && origin != name
           && (response.TaskResponse? || response.StatusResponse? ==> sender == origin)
           && (response.MessageUpdateResponse? ==> sender == GetMessageSender(response.update.message))
         case _ => false
  {
    OneGlobalLog(names, source, steps, name);
    StartInv(names, source);
    RunKeepsInv(Start(names, source), steps);
    QueuedItemsAreAttributed(source, After(Start(names, source), steps).log, name, k);
  }

  // The collector.

  lemma {:induction false} LastMarkCounts(output: seq<Option<Emission>>)
    requires output != [] && output[|output| - 1] == None
    ensures EndMarks(output) > 0
  {
    if |output| > 1 {
      LastMarkCounts(output[1..]);
    }
  }

  /** What the readers have read in a run, in order. */
  function Reads(steps: seq<Step>): seq<Emission> {
    if steps == [] then []
    else
      var last := steps[|steps| - 1];
      Reads(steps[..|steps| - 1]) + if last.Read? then [Emission(last.name, last.response)] else []
  }

  predicate IsRead(step: Step) {
    step.Read?
  }

  function ReadBy(step: Step): Emission {
    if step.Read? then Emission(step.name, step.response) else Emission("", ArtifactResponse(Artifact("", "", map[], "")))
  }

  lemma {:induction false} ReadsArePicked(steps: seq<Step>)
    ensures Reads(steps) == Picked(IsRead, ReadBy, steps)
  {
    if steps != [] {
      ReadsArePicked(steps[..|steps| - 1]);
    }
  }

  lemma StepEmits(s: State, step: Step)
    requires Enabled(s, step)
    ensures Emissions(Apply(s, step).log) == Emissions(s.log) + if step.Read? then [Emission(step.name, step.response)] else []
  {
    match step
    case FanOut(request) => EmissionsSnoc(s.log, FromClient(Stamp(s.source, request)));
    case CloseClient => EmissionsSnoc(s.log, CloseSends);
    case Read(name, response) => EmissionsSnoc(s.log, Forward(name, response));
    case Leave => EmissionsSnoc(s.log, Teardown);
    case _ =>
  }

  lemma {:induction false} ReadsAreLogged(s: State, steps: seq<Step>)
    requires CanRun(s, steps) && s.log == []
    ensures Emissions(After(s, steps).log) == Reads(steps)
  {
    if steps != [] {
      var before, last := steps[..|steps| - 1], steps[|steps| - 1];
      ReadsAreLogged(s, before);
      StepEmits(After(s, before), last);
      assert After(s, steps) == Apply(After(s, before), last);
    }
  }

  /** The collector's loop ends exactly when every reader has ended and the output queue is empty. What
      it has yielded is at any time a part of what was read, from the first reading on; by then it is
      all of it: every response that any reader read, exactly once, in the order they were read. */
  lemma CollectorEndsWhenReadersEnd(names: seq<string>, source: string, steps: seq<Step>)
    requires Distinct(names) && CanRun(Start(names, source), steps)
    ensures var s := After(Start(names, source), steps);
      && (s.doneCount == |s.names| <==> s.reading == {} && s.output == [])
      && s.yielded + Values(s.output) == Reads(steps)
      && (s.doneCount == |s.names| ==> s.yielded == Reads(steps))
      && ListsSome(steps, IsRead, ReadBy, Reads(steps))
  {
    ReadsArePicked(steps);
    PickedIsListed(IsRead, ReadBy, steps);
    StartInv(names, source);
    RunKeepsInv(Start(names, source), steps);
    ReadsAreLogged(Start(names, source), steps);
    var s := After(Start(names, source), steps);
    if s.doneCount == |s.names| && s.output != [] {
      LastMarkCounts(s.output);
      assert false;
    }
  }

  // Closing and failing.

  function CountSentinels(slots: seq<Slot>): nat {
    if slots == [] then 0 else CountSentinels(slots[..|slots| - 1]) + if slots[|slots| - 1] == Sentinel then 1 else 0
  }

  lemma {:induction false} ProjectionSentinels(log: seq<Entry>, name: string)
    ensures CountSentinels(Projection(log, name)) == Sentinels(log)
  {
    if log != [] {
      var init := log[..|log| - 1];
      ProjectionSentinels(init, name);
      var before, more := Projection(init, name), Contribution(log[|log| - 1], name);
      assert Projection(log, name) == before + more;
      ContributionIs(log[|log| - 1], name);
      if more != [] {
        assert (before + more)[..|before|] == before;
      } else {
        assert before + more == before;
      }
    }
  }

  lemma {:induction false} CountedSentinelOccurs(slots: seq<Slot>)
    ensures CountSentinels(slots) > 0 <==> Sentinel in slots
  {
    if slots != [] {
      CountedSentinelOccurs(slots[..|slots| - 1]);
      assert slots == slots[..|slots| - 1] + [slots[|slots| - 1]];
    }
  }

  lemma SentinelWaits(delivered: seq<Slot>, queue: seq<Slot>)
    requires StopsAtSentinel(delivered) && CountSentinels(delivered + queue) > 0
    ensures Closed(delivered) || Sentinel in queue
  {
    var all := delivered + queue;
    CountedSentinelOccurs(all);
    var k :| 0 <= k < |all| && all[k] == Sentinel;
    if k >= |delivered| {
      assert queue[k - |delivered|] == Sentinel;
    }
  }

  lemma StreamSentinels(log: seq<Entry>, queues: map<string, seq<Slot>>, delivered: map<string, seq<Slot>>, name: string)
    requires Refines(log, queues, delivered) && name in queues && StopsAtSentinel(delivered[name])
    ensures CountSentinels(delivered[name] + queues[name]) == Sentinels(log)
    ensures Sentinels(log) > 0 ==> Closed(delivered[name]) || Sentinel in queues[name]
  {
    ProjectionSentinels(log, name);
    if Sentinels(log) > 0 {
      SentinelWaits(delivered[name], queues[name]);
    }
  }

  lemma StateTerminatesStream(s: State, name: string)
    requires Inv(s) && name in s.names
    ensures name in s.queues && name in s.delivered
    ensures CountSentinels(s.delivered[name] + s.queues[name]) == (if s.clientOpen then 0 else 1) + (if s.collecting then 0 else 1)
    ensures !s.collecting || !s.clientOpen ==>
              Closed(s.delivered[name]) || (Sentinel in s.queues[name] && Enabled(s, Take(name)))
  {
    assert name in s.queues && StopsAtSentinel(s.delivered[name]);
    StreamSentinels(s.log, s.queues, s.delivered, name);
  }

  /** Once the client has closed, or the collector has left for any reason, every agent's send stream
      either has read its sentinel or has one waiting in its queue, from which it may go on taking.
      The number of sentinels an agent is sent is the same for every agent: one for the client's
      close and one for the teardown, whatever the readers did. */
  lemma EverySendStreamTerminates(names: seq<string>, source: string, steps: seq<Step>, name: string)
    requires Distinct(names) && name in names && CanRun(Start(names, source), steps)
    ensures var s := After(Start(names, source), steps);
      && name in s.queues && name in s.delivered
      && CountSentinels(s.delivered[name] + s.queues[name]) == (if s.clientOpen then 0 else 1) + (if s.collecting then 0 else 1)
      && (!s.collecting || !s.clientOpen ==>
            Closed(s.delivered[name]) || (Sentinel in s.queues[name] && Enabled(s, Take(name))))
  {
    StartInv(names, source);
    RunKeepsInv(Start(names, source), steps);
    StateTerminatesStream(After(Start(names, source), steps), name);
  }

  ghost predicate SameButMarkOrder(one: State, two: State) {
    && one.queues == two.queues && one.log == two.log && one.delivered == two.delivered
    && one.reading == two.reading && one.yielded == two.yielded && one.doneCount == two.doneCount
    && EndMarks(one.output) == EndMarks(two.output) && Values(one.output) == Values(two.output)
  }

  lemma ReadCommutesWithEnd(output: seq<Option<Emission>>, item: Option<Emission>)
    ensures Values(output + [None] + [item]) == Values(output + [item] + [None])
    ensures EndMarks(output + [None] + [item]) == EndMarks(output + [item] + [None])
  {
    OutputSnoc(output, None);
    OutputSnoc(output, item);
    OutputSnoc(output + [None], item);
    OutputSnoc(output + [item], None);
  }

  /** A reader that fails adds one end mark and nothing else: any step of another participant is
      possible after it exactly as before, and leaves the same queues, the same log and the same
      deliveries in either order. */
  lemma FailureIsIsolated(s: State, name: string, step: Step)
    requires name in s.reading && Enabled(s, step)
    requires !(step.EndReader? && step.name == name) && !(step.Read? && step.name == name)
    ensures var failed := Apply(s, EndReader(name));
      && EndMarks(failed.output) == EndMarks(s.output) + 1 && Values(failed.output) == Values(s.output)
      && Enabled(failed, step)
      && Enabled(Apply(s, step), EndReader(name))
      && SameButMarkOrder(Apply(failed, step), Apply(Apply(s, step), EndReader(name)))
  {
    OutputSnoc(s.output, None);
    match step
    case Read(_, response) => ReadCommutesWithEnd(s.output, Some(Emission(step.name, response)));
    case EndReader(other) =>
    case Collect => assert (s.output + [None])[1..] == s.output[1..] + [None];
    case _ =>
  }
}
