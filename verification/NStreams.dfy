/** The N-streams transport as the object it is: per-agent queues, one output queue and a counter,
    changed by four kinds of coroutine. Each method is what one coroutine does between two
    suspensions, and is one step of the relay's transition system. */
module NStreams {
  import opened Options
  import opened Wire
  import opened Relay

  lemma RunSnoc(s: State, steps: seq<Step>, step: Step)
    requires CanRun(s, steps) && Enabled(After(s, steps), step)
    ensures CanRun(s, steps + [step]) && After(s, steps + [step]) == Apply(After(s, steps), step)
  {
    assert (steps + [step])[..|steps|] == steps;
  }

  /** In every reached state there is one queue per agent. */
  lemma QueuePerAgent(names: seq<string>, source: string, steps: seq<Step>)
    requires Distinct(names) && CanRun(Start(names, source), steps)
    ensures After(Start(names, source), steps).queues.Keys == NameSet(names)
  {
    StartInv(names, source);
    RunKeepsInv(Start(names, source), steps);
  }

  /** What forwarding to the peers does to the queues. */
  function ToPeers(queues: map<string, seq<Slot>>, name: string, forwarded: Option<Request>): map<string, seq<Slot>> {
    if forwarded == None then queues
    else map n | n in queues :: queues[n] + if n != name then [Item(forwarded.value)] else []
  }

  lemma PeersAreExtended(queues: map<string, seq<Slot>>, name: string, response: Response, forwarded: Option<Request>)
    ensures ToPeers(queues, name, forwarded) == Extend(queues, FromAgent(name, response, forwarded))
  {
    assert forall slots: seq<Slot> :: slots + [] == slots;
  }

  /** A client request or a close adds the same slot to every queue. */
  lemma EverybodyIsExtended(queues: map<string, seq<Slot>>, entry: Entry, slot: Slot)
    requires !entry.FromAgent? && Contribution(entry, "") == [slot]
    ensures Extend(queues, entry) == map n | n in queues :: queues[n] + [slot]
  {
  }

  class NStreamsBroadcast {
    const names: seq<string>
    const source: string
    var queues: map<string, seq<Slot>>
    var output: seq<Option<Emission>>
    var doneCount: nat

    ghost var clientOpen: bool
    ghost var reading: set<string>
    ghost var collecting: bool
    ghost var log: seq<Entry>
    ghost var delivered: map<string, seq<Slot>>
    ghost var yielded: seq<Emission>
    ghost var steps: seq<Step>

    ghost function Abs(): State
      reads this
    {
      State(names, source, queues, output, doneCount, clientOpen, reading, collecting, log, delivered, yielded)
    }

    /** The object is where its steps have taken it, so everything proved of runs holds of it. */
    ghost predicate Valid()
      reads this
    {
      && Distinct(names)
      && CanRun(Start(names, source), steps)
      && Abs() == After(Start(names, source), steps)
    }

    constructor (names: seq<string>, source: string)
      requires Distinct(names)
      ensures Valid() && steps == []
      ensures this.names == names && this.source == source
    {
      this.names, this.source := names, source;
      output, doneCount := [], 0;
      clientOpen, reading, collecting := true, NameSet(names), true;
      log, yielded, delivered := [], [], map n | n in NameSet(names) :: [];
      queues, steps := map[], [];
      new;
      for i := 0 to |names|
        invariant this.names == names && this.source == source && output == [] && doneCount == 0 && steps == []
        invariant clientOpen && reading == NameSet(names) && collecting && log == [] && yielded == []
        invariant delivered == map n | n in NameSet(names) :: []
        invariant queues == map n | n in NameSet(names[..i]) :: []
      {
        assert NameSet(names[..i + 1]) == NameSet(names[..i]) + {names[i]};
        queues := queues[names[i] := []];
      }
      assert names[..|names|] == names;
    }

    /** Put one item into every queue. */
    method PutEverywhere(slot: Slot)
      requires Distinct(names) && queues.Keys == NameSet(names)
      modifies this`queues
      ensures queues == map n | n in old(queues) :: old(queues)[n] + [slot]
    {
      for i := 0 to |names|
        invariant queues.Keys == old(queues).Keys
        invariant forall n :: n in queues ==> queues[n] == old(queues)[n] + if n in names[..i] then [slot] else []
      {
        assert names[..i + 1] == names[..i] + [names[i]];
        assert names[i] !in names[..i];
        queues := queues[names[i] := queues[names[i]] + [slot]];
      }
      assert names[..|names|] == names;
    }

    /** Put one item into every queue but one agent's. */
    method PutToPeers(slot: Slot, name: string)
      requires Distinct(names) && queues.Keys == NameSet(names)
      modifies this`queues
      ensures queues == map n | n in old(queues) :: old(queues)[n] + if n != name then [slot] else []
    {
      for i := 0 to |names|
        invariant queues.Keys == old(queues).Keys
        invariant forall n :: n in queues ==> queues[n] == old(queues)[n] + if n in names[..i] && n != name then [slot] else []
      {
        assert names[..i + 1] == names[..i] + [names[i]];
        assert names[i] !in names[..i];
        if names[i] != name {
          queues := queues[names[i] := queues[names[i]] + [slot]];
        }
      }
      assert names[..|names|] == names;
    }

    /** The fan-out task takes one client request: stamp it and put it into every queue. */
    method FanOutRequest(request: Request)
      requires Valid() && Enabled(Abs(), FanOut(request))
      modifies this
      ensures Valid() && steps == old(steps) + [FanOut(request)]
      ensures Abs() == Apply(old(Abs()), FanOut(request))
    {
      QueuePerAgent(names, source, steps);
      RunSnoc(Start(names, source), steps, FanOut(request));
      steps := steps + [FanOut(request)];
      var stamped := request;
      if source != "" && request.MessageRequest? {
        stamped := MessageRequest(SetMessageSender(request.message, source));
      }
      EverybodyIsExtended(queues, FromClient(stamped), Item(stamped));
      PutEverywhere(Item(stamped));
      log := log + [FromClient(stamped)];
    }

    /** The fan-out task ends, however it ends. */
    method CloseSendSides()
      requires Valid() && Enabled(Abs(), CloseClient)
      modifies this
      ensures Valid() && steps == old(steps) + [CloseClient]
      ensures Abs() == Apply(old(Abs()), CloseClient)
    {
      QueuePerAgent(names, source, steps);
      RunSnoc(Start(names, source), steps, CloseClient);
      steps := steps + [CloseClient];
      EverybodyIsExtended(queues, CloseSends, Sentinel);
      PutEverywhere(Sentinel);
      log, clientOpen := log + [CloseSends], false;
    }

    /** An agent's send stream asks for its next item. */
    method NextItem(name: string) returns (item: Slot)
      requires Valid() && Enabled(Abs(), Take(name))
      modifies this
      ensures Valid() && steps == old(steps) + [Take(name)]
      ensures Abs() == Apply(old(Abs()), Take(name))
      ensures item == old(queues)[name][0]
    {
      QueuePerAgent(names, source, steps);
      RunSnoc(Start(names, source), steps, Take(name));
      steps := steps + [Take(name)];
      item := queues[name][0];
      queues := queues[name := queues[name][1..]];
      delivered := delivered[name := delivered[name] + [item]];
    }

    /** Build the request for the other agents. */
    static method BuildForward(name: string, response: Response) returns (forwarded: Option<Request>)
      ensures forwarded == Translate(response, name)
    {
      forwarded := None;
      match response {
        case TaskResponse(task) =>
          forwarded := Some(EventDataMessage(TaskData(task), TASK_MEDIA, name));
        case StatusResponse(status) =>
          if status.message.Some? {
            forwarded := Some(ForwardMessage(status.message.value, name, StatusData(status), STATUS_MEDIA));
          } else {
            forwarded := Some(EventDataMessage(StatusData(status), STATUS_MEDIA, name));
          }
        case MessageUpdateResponse(update) =>
          var parts := update.message.parts + [DataPart(MessageUpdateData(update), MESSAGE_UPDATE_MEDIA)];
          forwarded := Some(MessageRequest(update.message.(role := UserRole, parts := parts)));
        case ArtifactResponse(artifact) =>
          forwarded := Some(ArtifactRequest(artifact));
        case MessageResponse(_) =>
      }
    }

    /** A reader takes one response: hand it to the output, and forward its translation, if it has one,
        to every other agent. */
    method ReadResponse(name: string, response: Response)
      requires Valid() && Enabled(Abs(), Read(name, response))
      modifies this
      ensures Valid() && steps == old(steps) + [Read(name, response)]
      ensures Abs() == Apply(old(Abs()), Read(name, response))
    {
      QueuePerAgent(names, source, steps);
      RunSnoc(Start(names, source), steps, Read(name, response));
      steps := steps + [Read(name, response)];
      output := output + [Some(Emission(name, response))];
      var forwarded := BuildForward(name, response);
      PeersAreExtended(queues, name, response, forwarded);
      if forwarded.Some? {
        PutToPeers(Item(forwarded.value), name);
      }
      assert queues == ToPeers(old(queues), name, forwarded);
      log := log + [FromAgent(name, response, forwarded)];
    }

    /** A reader ends, because its stream ended or failed or it was cancelled. */
    method ReaderDone(name: string)
      requires Valid() && Enabled(Abs(), EndReader(name))
      modifies this
      ensures Valid() && steps == old(steps) + [EndReader(name)]
      ensures Abs() == Apply(old(Abs()), EndReader(name))
    {
      QueuePerAgent(names, source, steps);
      RunSnoc(Start(names, source), steps, EndReader(name));
      steps := steps + [EndReader(name)];
      output := output + [None];
      reading := reading - {name};
    }

    /** The collector takes one item: count an end mark, or yield a response. */
    method CollectItem() returns (item: Option<Emission>)
      requires Valid() && Enabled(Abs(), Collect)
      modifies this
      ensures Valid() && steps == old(steps) + [Collect]
      ensures Abs() == Apply(old(Abs()), Collect)
      ensures item == old(output)[0]
    {
      QueuePerAgent(names, source, steps);
      RunSnoc(Start(names, source), steps, Collect);
      steps := steps + [Collect];
      item := output[0];
      output := output[1..];
      if item == None {
        doneCount := doneCount + 1;
      } else {
        yielded := yielded + [item.value];
      }
    }

    /** The collector leaves: let every send stream come to an end. */
    method TearDown()
      requires Valid() && Enabled(Abs(), Leave)
      modifies this
      ensures Valid() && steps == old(steps) + [Leave]
      ensures Abs() == Apply(old(Abs()), Leave)
    {
      QueuePerAgent(names, source, steps);
      RunSnoc(Start(names, source), steps, Leave);
      steps := steps + [Leave];
      EverybodyIsExtended(queues, Teardown, Sentinel);
      PutEverywhere(Sentinel);
      log, collecting := log + [Teardown], false;
    }
  }
}
