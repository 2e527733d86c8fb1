/** The multicast transport as the object it is: one merged queue, filled by the fan-out task and by the
    relay loop. Each method is what one coroutine does between two suspensions. */
module GroupTransport {
  import opened Options
  import opened Wire
  import opened Relay
  import opened Multicast
  import opened NStreams

  class MulticastBroadcast {
    const source: string
    var queue: seq<Slot>
    /** What the relay loop holds between handing a response to the caller and relaying it. */
    var pending: Option<Emission>

    ghost var clientOpen: bool
    ghost var relaying: bool
    ghost var log: seq<Entry>
    ghost var sent: seq<Slot>
    ghost var yielded: seq<Emission>
    ghost var moves: seq<Move>

    ghost function Abs(): Group
      reads this
    {
      Group(source, queue, clientOpen, relaying, pending, log, sent, yielded)
    }

    ghost predicate Valid()
      reads this
    {
      CanMoves(Open(source), moves) && Abs() == AfterMoves(Open(source), moves)
    }

    constructor (source: string)
      ensures Valid() && moves == [] && this.source == source
    {
      this.source, queue, pending := source, [], None;
      clientOpen, relaying, log, sent, yielded, moves := true, true, [], [], [], [];
    }

    method PutRequest(request: Request)
      requires Valid() && CanMove(Abs(), Put(request))
      modifies this
      ensures Valid() && moves == old(moves) + [Put(request)] && Abs() == MoveTo(old(Abs()), Put(request))
    {
      MoveSnoc(Open(source), moves, Put(request));
      var stamped := request;
      if source != "" && request.MessageRequest? {
        stamped := MessageRequest(SetMessageSender(request.message, source));
      }
      queue := queue + [Item(stamped)];
      log, moves := log + [FromClient(stamped)], moves + [Put(request)];
    }

    method CloseSendSide()
      requires Valid() && CanMove(Abs(), CloseGroup)
      modifies this
      ensures Valid() && moves == old(moves) + [CloseGroup] && Abs() == MoveTo(old(Abs()), CloseGroup)
    {
      MoveSnoc(Open(source), moves, CloseGroup);
      queue := queue + [Sentinel];
      log, clientOpen, moves := log + [CloseSends], false, moves + [CloseGroup];
    }

    method NextItem() returns (item: Slot)
      requires Valid() && CanMove(Abs(), Move.Send)
      modifies this
      ensures Valid() && moves == old(moves) + [Move.Send] && Abs() == MoveTo(old(Abs()), Move.Send)
      ensures item == old(queue)[0]
    {
      MoveSnoc(Open(source), moves, Move.Send);
      item := queue[0];
      queue := queue[1..];
      sent, moves := sent + [item], moves + [Move.Send];
    }

    /** A response arrives and is handed to the caller first. */
    method YieldResponse(name: string, response: Response)
      requires Valid() && CanMove(Abs(), Arrive(name, response))
      modifies this
      ensures Valid() && moves == old(moves) + [Arrive(name, response)] && Abs() == MoveTo(old(Abs()), Arrive(name, response))
    {
      MoveSnoc(Open(source), moves, Arrive(name, response));
      pending := Some(Emission(name, response));
      yielded, moves := yielded + [Emission(name, response)], moves + [Arrive(name, response)];
    }

    /** When the caller comes back for more, the response is relayed to the whole group. */
    method RelayResponse()
      requires Valid() && CanMove(Abs(), RelayPending)
      modifies this
      ensures Valid() && moves == old(moves) + [RelayPending] && Abs() == MoveTo(old(Abs()), RelayPending)
    {
      MoveSnoc(Open(source), moves, RelayPending);
      var name, response := pending.value.name, pending.value.response;
      var forwarded := NStreamsBroadcast.BuildForward(name, response);
      if forwarded.Some? {
        queue := queue + [Item(forwarded.value)];
      }
      assert queue == old(queue) + MergedContribution(Forward(name, response));
      pending := None;
      log, moves := log + [FromAgent(name, response, forwarded)], moves + [RelayPending];
    }

    method StopRelaying()
      requires Valid() && CanMove(Abs(), Stop)
      modifies this
      ensures Valid() && moves == old(moves) + [Stop] && Abs() == MoveTo(old(Abs()), Stop)
    {
      MoveSnoc(Open(source), moves, Stop);
      queue := queue + [Sentinel];
      log, relaying, moves := log + [Teardown], false, moves + [Stop];
    }
  }
}
