/** The long-lived loop of one execution: ask the model, answer its tool uses, take what has come into
    the inbox, and ask again. What the model replies, whether an event is taken, and what the inbox
    holds are left open. */
module LlmLoop {
  import opened Sequences
  import opened Options

  /** A tool's input as it decodes: not at all, or to a message. */
  datatype Input = Undecodable | Decoded(message: string)

  datatype Block = TextBlock(text: string) | ToolUse(id: string, name: string, input: Input)

  /** One entry of the transcript. */
  datatype Turn = UserText(text: string) | ToolResults(ids: seq<string>) | Assistant(blocks: seq<Block>)

  /** What a look into the inbox finds. */
  datatype Poll = Incoming(text: string) | Empty | Closed | ContextDone

  /** What the environment does in one round: the model's reply, or an error; for each event the loop
      yields, whether the consumer goes on; and what the inbox holds. */
  datatype Round = Round(reply: Option<seq<Block>>, goesOn: seq<bool>, poll: Poll)

  function UseIds(blocks: seq<Block>): seq<string> {
    if blocks == [] then []
    else
      var last := blocks[|blocks| - 1];
      UseIds(blocks[..|blocks| - 1]) + if last.ToolUse? then [last.id] else []
  }

  predicate Responds(block: Block) {
    block.ToolUse? && block.name == "respond" && block.input.Decoded? && block.input.message != ""
  }

  /** What a reply has to say to the channel. */
  function ToSay(blocks: seq<Block>): seq<string> {
    if blocks == [] then []
    else
      var last := blocks[|blocks| - 1];
      ToSay(blocks[..|blocks| - 1]) + if Responds(last) then [last.input.message] else []
  }

  // Well-formed transcripts.

  predicate UsesTools(turn: Turn) {
    turn.Assistant? && UseIds(turn.blocks) != []
  }

  /** What may come after a turn: one result per tool use, with the same ids in the same order, at once
      after the turn that uses them, and nowhere else; after a turn of the model that uses no tool, a
      message. */
  predicate MayFollow(one: Turn, two: Turn) {
    && (UsesTools(one) ==> two == ToolResults(UseIds(one.blocks)))
    && (two.ToolResults? ==> UsesTools(one))
    && (one.Assistant? && !UsesTools(one) ==> two.UserText?)
  }

  predicate FollowsAt(turns: seq<Turn>, i: nat) {
    i + 1 < |turns| ==> MayFollow(turns[i], turns[i + 1])
  }

  /** A transcript that may be sent starts with a message and ends with a user's turn, and every turn may
      follow the one before. */
  ghost predicate WellFormed(turns: seq<Turn>) {
    && turns != [] && turns[0].UserText? && !turns[|turns| - 1].Assistant?
    && forall i: nat :: FollowsAt(turns, i)
  }

  function UserTexts(turns: seq<Turn>): seq<string> {
    if turns == [] then []
    else
      var last := turns[|turns| - 1];
      UserTexts(turns[..|turns| - 1]) + if last.UserText? then [last.text] else []
  }

  function ModelTurns(turns: seq<Turn>): seq<seq<Block>> {
    if turns == [] then []
    else
      var last := turns[|turns| - 1];
      ModelTurns(turns[..|turns| - 1]) + if last.Assistant? then [last.blocks] else []
  }

  function Incomings(rounds: seq<Round>): seq<string> {
    if rounds == [] then []
    else
      var last := rounds[|rounds| - 1];
      Incomings(rounds[..|rounds| - 1]) + if last.poll.Incoming? then [last.poll.text] else []
  }

  function Answers(rounds: seq<Round>): seq<seq<Block>> {
    if rounds == [] then []
    else
      var last := rounds[|rounds| - 1];
      Answers(rounds[..|rounds| - 1]) + if last.reply.Some? then [last.reply.value] else []
  }

  function AllToSay(rounds: seq<Round>): seq<string> {
    if rounds == [] then []
    else
      var last := rounds[|rounds| - 1];
      AllToSay(rounds[..|rounds| - 1]) + if last.reply.Some? then ToSay(last.reply.value) else []
  }

  lemma TurnsSnoc(turns: seq<Turn>, turn: Turn)
    ensures UserTexts(turns + [turn]) == UserTexts(turns) + if turn.UserText? then [turn.text] else []
    ensures ModelTurns(turns + [turn]) == ModelTurns(turns) + if turn.Assistant? then [turn.blocks] else []
  {
    assert (turns + [turn])[..|turns|] == turns;
  }

  /** The transcript after some rounds: well-formed, with the first message and every message taken from
      the inbox once each in order, and with the model's replies in order. */
  ghost predicate Records(turns: seq<Turn>, initial: string, rounds: seq<Round>) {
    WellFormed(turns) && UserTexts(turns) == [initial] + Incomings(rounds) && ModelTurns(turns) == Answers(rounds)
  }

  /** What one round adds to the transcript. */
  function Added(blocks: seq<Block>, incoming: Option<string>): seq<Turn> {
    [Assistant(blocks)]
    + (if UseIds(blocks) != [] then [ToolResults(UseIds(blocks))] else [])
    + (if incoming.Some? then [UserText(incoming.value)] else [])
  }

  function FromInbox(poll: Poll): Option<string> {
    if poll.Incoming? then Some(poll.text) else None
  }

  lemma RoundKeepsForm(turns: seq<Turn>, blocks: seq<Block>, incoming: Option<string>)
    requires WellFormed(turns) && (UseIds(blocks) == [] ==> incoming.Some?)
    ensures WellFormed(turns + Added(blocks, incoming))
  {
    var longer := turns + Added(blocks, incoming);
    forall i: nat
      ensures FollowsAt(longer, i)
    {
      assert FollowsAt(turns, i);
    }
  }

  lemma AddedTexts(turns: seq<Turn>, blocks: seq<Block>, incoming: Option<string>)
    ensures UserTexts(turns + Added(blocks, incoming)) == UserTexts(turns) + if incoming.Some? then [incoming.value] else []
    ensures ModelTurns(turns + Added(blocks, incoming)) == ModelTurns(turns) + [blocks]
  {
    var results := if UseIds(blocks) != [] then [ToolResults(UseIds(blocks))] else [];
    var one := turns + [Assistant(blocks)];
    TurnsSnoc(turns, Assistant(blocks));
    var two := one + results;
    if results != [] {
      TurnsSnoc(one, results[0]);
    } else {
      assert two == one;
    }
    var tail := if incoming.Some? then [UserText(incoming.value)] else [];
    if incoming.Some? {
      TurnsSnoc(two, tail[0]);
    } else {
      assert two + tail == two;
    }
    Rebracket(turns, [Assistant(blocks)], results);
    Rebracket(turns, [Assistant(blocks)] + results, tail);
  }

  /** A round after which the loop goes on is recorded. */
  lemma RoundIsRecorded(turns: seq<Turn>, initial: string, rounds: seq<Round>, k: nat)
    requires k < |rounds| && Records(turns, initial, rounds[..k]) && rounds[k].reply.Some?
    requires UseIds(rounds[k].reply.value) == [] ==> rounds[k].poll.Incoming?
    ensures Records(turns + Added(rounds[k].reply.value, FromInbox(rounds[k].poll)), initial, rounds[..k + 1])
  {
    assert rounds[..k + 1][..k] == rounds[..k];
    RoundKeepsForm(turns, rounds[k].reply.value, FromInbox(rounds[k].poll));
    AddedTexts(turns, rounds[k].reply.value, FromInbox(rounds[k].poll));
  }

  lemma FirstIsRecorded(initial: string, rounds: seq<Round>)
    ensures Records([UserText(initial)], initial, rounds[..0])
  {
    assert [UserText(initial)][..0] == [];
  }

  /** Every call of the model had a transcript of the rounds before it. */
  ghost predicate AllRecorded(calls: seq<seq<Turn>>, initial: string, rounds: seq<Round>) {
    |calls| <= |rounds| && forall k :: 0 <= k < |calls| ==> Records(calls[k], initial, rounds[..k])
  }

  lemma CallIsRecorded(calls: seq<seq<Turn>>, turns: seq<Turn>, initial: string, rounds: seq<Round>)
    requires AllRecorded(calls, initial, rounds) && |calls| < |rounds| && Records(turns, initial, rounds[..|calls|])
    ensures AllRecorded(calls + [turns], initial, rounds)
  {
  }

  /** What was yielded by the end of a round: all that the rounds before had to say, and of this one at
      least a part. */
  ghost predicate Yielded(events: seq<string>, rounds: seq<Round>) {
    && events <= AllToSay(rounds)
    && (rounds != [] ==> AllToSay(rounds[..|rounds| - 1]) <= events)
  }

  predicate GoesOnAfter(goesOn: seq<bool>, i: nat) {
    i < |goesOn| && goesOn[i]
  }

  /** The consumer goes on after each of the first `n` events. */
  predicate Accepts(goesOn: seq<bool>, n: nat) {
    forall i: nat :: i < n ==> GoesOnAfter(goesOn, i)
  }

  /** What the consumer is told of what there is to say: all of it, or up to the first event after which it
      does not go on. */
  ghost predicate Told(told: seq<string>, toSay: seq<string>, goesOn: seq<bool>) {
    if Accepts(goesOn, |toSay|) then told == toSay
    else told != [] && told <= toSay && Accepts(goesOn, |told| - 1) && !Accepts(goesOn, |told|)
  }

  /** What the consumer was told in the rounds that were made: everything in all of them but the last, and
      in that one as much as it took. */
  ghost predicate ToldInAll(events: seq<string>, rounds: seq<Round>) {
    if rounds == [] then events == []
    else
      var before, last := AllToSay(rounds[..|rounds| - 1]), rounds[|rounds| - 1];
      before <= events && Told(events[|before|..], if last.reply.Some? then ToSay(last.reply.value) else [], last.goesOn)
  }

  lemma PrefixConcat<T>(a: seq<T>, b: seq<T>, c: seq<T>)
    requires b <= c
    ensures a <= a + b <= a + c
  {
  }

  lemma RoundIsYielded(events: seq<string>, said: seq<string>, rounds: seq<Round>, k: nat)
    requires k < |rounds| && events == AllToSay(rounds[..k])
    requires said <= if rounds[k].reply.Some? then ToSay(rounds[k].reply.value) else []
    requires Told(said, if rounds[k].reply.Some? then ToSay(rounds[k].reply.value) else [], rounds[k].goesOn)
    ensures Yielded(events + said, rounds[..k + 1]) && ToldInAll(events + said, rounds[..k + 1])
    ensures rounds[k].reply.Some? && said == ToSay(rounds[k].reply.value) ==> events + said == AllToSay(rounds[..k + 1])
  {
    var longer, all := rounds[..k + 1], if rounds[k].reply.Some? then ToSay(rounds[k].reply.value) else [];
    assert longer[..k] == rounds[..k];
    assert AllToSay(longer) == events + all;
    PrefixConcat(events, said, all);
  }

  // When the loop stops.

  /** A reply brings the loop to its end, or to waiting for good, if the consumer stops, the inbox is closed
      or the context done; or if no tool was used and no message is there. */
  predicate ReplyEnds(blocks: seq<Block>, goesOn: seq<bool>, poll: Poll) {
    || !Accepts(goesOn, |ToSay(blocks)|)
    || poll == Closed || poll == ContextDone
    || (UseIds(blocks) == [] && poll == Empty)
  }

  /** So does an error of the model. */
  predicate RoundEnds(round: Round) {
    round.reply.Some? ==> ReplyEnds(round.reply.value, round.goesOn, round.poll)
  }

  /** The rounds that are made: up to the first one that ends the loop. */
  function Made(rounds: seq<Round>): (n: nat)
    ensures n <= |rounds|
    ensures forall k :: 0 <= k < n - 1 ==> !RoundEnds(rounds[k])
    ensures n < |rounds| ==> n > 0 && RoundEnds(rounds[n - 1])
  {
    var first := First(RoundEnds, rounds, 0);
    if first < |rounds| then first + 1 else |rounds|
  }

  lemma AcceptsFewer(goesOn: seq<bool>, n: nat, m: nat)
    requires n <= m
    ensures Accepts(goesOn, m) ==> Accepts(goesOn, n)
    ensures !Accepts(goesOn, n) ==> !Accepts(goesOn, m)
  {
  }

  lemma RoundsGoOn(rounds: seq<Round>, k: nat)
    requires k < |rounds| && First(RoundEnds, rounds, 0) >= k
    ensures RoundEnds(rounds[k]) <==> First(RoundEnds, rounds, 0) == k
  {
  }

  lemma {:induction false} ToSayGrows(blocks: seq<Block>, i: nat)
    requires i <= |blocks|
    ensures ToSay(blocks[..i]) <= ToSay(blocks)
  {
    if i < |blocks| {
      assert blocks[..|blocks| - 1][..i] == blocks[..i];
      ToSayGrows(blocks[..|blocks| - 1], i);
    } else {
      assert blocks[..i] == blocks;
    }
  }

  // What these say about single blocks and rounds.

  predicate IsUse(block: Block) {
    block.ToolUse?
  }

  function IdOf(block: Block): string {
    if block.ToolUse? then block.id else ""
  }

  predicate IsRespond(block: Block) {
    block.ToolUse? && block.name == "respond" && block.input.Decoded? && block.input.message != ""
  }

  function MessageOf(block: Block): string {
    if block.ToolUse? && block.input.Decoded? then block.input.message else ""
  }

  /** The ids of exactly the blocks that use a tool, whichever tool it is and whatever its input, in order. */
  ghost predicate IdsOfUses(blocks: seq<Block>, ids: seq<string>) {
    ListsSome(blocks, IsUse, IdOf, ids)
  }

  /** The messages of exactly the uses of the tool named respond whose input decodes to one that is not empty. */
  ghost predicate MessagesOfResponds(blocks: seq<Block>, messages: seq<string>) {
    ListsSome(blocks, IsRespond, MessageOf, messages)
  }

  lemma {:induction false} UsesArePicked(blocks: seq<Block>)
    ensures UseIds(blocks) == Picked(IsUse, IdOf, blocks)
  {
    if blocks != [] {
      UsesArePicked(blocks[..|blocks| - 1]);
    }
  }

  lemma UsesAreListed(blocks: seq<Block>)
    ensures IdsOfUses(blocks, UseIds(blocks))
  {
    UsesArePicked(blocks);
    PickedIsListed(IsUse, IdOf, blocks);
  }

  lemma {:induction false} RespondsArePicked(blocks: seq<Block>)
    ensures ToSay(blocks) == Picked(IsRespond, MessageOf, blocks)
  {
    if blocks != [] {
      RespondsArePicked(blocks[..|blocks| - 1]);
    }
  }

  lemma RespondsAreListed(blocks: seq<Block>)
    ensures MessagesOfResponds(blocks, ToSay(blocks))
  {
    RespondsArePicked(blocks);
    PickedIsListed(IsRespond, MessageOf, blocks);
  }

  predicate HasIncoming(round: Round) {
    round.poll.Incoming?
  }

  function IncomingOf(round: Round): string {
    if round.poll.Incoming? then round.poll.text else ""
  }

  predicate HasReply(round: Round) {
    round.reply.Some?
  }

  function ReplyOf(round: Round): seq<Block> {
    if round.reply.Some? then round.reply.value else []
  }

  lemma {:induction false} RoundsArePicked(rounds: seq<Round>)
    ensures Incomings(rounds) == Picked(HasIncoming, IncomingOf, rounds)
    ensures Answers(rounds) == Picked(HasReply, ReplyOf, rounds)
  {
    if rounds != [] {
      RoundsArePicked(rounds[..|rounds| - 1]);
    }
  }

  lemma RoundsAreListed(rounds: seq<Round>)
    ensures ListsSome(rounds, HasIncoming, IncomingOf, Incomings(rounds))
    ensures ListsSome(rounds, HasReply, ReplyOf, Answers(rounds))
  {
    RoundsArePicked(rounds);
    PickedIsListed(HasIncoming, IncomingOf, rounds);
    PickedIsListed(HasReply, ReplyOf, rounds);
  }

  predicate IsText(turn: Turn) {
    turn.UserText?
  }

  function TextOf(turn: Turn): string {
    if turn.UserText? then turn.text else ""
  }

  predicate IsModels(turn: Turn) {
    turn.Assistant?
  }

  function BlocksOf(turn: Turn): seq<Block> {
    if turn.Assistant? then turn.blocks else []
  }

  lemma {:induction false} TurnsArePicked(turns: seq<Turn>)
    ensures UserTexts(turns) == Picked(IsText, TextOf, turns)
    ensures ModelTurns(turns) == Picked(IsModels, BlocksOf, turns)
  {
    if turns != [] {
      TurnsArePicked(turns[..|turns| - 1]);
    }
  }

  lemma TurnsAreListed(turns: seq<Turn>)
    ensures ListsSome(turns, IsText, TextOf, UserTexts(turns))
    ensures ListsSome(turns, IsModels, BlocksOf, ModelTurns(turns))
  {
    TurnsArePicked(turns);
    PickedIsListed(IsText, TextOf, turns);
    PickedIsListed(IsModels, BlocksOf, turns);
  }

  lemma {:induction false} NoUses(blocks: seq<Block>)
    ensures UseIds(blocks) == [] <==> forall i :: 0 <= i < |blocks| ==> !blocks[i].ToolUse?
  {
    if blocks != [] {
      NoUses(blocks[..|blocks| - 1]);
    }
  }

  /** A turn of the model with at least one use of a tool is followed by the results: one for each use, with
      the same ids in the same order. */
  ghost predicate UsesAnswered(turns: seq<Turn>) {
    forall i :: 0 <= i < |turns| && turns[i].Assistant? && (exists b :: b in turns[i].blocks && b.ToolUse?) ==>
      i + 1 < |turns| && turns[i + 1].ToolResults? && IdsOfUses(turns[i].blocks, turns[i + 1].ids)
  }

  lemma WellFormedAnswers(turns: seq<Turn>)
    requires WellFormed(turns)
    ensures UsesAnswered(turns)
  {
    forall i | 0 <= i < |turns| && turns[i].Assistant? && exists b :: b in turns[i].blocks && b.ToolUse?
      ensures i + 1 < |turns| && turns[i + 1].ToolResults? && IdsOfUses(turns[i].blocks, turns[i + 1].ids)
    {
      UsesAreListed(turns[i].blocks);
      NoUses(turns[i].blocks);
      assert FollowsAt(turns, i);
    }
  }

  ghost predicate AllAnswered(calls: seq<seq<Turn>>) {
    forall k :: 0 <= k < |calls| ==> UsesAnswered(calls[k])
  }

  lemma RecordedAreAnswered(calls: seq<seq<Turn>>, initial: string, rounds: seq<Round>)
    requires AllRecorded(calls, initial, rounds)
    ensures AllAnswered(calls)
  {
    forall k | 0 <= k < |calls|
      ensures UsesAnswered(calls[k])
    {
      assert Records(calls[k], initial, rounds[..k]);
      WellFormedAnswers(calls[k]);
    }
  }

  lemma AcceptsIff(goesOn: seq<bool>, n: nat)
    ensures Accepts(goesOn, n) <==> n <= |goesOn| && forall i :: 0 <= i < n ==> goesOn[i]
  {
    if Accepts(goesOn, n) {
      assert n > 0 ==> GoesOnAfter(goesOn, n - 1);
      forall i | 0 <= i < n
        ensures goesOn[i]
      {
        assert GoesOnAfter(goesOn, i);
      }
    }
  }

  /** The loop goes on after a round exactly if the model has replied, the consumer goes on after each of the
      messages, the inbox is open and the context not done, and, unless a message has come in, some block
      uses a tool. */
  lemma GoesOnIff(round: Round)
    ensures !RoundEnds(round) <==>
              && round.reply.Some?
              && |ToSay(round.reply.value)| <= |round.goesOn| && (forall i :: 0 <= i < |ToSay(round.reply.value)| ==> round.goesOn[i])
              && round.poll != Closed && round.poll != ContextDone
              && (round.poll == Empty ==> exists i :: 0 <= i < |round.reply.value| && round.reply.value[i].ToolUse?)
  {
    if round.reply.Some? {
      NoUses(round.reply.value);
      AcceptsIff(round.goesOn, |ToSay(round.reply.value)|);
    }
  }

  /** The loop over the blocks of one reply: yield what is to be said, and collect one result per use. It
      stops exactly if the consumer does not go on after one of the events, which is then the last. */
  method HandleBlocks(blocks: seq<Block>, goesOn: seq<bool>) returns (events: seq<string>, ids: seq<string>, stopped: bool)
    ensures stopped <==> !Accepts(goesOn, |ToSay(blocks)|)
    ensures !stopped ==> IdsOfUses(blocks, ids) && MessagesOfResponds(blocks, events)
    ensures Told(events, ToSay(blocks), goesOn)
    ensures !stopped ==> ids == UseIds(blocks) && events == ToSay(blocks)
    ensures events <= ToSay(blocks)
  {
    events, ids, stopped := [], [], false;
    for i := 0 to |blocks|
      invariant ids == UseIds(blocks[..i]) && events == ToSay(blocks[..i])
      invariant !stopped && Accepts(goesOn, |events|)
    {
      assert blocks[..i + 1][..i] == blocks[..i];
      if blocks[i].ToolUse? {
        if Responds(blocks[i]) {
          events := events + [blocks[i].input.message];
          if !GoesOnAfter(goesOn, |events| - 1) {
            stopped := true;
            ToSayGrows(blocks, i + 1);
            AcceptsFewer(goesOn, |events|, |ToSay(blocks)|);
            return;
          }
        }
        ids := ids + [blocks[i].id];
      }
    }
    assert blocks[..|blocks|] == blocks;
    UsesAreListed(blocks);
    RespondsAreListed(blocks);
  }

  /** What one reply brings about: the transcript grows by the reply, its results, and a message from the
      inbox, for which the loop waits only when there are no results. */
  method TakeRound(messages: seq<Turn>, blocks: seq<Block>, goesOn: seq<bool>, poll: Poll) returns (longer: seq<Turn>, said: seq<string>, ended: bool)
    ensures ended <==> ReplyEnds(blocks, goesOn, poll)
    ensures Told(said, ToSay(blocks), goesOn)
    ensures said <= ToSay(blocks)
    ensures !ended ==> said == ToSay(blocks) && longer == messages + Added(blocks, FromInbox(poll))
    ensures !ended && UseIds(blocks) == [] ==> poll.Incoming?
  {
    longer := messages + [Assistant(blocks)];
    var toolResults;
    said, toolResults, ended := HandleBlocks(blocks, goesOn);
    if ended {
      return;
    }
    if |toolResults| > 0 {
      longer := longer + [ToolResults(toolResults)];
      match poll {
        case Incoming(text) => longer := longer + [UserText(text)];
        case Closed => ended := true;
        case ContextDone => ended := true;
        case Empty =>
      }
    } else {
      match poll {
        case Incoming(text) => longer := longer + [UserText(text)];
        case Closed => ended := true;
        case ContextDone => ended := true;
        case Empty => ended := true;
      }
    }
  }

  /** `calls` is the transcript with which the model was called in each round; `events` is what was
      yielded. The model is called in every round up to the first that ends the loop: by an error of the
      model, when the consumer stops, when the inbox is closed or the context done, or because the loop
      needs a message and there is none, for which it goes on waiting. */
  method RunLoop(initial: string, rounds: seq<Round>) returns (calls: seq<seq<Turn>>, events: seq<string>)
    ensures |calls| == Made(rounds)
    ensures AllRecorded(calls, initial, rounds) && AllAnswered(calls)
    ensures ToldInAll(events, rounds[..|calls|])
    ensures Yielded(events, rounds[..|calls|])
  {
    var messages := [UserText(initial)];
    calls, events := [], [];
    FirstIsRecorded(initial, rounds);
    for k := 0 to |rounds|
      invariant |calls| == k && AllRecorded(calls, initial, rounds) && AllAnswered(calls)
      invariant First(RoundEnds, rounds, 0) >= k
      invariant Records(messages, initial, rounds[..k])
      invariant events == AllToSay(rounds[..k]) && Yielded(events, rounds[..k]) && ToldInAll(events, rounds[..k])
    {
      CallIsRecorded(calls, messages, initial, rounds);
      calls := calls + [messages];
      RecordedAreAnswered(calls, initial, rounds);
      var reply := rounds[k].reply;
      RoundsGoOn(rounds, k);
      if reply == None {
        RoundIsYielded(events, [], rounds, k);
        assert events + [] == events;
        return;
      }
      var longer, said, ended := TakeRound(messages, reply.value, rounds[k].goesOn, rounds[k].poll);
      RoundIsYielded(events, said, rounds, k);
      events := events + said;
      if ended {
        return;
      }
      RoundIsRecorded(messages, initial, rounds, k);
      messages := longer;
    }
  }
}
