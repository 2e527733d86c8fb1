/** The wire types of a live session, sender attribution, and the translation of one agent's
    response into a request for its peers. Identifiers that a participant generates at random
    (message, task and context ids) are not represented: an id the sender leaves open is "". */
module Wire {
  import opened Options

  const SHARED_TASK := "https://a2a-protocol.org/extensions/shared-task/v1"
  const MESSAGE_SENDER := "message-sender"

  const TASK_MEDIA := "application/vnd.a2a.task+json"
  const STATUS_MEDIA := "application/vnd.a2a.task-status-update+json"
  const MESSAGE_UPDATE_MEDIA := "application/vnd.a2a.task-message-update+json"

  /** A metadata value: a string, a struct, or one of the other JSON kinds. */
  datatype Value = StringValue(text: string) | StructValue(fields: map<string, Value>) | OtherValue(kind: nat)

  datatype Role = UserRole | AgentRole

  datatype TaskState = Working | InputRequired | Completed | OtherState(code: nat)

  datatype Task = Task(id: string, contextId: string)

  datatype StatusUpdate = StatusUpdate(taskId: string, contextId: string, state: TaskState, message: Option<Message>)

  datatype MessageUpdate = MessageUpdate(taskId: string, contextId: string, message: Message)

  datatype Artifact = Artifact(taskId: string, contextId: string, metadata: map<string, Value>, payload: string)

  /** The JSON form of an event, as carried by a data part. */
  datatype EventData = TaskData(task: Task) | StatusData(status: StatusUpdate) | MessageUpdateData(update: MessageUpdate)

  datatype Part = TextPart(text: string) | DataPart(data: EventData, mediaType: string) | FilePart(name: string)

  datatype Message = Message(taskId: string, contextId: string, role: Role, parts: seq<Part>, metadata: map<string, Value>)

  /** What an agent emits. */
  datatype Response =
    | TaskResponse(task: Task)
    | StatusResponse(status: StatusUpdate)
    | MessageUpdateResponse(update: MessageUpdate)
    | ArtifactResponse(artifact: Artifact)
    | MessageResponse(message: Message)

  /** What an agent receives. */
  datatype Request =
    | MessageRequest(message: Message)
    | ArtifactRequest(artifact: Artifact)
    | OtherRequest(kind: nat)

  // Sender attribution.

  function SetMessageSender(msg: Message, sender: string): Message {
    msg.(metadata := msg.metadata[SHARED_TASK := StructValue(map[MESSAGE_SENDER := StringValue(sender)])])
  }

  /** Reading an absent entry, or one of another kind, yields the empty string. */
  function GetMessageSender(msg: Message): string {
    if SHARED_TASK in msg.metadata && msg.metadata[SHARED_TASK].StructValue? then
      var fields := msg.metadata[SHARED_TASK].fields;
      if MESSAGE_SENDER in fields && fields[MESSAGE_SENDER].StringValue? then fields[MESSAGE_SENDER].text else ""
    else ""
  }

  function FirstText(parts: seq<Part>): string {
    if parts == [] then ""
    else if parts[0].TextPart? then parts[0].text
    else FirstText(parts[1..])
  }

  /** The first text part, or nothing. */
  function GetMessageText(msg: Message): string {
    FirstText(msg.parts)
  }

  function MakeAgentMessage(text: string, name: string, task: Task): Message {
    SetMessageSender(Message(task.id, task.contextId, AgentRole, [TextPart(text)], map[]), name)
  }

  /** A client request, stamped with the session's source name when there is one. */
  function Stamp(source: string, req: Request): Request {
    if source != "" && req.MessageRequest? then MessageRequest(SetMessageSender(req.message, source)) else req
  }

  // Translation of a peer's response.

  function ForwardMessage(msg: Message, sender: string, event: EventData, mediaType: string): Request {
    var forwarded := msg.(role := UserRole, parts := msg.parts + [DataPart(event, mediaType)]);
    MessageRequest(SetMessageSender(forwarded, sender))
  }

  function EventDataMessage(event: EventData, mediaType: string, sender: string): Request {
    MessageRequest(SetMessageSender(Message("", "", UserRole, [DataPart(event, mediaType)], map[]), sender))
  }

  /** The request that the relay sends to the peers of `sender`, if any. */
  function Translate(response: Response, sender: string): Option<Request> {
    match response
    case TaskResponse(task) =>
      Some(EventDataMessage(TaskData(task), TASK_MEDIA, sender))
    case StatusResponse(status) =>
      if status.message.Some? then
        Some(ForwardMessage(status.message.value, sender, StatusData(status), STATUS_MEDIA))
      else
        Some(EventDataMessage(StatusData(status), STATUS_MEDIA, sender))
    case MessageUpdateResponse(update) =>
      var msg := update.message;
      Some(MessageRequest(msg.(role := UserRole,
                               parts := msg.parts + [DataPart(MessageUpdateData(update), MESSAGE_UPDATE_MEDIA)])))
    case ArtifactResponse(artifact) =>
      Some(ArtifactRequest(artifact))
    case MessageResponse(_) =>
      None
  }

  /** The message-sender of a request that carries a message. */
  function SenderOf(req: Request): Option<string> {
    if req.MessageRequest? then Some(GetMessageSender(req.message)) else None
  }

  /** The text a client or an agent reads out of a response. */
  function ResponseText(response: Response): string {
    if response.StatusResponse? && response.status.message.Some? then GetMessageText(response.status.message.value) else ""
  }

  // What the translation keeps.

  lemma SenderIsStamped(msg: Message, sender: string)
    ensures GetMessageSender(SetMessageSender(msg, sender)) == sender
    ensures forall key :: key in msg.metadata && key != SHARED_TASK
              ==> key in SetMessageSender(msg, sender).metadata && SetMessageSender(msg, sender).metadata[key] == msg.metadata[key]
    ensures SetMessageSender(msg, sender).(metadata := msg.metadata) == msg
  {
  }

  lemma {:induction false} FirstTextSkipsData(parts: seq<Part>, tail: seq<Part>)
    requires forall i :: 0 <= i < |tail| ==> !tail[i].TextPart?
    ensures FirstText(parts + tail) == FirstText(parts)
  {
    if |parts| > 0 {
      assert (parts + tail)[1..] == parts[1..] + tail;
      FirstTextSkipsData(parts[1..], tail);
    } else if |tail| > 0 {
      assert parts + tail == tail;
      FirstTextSkipsData([], tail[1..]);
      assert [] + tail[1..] == tail[1..];
    }
  }

  lemma DataOnlyReadsEmpty(data: EventData, mediaType: string)
    ensures FirstText([DataPart(data, mediaType)]) == ""
  {
    assert [DataPart(data, mediaType)][1..] == [];
  }

  /** Forwarding a status: the original parts come first and one data part for the event follows, so
      the text a peer reads is the text the agent wrote; a status without a message reads as empty
      text. Every task and status item names the agent it came from, whatever that agent had
      stamped; a message update keeps the sender it arrived with. Other metadata, and the
      ids the agent put into its message, are untouched. */
  lemma TranslationPreservesContent(response: Response, sender: string)
    requires Translate(response, sender).Some? && Translate(response, sender).value.MessageRequest?
    ensures var msg := Translate(response, sender).value.message;
      && msg.role == UserRole
      && (response.TaskResponse? || response.StatusResponse? ==>
            && GetMessageSender(msg) == sender
            && GetMessageText(msg) == ResponseText(response))
      && (response.StatusResponse? && response.status.message.Some? ==>
            var original := response.status.message.value;
            && msg.parts == original.parts + [DataPart(StatusData(response.status), "application/vnd.a2a.task-status-update+json")]
            && msg.metadata - {SHARED_TASK} == original.metadata - {SHARED_TASK}
            && msg.taskId == original.taskId && msg.contextId == original.contextId)
      && (response.MessageUpdateResponse? ==>
            && GetMessageSender(msg) == GetMessageSender(response.update.message)
            && GetMessageText(msg) == GetMessageText(response.update.message)
            && msg.metadata == response.update.message.metadata
            && msg.parts == response.update.message.parts
                              + [DataPart(MessageUpdateData(response.update), "application/vnd.a2a.task-message-update+json")]
            && msg.taskId == response.update.message.taskId && msg.contextId == response.update.message.contextId)
  {
    match response
    case TaskResponse(task) =>
      DataOnlyReadsEmpty(TaskData(task), TASK_MEDIA);
    case StatusResponse(status) =>
      DataOnlyReadsEmpty(StatusData(status), STATUS_MEDIA);
      if status.message.Some? {
        FirstTextSkipsData(status.message.value.parts, [DataPart(StatusData(status), STATUS_MEDIA)]);
      }
    case MessageUpdateResponse(update) =>
      FirstTextSkipsData(update.message.parts, [DataPart(MessageUpdateData(update), MESSAGE_UPDATE_MEDIA)]);
    case _ =>
  }

  /** What is forwarded at all, and in which form: everything but a plain message; an artifact as it is;
      a task, or a status without a message, as one data part under no ids. */
  lemma FormOfForwarded(response: Response, sender: string)
    ensures Translate(response, sender) == None <==> response.MessageResponse?
    ensures response.ArtifactResponse? <==> Translate(response, sender).Some? && Translate(response, sender).value.ArtifactRequest?
    ensures response.ArtifactResponse? ==> Translate(response, sender).value.artifact == response.artifact
    ensures response.TaskResponse? || (response.StatusResponse? && response.status.message == None) ==>
              var msg := Translate(response, sender).value.message;
              && msg.taskId == "" && msg.contextId == "" && |msg.parts| == 1 && msg.parts[0].DataPart?
              && msg.parts[0].data == (if response.TaskResponse? then TaskData(response.task) else StatusData(response.status))
              && msg.parts[0].mediaType == (if response.TaskResponse? then "application/vnd.a2a.task+json"
                                            else "application/vnd.a2a.task-status-update+json")
              && msg.metadata.Keys == {SHARED_TASK}
  {
  }

  // Messages field by field.

  predicate HasSender(msg: Message, sender: string) {
    var key := "https://a2a-protocol.org/extensions/shared-task/v1";
    && key in msg.metadata && msg.metadata[key].StructValue?
    && "message-sender" in msg.metadata[key].fields && msg.metadata[key].fields["message-sender"] == StringValue(sender)
  }

  /** Where the sender is kept, and that nothing else is there; it reads as empty if it is not there. */
  lemma SenderIsKept(msg: Message, sender: string)
    ensures HasSender(SetMessageSender(msg, sender), sender)
    ensures SetMessageSender(msg, sender).metadata["https://a2a-protocol.org/extensions/shared-task/v1"].fields.Keys == {"message-sender"}
    ensures sender != "" ==> (GetMessageSender(msg) == sender <==> HasSender(msg, sender))
    ensures GetMessageSender(msg) == "" <==> forall other :: other != "" ==> !HasSender(msg, other)
  {
    if GetMessageSender(msg) != "" {
      assert HasSender(msg, GetMessageSender(msg));
    }
  }

  /** What is read of a message is its first text part, or the empty string if it has none. */
  lemma {:induction false} TextIsFirst(parts: seq<Part>)
    ensures if forall i :: 0 <= i < |parts| ==> !parts[i].TextPart? then FirstText(parts) == ""
            else exists i :: 0 <= i < |parts| && parts[i] == TextPart(FirstText(parts)) && forall k :: 0 <= k < i ==> !parts[k].TextPart?
  {
    if parts != [] && !parts[0].TextPart? {
      TextIsFirst(parts[1..]);
      if i :| 0 <= i < |parts| && parts[i].TextPart? {
        assert parts[1..][i - 1].TextPart?;
        var j :| 0 <= j < |parts[1..]| && parts[1..][j] == TextPart(FirstText(parts[1..])) && forall k :: 0 <= k < j ==> !parts[1..][k].TextPart?;
        assert parts[j + 1] == TextPart(FirstText(parts));
        forall k | 0 <= k < j + 1
          ensures !parts[k].TextPart?
        {
          assert k > 0 ==> parts[k] == parts[1..][k - 1];
        }
      } else {
        assert forall i :: 0 <= i < |parts[1..]| ==> parts[1..][i] == parts[i + 1];
      }
    }
  }

  /** A message that an agent makes: its text and nothing else, under the ids of its task and its own name. */
  predicate IsAgentMessage(msg: Message, text: string, name: string, taskId: string, contextId: string) {
    && msg.taskId == taskId && msg.contextId == contextId && msg.role == AgentRole && msg.parts == [TextPart(text)]
    && HasSender(msg, name) && msg.metadata.Keys == {"https://a2a-protocol.org/extensions/shared-task/v1"}
  }

  lemma AgentMessageIs(text: string, name: string, task: Task)
    ensures IsAgentMessage(MakeAgentMessage(text, name, task), text, name, task.id, task.contextId)
  {
    SenderIsKept(Message(task.id, task.contextId, AgentRole, [TextPart(text)], map[]), name);
  }

  /** A client request goes on as it is, but for the sender if there is a source name. */
  lemma StampIs(source: string, req: Request)
    ensures source == "" || !req.MessageRequest? ==> Stamp(source, req) == req
    ensures source != "" && req.MessageRequest? ==>
              && Stamp(source, req).MessageRequest? && HasSender(Stamp(source, req).message, source)
              && Stamp(source, req).message.(metadata := req.message.metadata) == req.message
              && Stamp(source, req).message.metadata - {"https://a2a-protocol.org/extensions/shared-task/v1"}
                   == req.message.metadata - {"https://a2a-protocol.org/extensions/shared-task/v1"}
  {
  }
}
