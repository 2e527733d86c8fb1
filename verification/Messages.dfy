/** Messages as objects that are edited in place: the sender is written into a message's own metadata,
    and a peer's message is copied before it is edited for forwarding. */
module Messages {
  import opened Options
  import opened Wire

  class LiveMessage {
    var taskId: string
    var contextId: string
    var role: Role
    var parts: seq<Part>
    var metadata: map<string, Value>

    constructor (taskId: string, contextId: string, role: Role, parts: seq<Part>, metadata: map<string, Value>)
      ensures Contents() == Message(taskId, contextId, role, parts, metadata)
    {
      this.taskId, this.contextId, this.role, this.parts, this.metadata := taskId, contextId, role, parts, metadata;
    }

    function Contents(): Message
      reads this
    {
      Message(taskId, contextId, role, parts, metadata)
    }

    /** Only the shared-task entry of the metadata changes, and it then names the sender. */
    method SetSender(sender: string)
      modifies this`metadata
      ensures Contents() == SetMessageSender(old(Contents()), sender)
      ensures GetMessageSender(Contents()) == sender
    {
      var inner := map[MESSAGE_SENDER := StringValue(sender)];
      metadata := metadata[SHARED_TASK := StructValue(inner)];
      SenderIsStamped(old(Contents()), sender);
    }

    /** The text of the first part that is a text, or the empty string. */
    method GetText() returns (text: string)
      ensures text == GetMessageText(Contents())
      ensures (forall i :: 0 <= i < |parts| ==> !parts[i].TextPart?) ==> text == ""
      ensures forall k :: 0 <= k < |parts| && parts[k].TextPart? && (forall i :: 0 <= i < k ==> !parts[i].TextPart?) ==> text == parts[k].text
    {
      for i := 0 to |parts|
        invariant forall j :: 0 <= j < i ==> !parts[j].TextPart?
        invariant FirstText(parts) == FirstText(parts[i..])
      {
        if parts[i].TextPart? {
          return parts[i].text;
        }
        assert parts[i..][1..] == parts[i + 1..];
      }
      return "";
    }

    /** A copy with the user's role, a data part for the event after the original parts, and the sender
        stamped. The original keeps its contents. */
    method ForwardCopy(sender: string, event: EventData, mediaType: string) returns (forwarded: LiveMessage)
      ensures fresh(forwarded)
      ensures MessageRequest(forwarded.Contents()) == ForwardMessage(Contents(), sender, event, mediaType)
      ensures Contents() == old(Contents())
    {
      forwarded := new LiveMessage(taskId, contextId, role, parts, metadata);
      forwarded.role := UserRole;
      forwarded.parts := forwarded.parts + [DataPart(event, mediaType)];
      forwarded.SetSender(sender);
    }
  }
}
