/** `ChatService.transformChatLogsToMessages`: stored chat rows as display messages. */
module ChatService {
  import opened Records

  datatype Message = Message(id: string, kind: Role, content: string, timestamp: int)

  /** One display message per row, in the same order, carrying the row's id, role, text
    * and send time. */
  function TransformChatLogsToMessages(logs: seq<ChatLog>): (r: seq<Message>)
    ensures |r| == |logs|
    ensures forall i :: 0 <= i < |logs| ==>
              r[i].id == logs[i].id && r[i].kind == logs[i].role
              && r[i].content == logs[i].message && r[i].timestamp == logs[i].timeSent
  {
    if logs == [] then []
    else [Message(logs[0].id, logs[0].role, logs[0].message, logs[0].timeSent)]
         + TransformChatLogsToMessages(logs[1..])
  }

  /** Transforming a history extended by one row extends the messages by that row's message. */
  lemma {:induction false} TransformAppend(logs: seq<ChatLog>, e: ChatLog)
    ensures TransformChatLogsToMessages(logs + [e])
            == TransformChatLogsToMessages(logs) + [Message(e.id, e.role, e.message, e.timeSent)]
  {
    var l := TransformChatLogsToMessages(logs + [e]);
    var r := TransformChatLogsToMessages(logs) + [Message(e.id, e.role, e.message, e.timeSent)];
    assert |l| == |r|;
    forall i | 0 <= i < |l| ensures l[i] == r[i] {
      if i < |logs| { assert (logs + [e])[i] == logs[i]; }
    }
  }
}
