/** `end_conversation`, `get_conversation` and `get_conversation_messages`.
    The HTTP exchange is a parameter: `reply` is what the server answers to the
    request, and the `sent` trace of a `Call` records which requests were
    issued, so that "rejected before any request is made" can be stated. */
module Conversations {
  import opened PyValues

  const ConversationsUrl: string := "https://tavusapi.com/v2/conversations"

  datatype Verb = HttpGet | HttpPost

  datatype Request = Request(verb: Verb, url: string)

  /** An HTTP reply; `body` is None when it is not valid JSON. */
  datatype Response = Response(status: int, body: Option<Json>)

  /** The requests issued and the value returned or the exception raised. */
  datatype Call = Call(sent: seq<Request>, result: Result<Json, PyError>)

  /** `bool(conversation_id)` for an id that is `None` or a string. */
  predicate IdGiven(id: Option<string>) {
    id.Some? && id.value != ""
  }

  /** `f"{ConversationsUrl}/{conversation_id}{suffix}"`. */
  function ConversationUrl(id: string, suffix: string): string {
    ConversationsUrl + "/" + id + suffix
  }

  /** For one operation, the URL string handed to `requests` determines the
      conversation id. */
  lemma ConversationUrlInjective(id1: string, id2: string, suffix: string)
    requires ConversationUrl(id1, suffix) == ConversationUrl(id2, suffix)
    ensures id1 == id2
  {
    var p := ConversationsUrl + "/";
    var u1 := ConversationUrl(id1, suffix);
    var u2 := ConversationUrl(id2, suffix);
    assert |id1| == |id2|;
    assert u1[|p|..|p| + |id1|] == id1;
    assert u2[|p|..|p| + |id2|] == id2;
  }

  /** `response.raise_for_status()`: a 4xx or 5xx status raises. */
  predicate IsHttpError(status: int) {
    400 <= status < 600
  }

  /** `response.raise_for_status(); return response.json()`. */
  function CheckedJson(reply: Response): (r: Result<Json, PyError>)
    ensures r.Success? <==> !IsHttpError(reply.status) && reply.body.Some?
    ensures r.Success? ==> r.value == reply.body.value
    ensures r.Failure? ==> r.error == (if IsHttpError(reply.status) then HttpError(reply.status) else JsonDecodeError)
  {
    if IsHttpError(reply.status) then Failure(HttpError(reply.status))
    else if reply.body.None? then Failure(JsonDecodeError)
    else Success(reply.body.value)
  }

  /** The shape normalisation of the decoded messages reply: a dict with a
      `"data"` key gives that value, a list is returned as it is, and any other
      value gives the empty list. */
  function MessagesShape(data: Json): (r: Json)
    ensures data.JList? ==> r == data
    ensures data.JObj? && "data" in data.fields ==> r == data.fields["data"]
    ensures !data.JList? && !(data.JObj? && "data" in data.fields) ==> r == JList([])
  {
    match data
    case JObj(m) => if "data" in m then m["data"] else JList([])
    case JList(_) => data
    case _ => JList([])
  }

  /** What `get_conversation_messages` does with the reply: 404 gives `[]`
      whatever the body, another 4xx/5xx raises, an unparsable body raises,
      and a parsed body is normalised by `MessagesShape`. */
  function MessagesFromReply(reply: Response): (r: Result<Json, PyError>)
    ensures reply.status == 404 ==> r == Success(JList([]))
    ensures reply.status != 404 && IsHttpError(reply.status) ==> r == Failure(HttpError(reply.status))
    ensures !IsHttpError(reply.status) && reply.body.None? ==> r == Failure(JsonDecodeError)
    ensures !IsHttpError(reply.status) && reply.body.Some? ==> r == Success(MessagesShape(reply.body.value))
  {
    if reply.status == 404 then Success(JList([]))
    else match CheckedJson(reply)
      case Failure(e) => Failure(e)
      case Success(data) => Success(MessagesShape(data))
  }

  /** `end_conversation(conversation_id)`. */
  function EndConversation(id: Option<string>, reply: Response): (c: Call)
    ensures c.sent == [] <==> !IdGiven(id)
    ensures c.result == Failure(ValueError) <==> !IdGiven(id)
    ensures IdGiven(id) ==> c.sent == [Request(HttpPost, ConversationUrl(id.value, "/end"))] && c.result == CheckedJson(reply)
  {
    if !IdGiven(id) then Call([], Failure(ValueError))
    else Call([Request(HttpPost, ConversationUrl(id.value, "/end"))], CheckedJson(reply))
  }

  /** `get_conversation(conversation_id)`. */
  function GetConversation(id: Option<string>, reply: Response): (c: Call)
    ensures c.sent == [] <==> !IdGiven(id)
    ensures c.result == Failure(ValueError) <==> !IdGiven(id)
    ensures IdGiven(id) ==> c.sent == [Request(HttpGet, ConversationUrl(id.value, ""))] && c.result == CheckedJson(reply)
  {
    if !IdGiven(id) then Call([], Failure(ValueError))
    else Call([Request(HttpGet, ConversationUrl(id.value, ""))], CheckedJson(reply))
  }

  /** `get_conversation_messages(conversation_id)`. */
  function GetConversationMessages(id: Option<string>, reply: Response): (c: Call)
    ensures c.sent == [] <==> !IdGiven(id)
    ensures c.result == Failure(ValueError) <==> !IdGiven(id)
    ensures IdGiven(id) ==> c.sent == [Request(HttpGet, ConversationUrl(id.value, "/messages"))]
    ensures IdGiven(id) && reply.status == 404 ==> c.result == Success(JList([]))
    ensures IdGiven(id) ==> c.result == MessagesFromReply(reply)
  {
    if !IdGiven(id) then Call([], Failure(ValueError))
    else Call([Request(HttpGet, ConversationUrl(id.value, "/messages"))], MessagesFromReply(reply))
  }

  /** The id is put into the URL string unescaped, so asking for the
      conversation whose id is `id + "/messages"` hands `requests` exactly the
      request that asks for the messages of `id`. */
  lemma UnescapedIdAliasesMessagesRequest(id: string, reply: Response)
    requires id != ""
    ensures GetConversation(Some(id + "/messages"), reply).sent == GetConversationMessages(Some(id), reply).sent
  {
    assert ConversationUrl(id + "/messages", "") == ConversationUrl(id, "/messages");
  }

  /** A missing or empty id is rejected by all three operations with
      ValueError, before any request, whatever the server would have said. */
  lemma EmptyIdRejectedBeforeRequest(id: Option<string>, reply1: Response, reply2: Response)
    requires !IdGiven(id)
    ensures EndConversation(id, reply1) == EndConversation(id, reply2) == Call([], Failure(ValueError))
    ensures GetConversation(id, reply1) == GetConversation(id, reply2) == Call([], Failure(ValueError))
    ensures GetConversationMessages(id, reply1) == GetConversationMessages(id, reply2) == Call([], Failure(ValueError))
  {
  }
}
