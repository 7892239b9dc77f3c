/** backend/router/chat.py: the in-memory `conversations` store behind the
    chat endpoints. Each thread id maps to its history; the endpoints list,
    read, delete, clear and export threads, and a streamed query appends the
    user's message and then the agent's reply. The clock and the agent
    graph's `process_query` are foreign: the time and the agent's answer
    (or the exception it raised) are parameters. */
module Chat {
  import opened Common
  import opened Strings

  /** A `ChatMessage`. `metadata` holds what an assistant message records
      about the answer: the agent type, confidence and processing time, each
      `None` when the agent's response did not carry it. */
  datatype ChatMessage = ChatMessage(role: string, content: string, timestamp: string, metadata: Option<Metadata>)
  datatype Metadata = Metadata(agentType: Json, confidence: Json, processingTime: Json)

  /** A `ConversationHistory`. */
  datatype Conversation = Conversation(threadId: string, messages: seq<ChatMessage>, createdAt: string, updatedAt: string)

  /** One element of the `GET /conversations` listing. */
  datatype Summary = Summary(threadId: string, messageCount: nat, createdAt: string, updatedAt: string, lastMessage: string)

  /** What `process_query` answered: its `message` and the three fields
      copied into the metadata. */
  datatype AgentAnswer = AgentAnswer(message: string, agentType: Json, confidence: Json, processingTime: Json)

  /** The server-sent events of a streamed query, in order. */
  datatype StreamEvent =
    | UserMessageEvent(message: ChatMessage)
    | ProcessingEvent
    | AssistantMessageEvent(message: ChatMessage)
    | CompleteEvent
    | ErrorEvent(error: string)

  /** The preview of a thread's latest message: its first 100 characters,
      always followed by "...", or "" for an empty thread. */
  function LastMessage(messages: seq<ChatMessage>): (r: string)
    ensures messages == [] <==> r == []
    ensures messages != [] ==>
      var content := messages[|messages| - 1].content;
      r == content[..if |content| < 100 then |content| else 100] + "..."
    ensures messages != [] ==> (|r| <= 103 && EndsWith(r, "...") &&
      StartsWith(messages[|messages| - 1].content, r[..|r| - 3]))
  {
    if messages == [] then ""
    else
      var preview := Take(messages[|messages| - 1].content, 100);
      var r := preview + "...";
      assert r[..|r| - 3] == preview;
      r
  }

  /** A thread's listing entry: its id, its message count, its stamps and
      the preview, empty exactly for an empty thread. */
  function Summarise(c: Conversation, threadId: string): (r: Summary)
    ensures r.threadId == threadId && r.messageCount == |c.messages|
    ensures r.createdAt == c.createdAt && r.updatedAt == c.updatedAt
    ensures r.lastMessage == [] <==> c.messages == []
    ensures |r.lastMessage| <= 103
  {
    Summary(threadId, |c.messages|, c.createdAt, c.updatedAt, LastMessage(c.messages))
  }

  function DeletedMessage(threadId: string, found: bool): string {
    if found then "Conversation " + threadId + " deleted successfully"
    else "Conversation " + threadId + " not found"
  }

  /** What `stream_query` raises without an agent graph: `str()` of the
      inner `HTTPException(503, ...)`, wrapped in a 500. */
  const NoGraph := HttpError(500, "503: Agent Graph not initialized")

  /** `conversations`: thread id to history, in insertion order. */
  class ConversationStore {
    var order: seq<string>
    var conversations: map<string, Conversation>

    ghost predicate Valid()
      reads this
    {
      Distinct(order) && forall t :: t in conversations <==> t in order
    }

    constructor()
      ensures Valid() && order == [] && conversations == map[]
    {
      order := [];
      conversations := map[];
    }

    /** `get_conversations`: one summary per thread, in store order, each
        counting that thread's messages. */
    function ListConversations(): (r: seq<Summary>)
      requires Valid()
      reads this
      ensures |r| == |order|
      ensures forall i :: 0 <= i < |r| ==>
        var c := conversations[order[i]];
        r[i].threadId == order[i] && r[i].messageCount == |c.messages| &&
        r[i].createdAt == c.createdAt && r[i].updatedAt == c.updatedAt &&
        r[i].lastMessage == LastMessage(c.messages)
    {
      var ids, convs := order, conversations;
      seq(|ids|, i requires 0 <= i < |ids| && ids[i] in convs => Summarise(convs[ids[i]], ids[i]))
    }

    /** `get_conversation`: a known thread as stored; an unknown one as a
        fresh empty history, reported as new but not stored (this is a
        function of the store, which it leaves as it is). */
    function GetConversation(threadId: string, now: string): (r: (Conversation, string))
      reads this
      ensures threadId in conversations ==>
        r == (conversations[threadId], "Conversation retrieved successfully")
      ensures threadId !in conversations ==>
        r.0.threadId == threadId && r.0.messages == [] && r.1 == "New conversation created"
    {
      if threadId in conversations then (conversations[threadId], "Conversation retrieved successfully")
      else (Conversation(threadId, [], now, now), "New conversation created")
    }

    /** `export_conversation`: 404 for an unknown thread. */
    function ExportConversation(threadId: string): (r: Result<Conversation, HttpError>)
      reads this
      ensures threadId !in conversations <==> r == Err(HttpError(404, "Conversation not found"))
      ensures threadId in conversations ==> r == Ok(conversations[threadId])
    {
      if threadId !in conversations then Err(HttpError(404, "Conversation not found"))
      else Ok(conversations[threadId])
    }

    /** `delete_conversation`: removes the thread if present; succeeds
        either way, saying which happened. */
    method DeleteConversation(threadId: string) returns (message: string)
      requires Valid()
      modifies this
      ensures Valid()
      ensures conversations == map t | t in old(conversations) && t != threadId :: old(conversations)[t]
      ensures message == DeletedMessage(threadId, threadId in old(conversations))
    {
      if threadId in conversations {
        conversations := map t | t in conversations && t != threadId :: conversations[t];
        order := Remove(order, threadId);
        message := DeletedMessage(threadId, true);
      } else {
        message := DeletedMessage(threadId, false);
      }
    }

    /** `clear_conversation`: empties a known thread and stamps it; an
        unknown thread is left unknown. Success is reported either way. */
    method ClearConversation(threadId: string, now: string) returns (message: string)
      requires Valid()
      modifies this
      ensures Valid() && order == old(order)
      ensures threadId in old(conversations) ==>
        conversations == old(conversations)[threadId := old(conversations)[threadId].(messages := [], updatedAt := now)]
      ensures threadId !in old(conversations) ==> conversations == old(conversations)
      ensures message == "Conversation " + threadId + " cleared successfully"
    {
      if threadId in conversations {
        var c := conversations[threadId];
        conversations := conversations[threadId := c.(messages := [])];
        conversations := conversations[threadId := conversations[threadId].(updatedAt := now)];
      }
      message := "Conversation " + threadId + " cleared successfully";
    }

    /** `conversations[thread_id].messages.append(message)`. */
    method Append(threadId: string, message: ChatMessage)
      requires Valid() && threadId in conversations
      modifies this
      ensures Valid() && order == old(order)
      ensures conversations == old(conversations)[threadId :=
        old(conversations)[threadId].(messages := old(conversations)[threadId].messages + [message])]
    {
      var c := conversations[threadId];
      conversations := conversations[threadId := c.(messages := c.messages + [message])];
    }

    /** `stream_query` with its event stream read to the end. The thread is
        created when absent and the user's message is stored before the
        agent is asked; the reply is stored after it, so a completed turn
        adds exactly two messages and a failed one leaves the user's message
        alone in place. Without an agent graph nothing happens: the 503 the
        handler raises is caught by its own `except Exception` and re-raised
        as a 500 whose detail is the 503's text. */
    method StreamQuery(graphReady: bool, query: string, threadId: string, now: string,
                       answer: Result<AgentAnswer, string>)
      returns (r: Result<seq<StreamEvent>, HttpError>)
      requires Valid()
      modifies this
      ensures Valid()
      ensures !graphReady ==> (r == Err(NoGraph) &&
        conversations == old(conversations) && order == old(order))
      ensures graphReady ==> (r.Ok? && threadId in conversations &&
        (forall t :: t in conversations <==> t in old(conversations) || t == threadId) &&
        (forall t :: t in old(conversations) && t != threadId ==> conversations[t] == old(conversations)[t]))
      ensures graphReady ==>
        var before := if threadId in old(conversations) then old(conversations)[threadId].messages else [];
        var user := ChatMessage("user", query, now, None);
        match answer
        case Ok(a) =>
          var assistant := ChatMessage("assistant", a.message, now,
                                       Some(Metadata(a.agentType, a.confidence, a.processingTime)));
          conversations[threadId].messages == before + [user] + [assistant] &&
          conversations[threadId].updatedAt == now &&
          r.value == [UserMessageEvent(user), ProcessingEvent, AssistantMessageEvent(assistant), CompleteEvent]
        case Err(e) =>
          conversations[threadId].messages == before + [user] &&
          conversations[threadId].updatedAt ==
            (if threadId in old(conversations) then old(conversations)[threadId].updatedAt else now) &&
          r.value == [UserMessageEvent(user), ProcessingEvent, ErrorEvent(e)]
    {
      if !graphReady {
        return Err(NoGraph);
      }
      var user := ChatMessage("user", query, now, None);
      ghost var before := if threadId in conversations then conversations[threadId].messages else [];
      Open(threadId, now);
      Append(threadId, user);
      match answer {
        case Ok(a) =>
          var assistant := ChatMessage("assistant", a.message, now,
                                       Some(Metadata(a.agentType, a.confidence, a.processingTime)));
          Append(threadId, assistant);
          conversations := conversations[threadId := conversations[threadId].(updatedAt := now)];
          r := Ok([UserMessageEvent(user), ProcessingEvent, AssistantMessageEvent(assistant), CompleteEvent]);
        case Err(e) =>
          r := Ok([UserMessageEvent(user), ProcessingEvent, ErrorEvent(e)]);
      }
    }

    /** The thread `threadId`, created empty at `now` when absent; every
        other thread is untouched. */
    method Open(threadId: string, now: string)
      requires Valid()
      modifies this
      ensures Valid() && threadId in conversations
      ensures forall t :: t in conversations <==> t in old(conversations) || t == threadId
      ensures forall t :: t in old(conversations) && t != threadId ==> conversations[t] == old(conversations)[t]
      ensures conversations[threadId] ==
        if threadId in old(conversations) then old(conversations)[threadId] else Conversation(threadId, [], now, now)
    {
      if threadId !in conversations {
        conversations := conversations[threadId := Conversation(threadId, [], now, now)];
        order := order + [threadId];
      }
    }
  }

  /** `ids` without `x`. */
  function Remove(ids: seq<string>, x: string): (r: seq<string>)
    ensures forall t :: t in r <==> t in ids && t != x
    ensures Distinct(ids) ==> Distinct(r)
  {
    if ids == [] then []
    else
      var rest := Remove(ids[1..], x);
      assert forall t :: t in ids <==> t == ids[0] || t in ids[1..];
      if ids[0] == x then rest
      else
        assert Distinct(ids) ==> Distinct([ids[0]] + rest) by {
          if Distinct(ids) {
            assert Distinct(ids[1..]) && ids[0] !in ids[1..];
            DistinctCons(ids[0], rest);
          }
        }
        [ids[0]] + rest
  }
}
