/** backend/qna_app/views.py: the document upload hook and the chat
    endpoint of the question-and-answer app, over its models in
    backend/qna_app/models.py. The database is the `QnaStore` class:
    documents and conversations by primary key, documents also in creation
    order (the newest is last), and all messages in creation order. The
    file processor and the agent are foreign: their outcomes are
    parameters. */
module QnaViews {
  import opened Common
  import opened Strings

  datatype Role = User | Assistant

  /** A `Document` row. */
  datatype Document = Document(owner: int, originalName: string, size: nat, contentType: string,
                               processed: bool, processingError: string)

  /** A `Conversation` row: its owner, title and linked documents. */
  datatype Conversation = Conversation(owner: int, title: string, documents: set<int>)

  /** A `Message` row. */
  datatype Message = Message(conversation: int, role: Role, content: string)

  /** The uploaded file of a create request: its name, size and content
      type (`None` when the client sent none). */
  datatype UploadedFile = UploadedFile(name: string, size: nat, contentType: Option<string>)

  /** `Conversation.thread_id`, the agent's memory key. */
  function ThreadId(owner: nat, pk: nat): (r: string)
    ensures StartsWith(r, "user-")
  {
    "user-" + NatToString(owner) + "-conv-" + NatToString(pk)
  }

  /** Different conversations, or the same key under different owners,
      never share a thread: the rendering is injective. */
  lemma ThreadIdInjective(owner1: nat, pk1: nat, owner2: nat, pk2: nat)
    requires ThreadId(owner1, pk1) == ThreadId(owner2, pk2)
    ensures owner1 == owner2 && pk1 == pk2
  {
    var s := ThreadId(owner1, pk1);
    ThreadIdParts(owner1, pk1);
    ThreadIdParts(owner2, pk2);
    NatToStringInjective(owner1, owner2);
    NatToStringInjective(pk1, pk2);
  }

  /** Where the owner and the key sit in a thread id: the owner is the
      digit run after "user-", the key all that follows "-conv-". */
  lemma ThreadIdParts(owner: nat, pk: nat)
    ensures var s, a := ThreadId(owner, pk), NatToString(owner);
      DigitRun(s[5..]) == |a| && s[5..][..|a|] == a && s[5..][|a| + 6..] == NatToString(pk)
  {
    var s, a := ThreadId(owner, pk), NatToString(owner);
    var tail := "-conv-" + NatToString(pk);
    assert s == "user-" + (a + tail);
    assert s[5..] == a + tail;
    DigitRunOfNumber(a, tail);
    assert (a + tail)[|a| + 6..] == NatToString(pk);
  }

  const UnableToProcess := "Unable to process file."

  /** `(processed, processing_error)` after the processor ran: it either
      returned a flag or raised an exception with a message. */
  function ProcessingFlags(outcome: Result<bool, string>): (r: (bool, string))
    ensures r.0 <==> outcome == Ok(true)
    ensures outcome.Ok? ==> (r.1 == "" <==> r.0)
    ensures outcome.Err? ==> r.1 == outcome.error
  {
    match outcome
    case Ok(processed) => (processed, if processed then "" else UnableToProcess)
    case Err(message) => (false, message)
  }

  /** A document that processed carries no error; one that reported
      failure carries the fixed message. */
  lemma ProcessingFlagsCases(outcome: Result<bool, string>)
    ensures ProcessingFlags(outcome) == (true, "") <==> outcome == Ok(true)
    ensures ProcessingFlags(outcome) == (false, UnableToProcess) <==>
      outcome == Ok(false) || outcome == Err(UnableToProcess)
  {
  }

  /** The validated data of `ChatRequestSerializer`. */
  datatype ChatData = ChatData(message: string, conversationId: Option<int>, title: Option<string>, documentIds: seq<int>)

  /** `if conversation_id:`: a key was given and it is not zero. */
  predicate Fetches(data: ChatData) {
    data.conversationId.Some? && data.conversationId.value != 0
  }

  /** The text of the 400 DRF answers for a blank `CharField`. */
  const BlankField := "This field may not be blank."

  /** `ChatRequestSerializer` on its string fields: `message`, a
      `CharField` with DRF's defaults, is stripped and refused when blank;
      `validate_title` strips the title. */
  function ValidateChat(message: string, conversationId: Option<int>, title: Option<string>,
                        documentIds: seq<int>): (r: Result<ChatData, HttpError>)
    ensures r.Err? <==> IsBlank(message)
    ensures r.Err? ==> r.error == HttpError(400, BlankField)
    ensures r.Ok? ==> r.value == ChatData(Strip(message), conversationId,
                                          match title case Some(t) => Some(Strip(t)) case None => None, documentIds)
  {
    if IsBlank(message) then Err(HttpError(400, BlankField))
    else Ok(ChatData(Strip(message), conversationId,
                     match title case Some(t) => Some(Strip(t)) case None => None, documentIds))
  }

  /** The view's own empty-message check never fires for validated data:
      the serializer has already stripped the message and refused blanks. */
  lemma ValidatedMessageNotBlank(message: string, conversationId: Option<int>, title: Option<string>,
                                 documentIds: seq<int>)
    requires ValidateChat(message, conversationId, title, documentIds).Ok?
    ensures var m := ValidateChat(message, conversationId, title, documentIds).value.message;
      Strip(m) == m && m != ""
  {
    StripIdempotent(message);
  }

  /** The title `_get_or_create_conversation` gives a new conversation: the
      stripped title, else the first 80 characters of the message, stripped,
      else "Conversation". */
  function NewTitle(title: string, message: string): (r: string)
    ensures r != ""
  {
    var t := Strip(title);
    var inferred := if t != "" then t else Take(message, 80);
    var cleaned := Strip(inferred);
    if cleaned == "" then "Conversation" else cleaned
  }

  /** A new conversation's title carries no surrounding whitespace. */
  lemma NewTitleTrimmed(title: string, message: string)
    ensures Trimmed(NewTitle(title, message))
  {
    if Strip(title) != "" {
      StripIdempotent(title);
      StripEnds(title);
    } else {
      StripEnds(Take(message, 80));
    }
  }

  /** A non-blank title is kept as stripped; a blank one gives way to the
      message's opening, stripped, or to "Conversation" when that is blank
      too. */
  lemma NewTitleSource(title: string, message: string)
    ensures Strip(title) != "" ==> NewTitle(title, message) == Strip(title)
    ensures Strip(title) == "" ==>
      NewTitle(title, message) == if Strip(Take(message, 80)) == "" then "Conversation" else Strip(Take(message, 80))
  {
    if Strip(title) != "" {
      StripIdempotent(title);
    }
  }

  /** Keys in strictly increasing order, as the store hands them out. */
  predicate Ascending(xs: seq<int>) {
    forall i, j :: 0 <= i < j < |xs| ==> xs[i] < xs[j]
  }

  predicate Descending(xs: seq<int>) {
    forall i, j :: 0 <= i < j < |xs| ==> xs[i] > xs[j]
  }

  /** `order` lists every key of `docs` once, oldest first. */
  ghost predicate OrderedKeys(order: seq<int>, docs: map<int, Document>) {
    Ascending(order) && Distinct(order) && forall d :: d in order <==> d in docs
  }

  /** A key newer than every listed one keeps the listing ordered. */
  lemma {:induction false} OrderedKeysAppend(order: seq<int>, docs: map<int, Document>, id: int, doc: Document)
    requires OrderedKeys(order, docs)
    requires forall d :: d in docs ==> d < id
    ensures OrderedKeys(order + [id], docs[id := doc])
  {
    var o := order + [id];
    forall i, j | 0 <= i < j < |o|
      ensures o[i] < o[j]
    {
      if j == |order| {
        assert o[i] == order[i] && order[i] in docs;
      } else {
        assert o[i] == order[i] && o[j] == order[j];
      }
    }
  }

  /** The keys before the newest of an ascending listing stay ascending
      and are all older than it. */
  lemma {:induction false} AscendingFront(front: seq<int>, last: int)
    requires Ascending(front + [last])
    ensures Ascending(front)
    ensures forall x :: x in front ==> x < last
  {
    var order := front + [last];
    forall i, j | 0 <= i < j < |front|
      ensures front[i] < front[j]
    {
      assert order[i] == front[i] && order[j] == front[j];
    }
    forall x | x in front
      ensures x < last
    {
      var k :| 0 <= k < |front| && front[k] == x;
      assert order[k] == x && order[|front|] == last;
    }
  }

  /** A key newer than every key of a descending listing heads it. */
  lemma {:induction false} DescendingCons(d: int, rest: seq<int>)
    requires Descending(rest)
    requires forall x :: x in rest ==> x < d
    ensures Descending([d] + rest) && Distinct([d] + rest)
  {
    var o := [d] + rest;
    forall i, j | 0 <= i < j < |o|
      ensures o[i] > o[j]
    {
      assert o[j] == rest[j - 1] && rest[j - 1] in rest;
      if i > 0 {
        assert o[i] == rest[i - 1];
      }
    }
  }

  /** `(documents newest first)`: the keys of `order` satisfying the
      filter, from the newest back to the oldest. Over keys handed out in
      increasing order the result is strictly decreasing, so it is the
      one listing of the selected keys newest first, each key once. */
  function NewestFirst(order: seq<int>, docs: map<int, Document>, ids: set<int>, owner: Option<int>): (r: seq<int>)
    ensures forall d :: d in r <==> (d in order && d in ids && d in docs &&
      (owner.Some? ==> docs[d].owner == owner.value))
    ensures |r| <= |order|
    ensures Ascending(order) ==> Descending(r) && Distinct(r)
  {
    if order == [] then []
    else
      var d := order[|order| - 1];
      var rest := NewestFirst(order[..|order| - 1], docs, ids, owner);
      assert forall x :: x in order <==> x == d || x in order[..|order| - 1];
      var keep := d in ids && d in docs && (owner.Some? ==> docs[d].owner == owner.value);
      if keep && Ascending(order) then
        assert order == order[..|order| - 1] + [d];
        AscendingFront(order[..|order| - 1], d);
        DescendingCons(d, rest);
        [d] + rest
      else if keep then [d] + rest
      else rest
  }

  /** The names of the unprocessed documents among `selected`, in order. */
  function Unprocessed(selected: seq<int>, docs: map<int, Document>): (names: seq<string>)
    requires forall d :: d in selected ==> d in docs
    ensures names == [] <==> forall d :: d in selected ==> docs[d].processed
  {
    if selected == [] then []
    else
      var rest := Unprocessed(selected[1..], docs);
      assert forall x :: x in selected <==> x == selected[0] || x in selected[1..];
      if docs[selected[0]].processed then rest else [docs[selected[0]].originalName] + rest
  }

  function StillProcessing(names: seq<string>): string {
    "Some documents are still processing: " + Join(", ", names)
  }

  const NoFile := "No file provided."
  const MessageEmpty := "Message cannot be empty."
  const ConversationMissing := "No Conversation matches the given query."
  const AgentFailed := "I'm sorry, something went wrong while generating a response. Please try again later."

  /** The agent's answer, or the apology shown when it raised. */
  function Reply(answer: Result<string, string>): (r: string)
    ensures answer.Ok? ==> r == answer.value
    ensures answer.Err? ==> r == AgentFailed
  {
    match answer
    case Ok(text) => text
    case Err(_) => AgentFailed
  }

  class QnaStore {
    var documents: map<int, Document>
    var documentOrder: seq<int>
    var conversations: map<int, Conversation>
    var messages: seq<Message>
    var nextDocument: int
    var nextConversation: int

    ghost predicate Valid()
      reads this
    {
      nextDocument >= 1 && nextConversation >= 1 &&
      (forall d :: d in documents ==> 1 <= d < nextDocument) &&
      (forall c :: c in conversations ==> 1 <= c < nextConversation) &&
      OrderedKeys(documentOrder, documents)
    }

    constructor()
      ensures Valid() && documents == map[] && documentOrder == [] && conversations == map[] && messages == []
    {
      documents := map[];
      documentOrder := [];
      conversations := map[];
      messages := [];
      nextDocument := 1;
      nextConversation := 1;
    }

    /** `DocumentViewSet.perform_create`: without a file, 400 and nothing
        stored; otherwise the document is saved under the next key, its
        name, size and content type copied from the upload and its
        processing flags set from the processor's outcome. */
    method PerformCreate(owner: int, file: Option<UploadedFile>, outcome: Result<bool, string>)
      returns (r: Result<int, HttpError>)
      requires Valid()
      modifies this
      ensures Valid() && conversations == old(conversations) && messages == old(messages)
      ensures file.None? ==> (r == Err(HttpError(400, NoFile)) &&
        documents == old(documents) && documentOrder == old(documentOrder) && nextDocument == old(nextDocument))
      ensures file.Some? ==> (r == Ok(old(nextDocument)) && old(nextDocument) !in old(documents) &&
        documentOrder == old(documentOrder) + [old(nextDocument)] &&
        documents == old(documents)[old(nextDocument) :=
          Document(owner, file.value.name, file.value.size, file.value.contentType.GetOr(""),
                   ProcessingFlags(outcome).0, ProcessingFlags(outcome).1)])
    {
      if file.None? {
        return Err(HttpError(400, NoFile));
      }
      var upload := file.value;
      var id := nextDocument;
      var document := Document(owner, "", 0, "", false, "");
      nextDocument := nextDocument + 1;
      document := document.(originalName := upload.name);
      document := document.(size := upload.size);
      document := document.(contentType := upload.contentType.GetOr(""));
      var processingError := "";
      var processed := false;
      match outcome {
        case Err(message) =>
          processingError := message;
        case Ok(flag) =>
          processed := flag;
          processingError := if processed then "" else UnableToProcess;
      }
      document := document.(processed := processed, processingError := processingError);
      OrderedKeysAppend(documentOrder, documents, id, document);
      documents := documents[id := document];
      documentOrder := documentOrder + [id];
      r := Ok(id);
    }

    /** The fetch branch of `ChatView._get_or_create_conversation`: the
        caller's conversation `k` (404 for a missing key or another owner's),
        renamed only to a non-blank `title` that differs. */
    method FetchConversation(user: int, k: int, title: string) returns (r: Result<int, HttpError>)
      requires Valid()
      modifies this
      ensures Valid() && documents == old(documents) && documentOrder == old(documentOrder)
      ensures messages == old(messages) && nextConversation == old(nextConversation)
      ensures k in old(conversations) && old(conversations)[k].owner == user ==>
        r == Ok(k) &&
        conversations == old(conversations)[k := old(conversations)[k].(
          title := if title != "" then title else old(conversations)[k].title)]
      ensures !(k in old(conversations) && old(conversations)[k].owner == user) ==>
        r == Err(HttpError(404, ConversationMissing)) && conversations == old(conversations)
    {
      if k !in conversations || conversations[k].owner != user {
        return Err(HttpError(404, ConversationMissing));
      }
      var conversation := conversations[k];
      if title != "" && conversation.title != title {
        conversations := conversations[k := conversation.(title := title)];
      } else {
        assert conversation.(title := if title != "" then title else conversation.title) == conversation;
      }
      r := Ok(k);
    }

    /** `Conversation.objects.create`: a new row under the next key. */
    method CreateConversation(user: int, title: string) returns (id: int)
      requires Valid()
      modifies this
      ensures Valid() && documents == old(documents) && documentOrder == old(documentOrder)
      ensures messages == old(messages)
      ensures id == old(nextConversation) && id !in old(conversations)
      ensures conversations == old(conversations)[id := Conversation(user, title, {})]
    {
      id := nextConversation;
      conversations := conversations[id := Conversation(user, title, {})];
      nextConversation := nextConversation + 1;
    }

    /** `ChatView._get_or_create_conversation`. A non-zero key fetches the
        caller's conversation; otherwise a new one is created with
        `NewTitle`. */
    method GetOrCreateConversation(user: int, data: ChatData) returns (r: Result<int, HttpError>)
      requires Valid()
      modifies this
      ensures Valid() && documents == old(documents) && documentOrder == old(documentOrder)
      ensures messages == old(messages)
      ensures r.Ok? ==> r.value in conversations && conversations[r.value].owner == user
      ensures Fetches(data) ==>
        var k, title := data.conversationId.value, Strip(data.title.GetOr(""));
        if k in old(conversations) && old(conversations)[k].owner == user then
          r == Ok(k) &&
          conversations == old(conversations)[k := old(conversations)[k].(
            title := if title != "" then title else old(conversations)[k].title)]
        else
          r == Err(HttpError(404, ConversationMissing)) && conversations == old(conversations)
      ensures !Fetches(data) ==>
        r == Ok(old(nextConversation)) && old(nextConversation) !in old(conversations) &&
        conversations == old(conversations)[old(nextConversation) :=
          Conversation(user, NewTitle(data.title.GetOr(""), data.message), {})]
      ensures r.Err? <==> Fetches(data) && !(data.conversationId.value in old(conversations) &&
                                             old(conversations)[data.conversationId.value].owner == user)
      ensures r.Err? ==> r == Err(HttpError(404, ConversationMissing)) && conversations == old(conversations)
      ensures r.Ok? ==> r.value == if Fetches(data) then data.conversationId.value else old(nextConversation)
      ensures !Fetches(data) ==>
        old(nextConversation) !in old(conversations) && conversations.Keys == old(conversations).Keys + {old(nextConversation)}
    {
      if Fetches(data) {
        r := FetchConversation(user, data.conversationId.value, Strip(data.title.GetOr("")));
      } else {
        var id := CreateConversation(user, NewTitle(data.title.GetOr(""), data.message));
        r := Ok(id);
      }
    }

    /** `ChatView._attach_documents`. With no ids nothing changes. Otherwise
        the caller's documents among the ids are selected, newest first;
        if any of them is unprocessed, 400 lists their names and nothing is
        attached; else all of them are linked to the conversation. The
        result is the selection, or the conversation's documents when the
        selection is empty. */
    method AttachDocuments(conversation: int, ids: seq<int>, user: int) returns (r: Result<seq<int>, HttpError>)
      requires Valid() && conversation in conversations
      modifies this
      ensures Valid() && documents == old(documents) && documentOrder == old(documentOrder)
      ensures messages == old(messages) && nextConversation == old(nextConversation)
      ensures var selected := NewestFirst(documentOrder, documents, (set d | d in ids), Some(user));
        if ids == [] then
          conversations == old(conversations) &&
          r == Ok(NewestFirst(documentOrder, documents, old(conversations)[conversation].documents, None))
        else if Unprocessed(selected, documents) != [] then
          conversations == old(conversations) &&
          r == Err(HttpError(400, StillProcessing(Unprocessed(selected, documents))))
        else
          conversations == old(conversations)[conversation := old(conversations)[conversation].(
            documents := old(conversations)[conversation].documents + (set d | d in selected))] &&
          r.Ok? && (selected != [] ==> r.value == selected)
    {
      var c := conversations[conversation];
      if ids == [] {
        return Ok(NewestFirst(documentOrder, documents, c.documents, None));
      }
      var selected := NewestFirst(documentOrder, documents, (set d | d in ids), Some(user));
      var names := Unprocessed(selected, documents);
      if names != [] {
        return Err(HttpError(400, StillProcessing(names)));
      }
      c := c.(documents := c.documents + (set d | d in selected));
      conversations := conversations[conversation := c];
      if selected != [] {
        r := Ok(selected);
      } else {
        r := Ok(NewestFirst(documentOrder, documents, c.documents, None));
      }
    }

    /** The rest of `ChatView.post` once the conversation `id` is known:
        the empty-message check, the document check, then the user's
        message and the agent's answer (or the apology), in that order. */
    method Respond(id: int, user: nat, text: string, documentIds: seq<int>,
                   agent: (string, string) -> Result<string, string>)
      returns (r: Result<int, HttpError>)
      requires Valid() && id in conversations && conversations[id].owner == user
      modifies this
      ensures Valid() && documents == old(documents) && documentOrder == old(documentOrder)
      ensures id in conversations && conversations[id].owner == user
      ensures conversations.Keys == old(conversations).Keys
      ensures text == "" ==> r == Err(HttpError(400, MessageEmpty)) && conversations == old(conversations)
      ensures r.Err? ==> messages == old(messages)
      ensures r.Ok? ==> (r.value == id && text != "" &&
        messages == old(messages) + [Message(id, User, text),
                                     Message(id, Assistant, Reply(agent(text, ThreadId(user, id as nat))))])
    {
      if text == "" {
        return Err(HttpError(400, MessageEmpty));
      }
      ghost var before := conversations;
      var attached := AttachDocuments(id, documentIds, user);
      assert conversations.Keys == before.Keys && conversations[id].owner == user by {
        if documentIds != [] && conversations != before {
          assert conversations == before[id := conversations[id]];
        }
      }
      if attached.Err? {
        return Err(attached.error);
      }
      messages := messages + [Message(id, User, text)];
      var answer := agent(text, ThreadId(user, id as nat));
      messages := messages + [Message(id, Assistant, Reply(answer))];
      r := Ok(id);
    }

    /** `ChatView.post` on validated data. The conversation is fetched or
        created first and stays so whatever happens next: a blank message
        is refused only after a new conversation has been stored. */
    method ChatPost(user: nat, data: ChatData, agent: (string, string) -> Result<string, string>)
      returns (r: Result<int, HttpError>)
      requires Valid()
      modifies this
      ensures Valid() && documents == old(documents) && documentOrder == old(documentOrder)
      ensures r.Err? ==> messages == old(messages)
      ensures Fetches(data) && !(data.conversationId.value in old(conversations) &&
                                 old(conversations)[data.conversationId.value].owner == user) ==>
        r == Err(HttpError(404, ConversationMissing)) && conversations == old(conversations)
      ensures !Fetches(data) ==>
        old(nextConversation) !in old(conversations) &&
        conversations.Keys == old(conversations).Keys + {old(nextConversation)} &&
        (IsBlank(data.message) ==> r == Err(HttpError(400, MessageEmpty)))
      ensures r.Ok? ==>
        r.value in conversations && conversations[r.value].owner == user &&
        r.value == (if Fetches(data) then data.conversationId.value else old(nextConversation))
      ensures r.Ok? ==>
        var text := Strip(data.message);
        text != "" &&
        messages == old(messages) + [Message(r.value, User, text),
                                     Message(r.value, Assistant, Reply(agent(text, ThreadId(user, r.value as nat))))]
    {
      var text := Strip(data.message);
      var found := GetOrCreateConversation(user, data);
      if found.Err? {
        return Err(found.error);
      }
      ghost var created := conversations;
      r := Respond(found.value, user, text, data.documentIds, agent);
      assert conversations.Keys == created.Keys;
    }
  }
}
