/** backend/agent/views.py: the chat endpoint of the agent app and the
    helpers it uses to keep a conversation's title and summary up to date.
    The database is the `AgentStore` class: conversations by primary key,
    each with its messages in creation order, the uploaded documents'
    keys, and the log of `save(update_fields=...)` calls. The reply
    generator is foreign and is a function parameter. */
module AgentViews {
  import opened Common
  import opened Strings

  /** `_trim_text`: whitespace collapsed and the ends trimmed; text longer
      than `limit` is cut to `limit` characters, right-stripped, and
      followed by "...". */
  function TrimText(value: string, limit: nat): (r: string)
    ensures |r| <= limit + 3
    ensures |Collapse(value)| <= limit ==> r == Collapse(value)
    ensures |Collapse(value)| > limit ==> r == StripRight(Collapse(value)[..limit]) + "..."
    ensures r == [] <==> IsBlank(value)
  {
    CollapseBlank(value);
    var cleaned := Collapse(value);
    if |cleaned| <= limit then cleaned
    else StripRight(cleaned[..limit]) + "..."
  }

  /** A cut text is a prefix of the collapsed text, at most `limit` long,
      followed by "...". */
  lemma TrimTextCut(value: string, limit: nat)
    requires |Collapse(value)| > limit
    ensures var r := TrimText(value, limit);
      EndsWith(r, "...") && |r| - 3 <= limit && StartsWith(Collapse(value), r[..|r| - 3])
  {
    var cleaned := Collapse(value);
    var head := StripRight(cleaned[..limit]);
    assert cleaned[..limit][..|head|] == cleaned[..|head|];
    var r := head + "...";
    assert r[..|r| - 3] == head;
  }

  /** Trimmed text never has a space at either end or two spaces in a row,
      whether or not it was cut. */
  lemma TrimTextSingleSpaced(value: string, limit: nat)
    ensures SingleSpaced(TrimText(value, limit))
  {
    CollapseSingleSpaced(value);
    if |Collapse(value)| > limit {
      CutSingleSpaced(Collapse(value), limit);
    }
  }

  /** Cutting single-spaced text, right-stripping the cut and adding
      "..." keeps it single-spaced. */
  lemma CutSingleSpaced(c: string, limit: nat)
    requires SingleSpaced(c) && limit < |c|
    ensures SingleSpaced(StripRight(c[..limit]) + "...")
  {
    var head := StripRight(c[..limit]);
    assert c[..limit][..|head|] == c[..|head|];
    var r := head + "...";
    assert forall j :: |head| <= j < |r| ==> r[j] == '.';
    forall i | 0 <= i < |r| && IsSpace(r[i])
      ensures r[i] == ' ' && 0 < i < |r| - 1 && !IsSpace(r[i - 1]) && !IsSpace(r[i + 1])
    {
      assert i < |head|;
      assert r[i] == c[i];
      assert i != |head| - 1;
      assert r[i - 1] == c[i - 1] && r[i + 1] == c[i + 1];
    }
  }

  /** The two `ROLE_CHOICES` of a message. */
  datatype Role = User | Assistant {
    function Name(): string {
      match this
      case User => "user"
      case Assistant => "assistant"
    }
  }

  /** A `Message` row: its role, its content and the keys of the documents
      attached to it. */
  datatype Message = Message(role: Role, content: string, attachments: set<int>)

  /** A `Conversation` row with its messages in creation order. */
  datatype Conversation = Conversation(title: string, summary: string, messages: seq<Message>)

  /** `Message.objects.filter(role=role).order_by("-created_at").first()`:
      the position of the latest message with that role. */
  function LatestWith(ms: seq<Message>, role: Role): (r: Option<nat>)
    ensures r.Some? ==> (r.value < |ms| && ms[r.value].role == role &&
      forall k :: r.value < k < |ms| ==> ms[k].role != role)
    ensures r.None? ==> forall k :: 0 <= k < |ms| ==> ms[k].role != role
  {
    if ms == [] then None
    else if ms[|ms| - 1].role == role then Some(|ms| - 1)
    else LatestWith(ms[..|ms| - 1], role)
  }

  /** `Message.objects.filter(role=role).order_by("created_at").first()`:
      the position of the earliest message with that role. */
  function FirstWith(ms: seq<Message>, role: Role): (r: Option<nat>)
    ensures r.Some? ==> (r.value < |ms| && ms[r.value].role == role &&
      forall k :: 0 <= k < r.value ==> ms[k].role != role)
    ensures r.None? ==> forall k :: 0 <= k < |ms| ==> ms[k].role != role
  {
    if ms == [] then None
    else if ms[0].role == role then Some(0)
    else
      var r := FirstWith(ms[1..], role);
      if r.Some? then Some(r.value + 1) else None
  }

  /** `_conversation_summary`: the latest assistant reply, or else the
      latest message, trimmed to 160 characters; "" when that text is
      empty or there are no messages. */
  function ConversationSummary(ms: seq<Message>): (r: string)
    ensures |r| <= 163
    ensures ms == [] ==> r == ""
  {
    var source :=
      match LatestWith(ms, Assistant)
      case Some(k) => ms[k].content
      case None => if ms == [] then "" else ms[|ms| - 1].content;
    if source == "" then "" else TrimText(source, 160)
  }

  /** Once a conversation has an assistant reply, a later user message does
      not change its summary. */
  lemma SummaryIgnoresLaterUserMessage(ms: seq<Message>, m: Message)
    requires LatestWith(ms, Assistant).Some? && m.role != Assistant
    ensures ConversationSummary(ms + [m]) == ConversationSummary(ms)
  {
    assert (ms + [m])[..|ms|] == ms;
  }

  /** A new assistant reply becomes the summary. */
  lemma SummaryFollowsLatestReply(ms: seq<Message>, m: Message)
    requires m.role == Assistant
    ensures ConversationSummary(ms + [m]) == if m.content == "" then "" else TrimText(m.content, 160)
  {
  }

  /** Without any assistant reply the summary is taken from the latest
      message. */
  lemma SummaryWithoutReply(ms: seq<Message>)
    requires ms != [] && forall k :: 0 <= k < |ms| ==> ms[k].role != Assistant
    ensures var last := ms[|ms| - 1].content;
      ConversationSummary(ms) == if last == "" then "" else TrimText(last, 160)
  {
  }

  /** `_default_title`: the first user message trimmed to 60 characters,
      "New chat" when there is none (trimming "New chat" gives it back) or
      when it trims to nothing. */
  function DefaultTitle(ms: seq<Message>): (r: string)
    ensures r != "" && |r| <= 63
    ensures FirstWith(ms, User).None? ==> r == "New chat"
    ensures FirstWith(ms, User).Some? ==>
      var content := ms[FirstWith(ms, User).value].content;
      r == if IsBlank(content) then "New chat" else TrimText(content, 60)
  {
    match FirstWith(ms, User)
    case None => "New chat"
    case Some(k) =>
      var t := TrimText(ms[k].content, 60);
      if t == "" then "New chat" else t
  }

  /** The default title depends only on the first user message: appending
      messages after it never changes it. */
  lemma DefaultTitleStable(ms: seq<Message>, m: Message)
    requires FirstWith(ms, User).Some?
    ensures DefaultTitle(ms + [m]) == DefaultTitle(ms)
  {
    FirstWithExtended(ms, [m], User);
  }

  lemma {:induction false} FirstWithExtended(ms: seq<Message>, more: seq<Message>, role: Role)
    requires FirstWith(ms, role).Some?
    ensures FirstWith(ms + more, role) == FirstWith(ms, role)
  {
    if ms[0].role != role {
      assert (ms + more)[1..] == ms[1..] + more;
      FirstWithExtended(ms[1..], more, role);
    }
  }

  /** The fields `_apply_conversation_metadata` decides to change, with
      their new values; `None` for a field it leaves alone. */
  datatype MetadataUpdate = MetadataUpdate(title: Option<string>, summary: Option<string>)

  /** The title entry of the `updates` dict. A string explicit title that
      is not blank replaces the title (stripped, trimmed to 255) when
      different; otherwise a title is generated only when the conversation
      has none. */
  function TitleUpdate(c: Conversation, explicitTitle: Json): (t: Option<string>)
    ensures t.Some? ==> t.value != c.title
  {
    if explicitTitle.JStr? && !IsBlank(explicitTitle.s) then
      var desired := TrimText(Strip(explicitTitle.s), 255);
      if desired != c.title then Some(desired) else None
    else if c.title == "" then
      var generated := DefaultTitle(c.messages);
      if generated != c.title then Some(generated) else None
    else None
  }

  /** The `updates` dict, title first; the summary is regenerated and kept
      when different. */
  function Updates(c: Conversation, explicitTitle: Json): (u: MetadataUpdate)
    ensures u.title == TitleUpdate(c, explicitTitle)
    ensures u.summary.Some? <==> ConversationSummary(c.messages) != c.summary
  {
    var summary := ConversationSummary(c.messages);
    MetadataUpdate(TitleUpdate(c, explicitTitle), if summary != c.summary then Some(summary) else None)
  }

  /** `setattr` for each update. */
  function Applied(c: Conversation, u: MetadataUpdate): Conversation {
    c.(title := u.title.GetOr(c.title), summary := u.summary.GetOr(c.summary))
  }

  /** `list(updates.keys())`. */
  function Fields(u: MetadataUpdate): (r: seq<string>)
    ensures r == [] <==> u.title.None? && u.summary.None?
  {
    (if u.title.Some? then ["title"] else []) + (if u.summary.Some? then ["summary"] else [])
  }

  /** The `updates` dict as `_apply_conversation_metadata` fills it. */
  method CollectUpdates(c: Conversation, explicitTitle: Json) returns (u: MetadataUpdate)
    ensures u == Updates(c, explicitTitle)
  {
    var title: Option<string> := None;
    if explicitTitle.JStr? && !IsBlank(explicitTitle.s) {
      var desired := TrimText(Strip(explicitTitle.s), 255);
      if desired != c.title {
        title := Some(desired);
      }
    } else if c.title == "" {
      var generated := DefaultTitle(c.messages);
      if generated != c.title {
        title := Some(generated);
      }
    }
    var summary: Option<string> := None;
    var generatedSummary := ConversationSummary(c.messages);
    if generatedSummary != c.summary {
      summary := Some(generatedSummary);
    }
    u := MetadataUpdate(title, summary);
  }

  /** A non-blank explicit title wins, stripped and trimmed. */
  lemma ExplicitTitleWins(c: Conversation, s: string)
    requires !IsBlank(s)
    ensures Applied(c, Updates(c, JStr(s))).title == TrimText(Strip(s), 255)
  {
    var desired := TrimText(Strip(s), 255);
    assert Updates(c, JStr(s)).title == if desired != c.title then Some(desired) else None;
  }

  /** Without a usable explicit title, a title is generated only for a
      conversation that has none, and an existing title is kept. */
  lemma TitleGeneratedOnlyWhenEmpty(c: Conversation, explicitTitle: Json)
    requires !(explicitTitle.JStr? && !IsBlank(explicitTitle.s))
    ensures c.title != "" ==> Applied(c, Updates(c, explicitTitle)).title == c.title
    ensures c.title == "" ==> Applied(c, Updates(c, explicitTitle)).title == DefaultTitle(c.messages)
  {
    assert TitleUpdate(c, explicitTitle) == if c.title == "" then Some(DefaultTitle(c.messages)) else None;
  }

  /** Applying the metadata twice changes nothing the second time: the
      second call finds no update and saves nothing. */
  lemma UpdatesIdempotent(c: Conversation, explicitTitle: Json)
    ensures Updates(Applied(c, Updates(c, explicitTitle)), explicitTitle) == MetadataUpdate(None, None)
  {
  }

  /** `isinstance(value, str) and value.isdigit()`, for ASCII digits. */
  predicate AllDigits(s: string) {
    s != [] && forall i :: 0 <= i < |s| ==> '0' <= s[i] <= '9'
  }

  /** `int(s)` of a digit string. */
  function DigitsValue(s: string): nat
    requires AllDigits(s)
  {
    var d := (s[|s| - 1] as int) - ('0' as int);
    if |s| == 1 then d else DigitsValue(s[..|s| - 1]) * 10 + d
  }

  /** What one element of `document_ids` contributes: an integer (a JSON
      boolean is a Python `int`) or a digit string; `None` for anything
      else. */
  function DocumentId(v: Json): Option<int> {
    match v
    case JNum(n) => Some(n)
    case JBool(b) => Some(if b then 1 else 0)
    case JStr(s) => if AllDigits(s) then Some(DigitsValue(s)) else None
    case _ => None
  }

  /** `isinstance(raw, Sequence)`: a list yields its items and a string its
      one-character strings; anything else is not a sequence. */
  function AsSequence(raw: Json): (r: Option<seq<Json>>)
    ensures r.Some? <==> raw.JArr? || raw.JStr?
  {
    match raw
    case JArr(items) => Some(items)
    case JStr(s) => Some(seq(|s|, i requires 0 <= i < |s| => JStr([s[i]])))
    case _ => None
  }

  /** The kept ids of `items`, in order. */
  function KeptIds(items: seq<Json>): (r: seq<int>)
    ensures |r| <= |items|
  {
    if items == [] then []
    else
      var front, last := items[..|items| - 1], items[|items| - 1];
      KeptIds(front) + (match DocumentId(last) case Some(x) => [x] case None => [])
  }

  /** The kept ids are exactly the ids of the items that have one. */
  lemma {:induction false} KeptIdsMembers(items: seq<Json>)
    ensures forall x :: x in KeptIds(items) <==> exists k :: 0 <= k < |items| && DocumentId(items[k]) == Some(x)
  {
    if items != [] {
      var front, last := items[..|items| - 1], items[|items| - 1];
      KeptIdsMembers(front);
      assert forall k :: 0 <= k < |items| - 1 ==> items[k] == front[k];
      forall x | exists k :: 0 <= k < |items| && DocumentId(items[k]) == Some(x)
        ensures x in KeptIds(items)
      {
        var k :| 0 <= k < |items| && DocumentId(items[k]) == Some(x);
        if k < |items| - 1 {
          assert DocumentId(front[k]) == Some(x);
        }
      }
    }
  }

  /** `_normalise_document_ids`. */
  function Normalised(raw: Json): (r: seq<int>)
    ensures AsSequence(raw).None? ==> r == []
  {
    match AsSequence(raw)
    case Some(items) => KeptIds(items)
    case None => []
  }

  /** `_normalise_document_ids`, with its append loop. */
  method NormaliseDocumentIds(raw: Json) returns (ids: seq<int>)
    ensures ids == Normalised(raw)
  {
    var items := AsSequence(raw);
    if items.None? {
      return [];
    }
    var values := items.value;
    ids := [];
    var i := 0;
    while i < |values|
      invariant 0 <= i <= |values|
      invariant ids == KeptIds(values[..i])
    {
      assert values[..i + 1][..i] == values[..i];
      match DocumentId(values[i]) {
        case Some(x) => ids := ids + [x];
        case None =>
      }
      i := i + 1;
    }
    assert values[..i] == values;
  }

  /** A bare digit string is split into its single digits, one id per
      character. */
  lemma {:induction false} BareDigitStringSplit(s: string)
    requires AllDigits(s)
    ensures |Normalised(JStr(s))| == |s|
    ensures forall k :: 0 <= k < |s| ==> Normalised(JStr(s))[k] == (s[k] as int) - ('0' as int)
  {
    var items := AsSequence(JStr(s)).value;
    CharsKept(s, items, |s|);
    assert items[..|s|] == items;
  }

  lemma {:induction false} CharsKept(s: string, items: seq<Json>, n: nat)
    requires AllDigits(s) && n <= |s|
    requires items == seq(|s|, i requires 0 <= i < |s| => JStr([s[i]]))
    ensures |KeptIds(items[..n])| == n
    ensures forall k :: 0 <= k < n ==> KeptIds(items[..n])[k] == (s[k] as int) - ('0' as int)
  {
    if n > 0 {
      CharsKept(s, items, n - 1);
      var front := items[..n - 1];
      assert items[..n][..n - 1] == front;
      var c := [s[n - 1]];
      assert AllDigits(c) && DigitsValue(c) == (s[n - 1] as int) - ('0' as int);
      assert items[n - 1] == JStr(c);
      var before, after := KeptIds(front), KeptIds(items[..n]);
      assert after == before + [DigitsValue(c)];
      forall k | 0 <= k < n ensures after[k] == (s[k] as int) - ('0' as int) {
        if k < n - 1 { assert after[k] == before[k]; }
      }
    }
  }

  /** `payload.get(key)` when the payload is an object; `None` otherwise. */
  function Field(payload: Json, key: string): Json {
    if payload.JObj? then GetOr(payload.fields, key, JNull) else JNull
  }

  /** The user's message: a string that is not blank, stripped. */
  function UserContent(payload: Json): (r: Option<string>)
    ensures r.Some? <==> Field(payload, "message").JStr? && !IsBlank(Field(payload, "message").s)
    ensures r.Some? ==> r.value == Strip(Field(payload, "message").s) && r.value != ""
  {
    var m := Field(payload, "message");
    if m.JStr? && !IsBlank(m.s) then Some(Strip(m.s)) else None
  }

  predicate IsDigit(c: char) {
    '0' <= c <= '9'
  }

  function DigitOf(c: char): (d: nat)
    requires IsDigit(c)
  {
    (c as int) - ('0' as int)
  }

  /** The body of an integer literal as `int()` reads it: digits, with
      single underscores standing between two digits. */
  predicate UnderscoredDigits(s: string) {
    s != [] && IsDigit(s[0]) && IsDigit(s[|s| - 1]) &&
    (forall i :: 0 <= i < |s| ==> IsDigit(s[i]) || s[i] == '_') &&
    forall i :: 0 < i < |s| && s[i] == '_' ==> IsDigit(s[i - 1])
  }

  /** The number the digits of `s` spell, underscores skipped. */
  function UnderscoredValue(s: string): nat
    requires forall i :: 0 <= i < |s| ==> IsDigit(s[i]) || s[i] == '_'
  {
    if s == [] then 0
    else
      var front := s[..|s| - 1];
      assert forall i :: 0 <= i < |front| ==> front[i] == s[i];
      if s[|s| - 1] == '_' then UnderscoredValue(front)
      else
        assert IsDigit(s[|s| - 1]);
        UnderscoredValue(front) * 10 + DigitOf(s[|s| - 1])
  }

  /** `int(s)` for a string: surrounding whitespace ignored, an optional
      sign, then the digits; `None` where `int` raises `ValueError`. */
  function PyInt(s: string): (r: Option<int>)
    ensures r.Some? ==> Strip(s) != []
  {
    ReadInt(Strip(s))
  }

  /** `int` of text without surrounding whitespace. */
  function ReadInt(t: string): (r: Option<int>)
    ensures r.Some? ==> t != []
  {
    if t == [] then None
    else
      var negative := t[0] == '-';
      var body := if t[0] == '-' || t[0] == '+' then t[1..] else t;
      if !UnderscoredDigits(body) then None
      else
        var n: int := UnderscoredValue(body);
        Some(if negative then -n else n)
  }

  lemma DigitsUnderscored(s: string)
    requires AllDigits(s)
    ensures UnderscoredDigits(s)
  {
  }

  /** On a plain digit string `int()` and the `isdigit` reading agree. */
  lemma {:induction false} PyIntOfDigits(s: string)
    requires AllDigits(s)
    ensures PyInt(s) == Some(DigitsValue(s))
  {
    DigitsTrimmed(s);
    StripOfTrimmed(s);
    DigitsUnderscored(s);
    UnderscoredValueOfDigits(s);
    assert ReadInt(s) == Some(UnderscoredValue(s));
  }

  lemma DigitsTrimmed(s: string)
    requires AllDigits(s)
    ensures Trimmed(s) && s != [] && s[0] != '-' && s[0] != '+'
  {
  }

  lemma {:induction false} UnderscoredValueOfDigits(s: string)
    requires AllDigits(s)
    ensures UnderscoredValue(s) == DigitsValue(s)
  {
    if |s| > 1 {
      UnderscoredValueOfDigits(s[..|s| - 1]);
    }
  }

  /** `int(str(k))` is `k`: a rendered key is read back as that key. */
  lemma {:induction false} PyIntOfRendered(k: int)
    ensures PyInt(IntToString(k)) == Some(k)
  {
    var m: nat := if k < 0 then -k else k;
    DigitsValueOfRendered(m);
    if k < 0 {
      PyIntOfNegative(NatToString(m));
    } else {
      PyIntOfDigits(NatToString(m));
    }
  }

  lemma {:induction false} PyIntOfNegative(digits: string)
    requires AllDigits(digits)
    ensures PyInt("-" + digits) == Some(0 - DigitsValue(digits) as int)
  {
    NegativeTrimmed(digits);
    StripOfTrimmed("-" + digits);
    DigitsUnderscored(digits);
    ReadNegative(digits);
    UnderscoredValueOfDigits(digits);
  }

  lemma NegativeTrimmed(digits: string)
    requires AllDigits(digits)
    ensures Trimmed("-" + digits)
  {
    var t := "-" + digits;
    assert t[|t| - 1] == digits[|digits| - 1];
  }

  lemma ReadNegative(body: string)
    requires UnderscoredDigits(body)
    ensures ReadInt("-" + body) == Some(0 - UnderscoredValue(body) as int)
  {
    assert ("-" + body)[1..] == body;
  }

  lemma {:induction false} DigitsValueOfRendered(n: nat)
    ensures AllDigits(NatToString(n)) && DigitsValue(NatToString(n)) == n
  {
    if n >= 10 {
      DigitsValueOfRendered(n / 10);
      var r := NatToString(n);
      assert r[..|r| - 1] == NatToString(n / 10);
    }
  }

  /** Whitespace around the text never changes what `int()` reads. */
  lemma {:induction false} PyIntIgnoresPadding(s: string)
    ensures PyInt(Strip(s)) == PyInt(s)
  {
    StripIdempotent(s);
  }

  /** How `conversation_id` selects the conversation: a falsy value creates
      one; an integer, or a string `int()` accepts, fetches that key; any
      other value makes the key lookup raise. */
  datatype Lookup = Create | Fetch(key: int) | Invalid

  function ConversationLookup(j: Json): (r: Lookup)
    ensures r == Create <==> !Truthy(j)
    ensures j.JStr? && j.s != [] ==> (r.Fetch? <==> PyInt(j.s).Some?)
    ensures j.JStr? && r.Fetch? ==> r.key == PyInt(j.s).value
    ensures j.JNum? && j.n != 0 ==> r == Fetch(j.n)
  {
    if !Truthy(j) then Create
    else match j
      case JNum(n) => Fetch(n)
      case JBool(_) => Fetch(1)
      case JStr(s) => (if PyInt(s).Some? then Fetch(PyInt(s).value) else Invalid)
      case _ => Invalid
  }

  /** A key sent as its decimal text selects that key, sign included. */
  lemma ConversationLookupOfText(k: int)
    ensures ConversationLookup(JStr(IntToString(k))) == Fetch(k)
  {
    PyIntOfRendered(k);
  }

  /** `previous_messages`: role and content of each earlier message. */
  function History(ms: seq<Message>): (r: seq<(string, string)>)
    ensures |r| == |ms| && forall k :: 0 <= k < |ms| ==> r[k] == (ms[k].role.Name(), ms[k].content)
  {
    seq(|ms|, k requires 0 <= k < |ms| => (ms[k].role.Name(), ms[k].content))
  }

  /** `UploadedDocument.objects.filter(pk__in=ids)`: the ids that name a
      stored document. */
  function Attached(ids: seq<int>, documents: set<int>): (r: set<int>)
    ensures forall d :: d in r <==> d in ids && d in documents
  {
    set d | d in ids && d in documents
  }

  /** What `chat_view` reads from a valid request: the stripped message,
      the `title` value, the normalised document ids and how the
      conversation is found. */
  datatype ChatRequest = ChatRequest(content: string, explicitTitle: Json, documentIds: seq<int>, lookup: Lookup)

  /** The request checks of `chat_view`, made before anything is stored:
      a body that is not JSON, and a payload without a non-blank string
      `message`, are answered with 400. */
  function ReadRequest(payload: Option<Json>): (r: Result<ChatRequest, HttpError>)
    ensures payload.None? ==> r == Err(HttpError(400, InvalidJson))
    ensures payload.Some? ==> (r.Err? <==> UserContent(payload.value).None?)
    ensures payload.Some? && r.Err? ==> r == Err(HttpError(400, MessageRequired))
    ensures r.Ok? ==> (payload.Some? && r.value.content == UserContent(payload.value).value &&
      r.value.documentIds == Normalised(Field(payload.value, "document_ids")) &&
      r.value.lookup == ConversationLookup(Field(payload.value, "conversation_id")))
  {
    match payload
    case None => Err(HttpError(400, InvalidJson))
    case Some(body) =>
      match UserContent(body)
      case None => Err(HttpError(400, MessageRequired))
      case Some(content) =>
        Ok(ChatRequest(content, Field(body, "title"), Normalised(Field(body, "document_ids")),
                       ConversationLookup(Field(body, "conversation_id"))))
  }

  /** A request that gets past the checks carries a message that is
      neither empty nor padded with whitespace. */
  lemma AcceptedMessageIsStripped(payload: Option<Json>)
    requires ReadRequest(payload).Ok?
    ensures var c := ReadRequest(payload).value.content;
      c != "" && !IsSpace(c[0]) && !IsSpace(c[|c| - 1])
  {
    var s := Field(payload.value, "message").s;
    var l := StripLeft(s);
    var c := StripRight(l);
    assert c == l[..|c|];
  }

  /** `_serialise_conversation(include_messages=True)`. */
  datatype ConversationView = ConversationView(id: int, title: string, summary: string, messageCount: nat, messages: seq<Message>)

  function View(id: int, c: Conversation): (v: ConversationView)
    ensures v.title != "" && v.messageCount == |v.messages|
  {
    ConversationView(id, if c.title == "" then "New chat" else c.title, c.summary, |c.messages|, c.messages)
  }

  const InvalidJson := "Invalid JSON payload."
  const MessageRequired := "A non-empty 'message' field is required."
  /** The text of the 404 `get_object_or_404` raises. */
  const ConversationMissing := "No Conversation matches the given query."

  class AgentStore {
    var conversations: map<int, Conversation>
    var documents: set<int>
    var saves: seq<(int, seq<string>)>
    var nextId: int

    ghost predicate Valid()
      reads this
    {
      nextId >= 1 && forall id :: id in conversations ==> 1 <= id < nextId
    }

    constructor(documents: set<int>)
      ensures Valid() && conversations == map[] && this.documents == documents && saves == []
    {
      conversations := map[];
      this.documents := documents;
      saves := [];
      nextId := 1;
    }

    /** `_apply_conversation_metadata`: the update is applied and saved,
        naming only the changed fields; with nothing changed there is no
        save. */
    method ApplyMetadata(id: int, explicitTitle: Json)
      requires Valid() && id in conversations
      modifies this
      ensures Valid() && documents == old(documents) && nextId == old(nextId)
      ensures conversations == old(conversations)[id := Applied(old(conversations)[id], Updates(old(conversations)[id], explicitTitle))]
      ensures var u := Updates(old(conversations)[id], explicitTitle);
        saves == old(saves) + (if Fields(u) == [] then [] else [(id, Fields(u))])
    {
      var c := conversations[id];
      var u := CollectUpdates(c, explicitTitle);
      var fields := Fields(u);
      if fields != [] {
        conversations := conversations[id := Applied(c, u)];
        saves := saves + [(id, fields)];
      } else {
        assert conversations == old(conversations)[id := Applied(c, u)];
      }
    }

    /** The part of `chat_view` after the conversation is found: the
        history is read, the user's message is stored with the existing
        documents among `documentIds` attached, the reply is generated from
        that history and stored, and the metadata is applied, which makes
        the new reply the summary (the title follows `ApplyMetadata`). */
    method Turn(id: int, content: string, documentIds: seq<int>, explicitTitle: Json,
                generate: (string, seq<(string, string)>) -> string)
      requires Valid() && id in conversations
      modifies this
      ensures Valid() && documents == old(documents) && nextId == old(nextId)
      ensures id in conversations && conversations == old(conversations)[id := conversations[id]]
      ensures var before := old(conversations)[id].messages;
        var reply := generate(content, History(before));
        var turn := old(conversations)[id].(messages := before +
          [Message(User, content, Attached(documentIds, documents)), Message(Assistant, reply, {})]);
        conversations[id] == turn.(title := conversations[id].title,
                                   summary := if reply == "" then "" else TrimText(reply, 160))
    {
      var before := conversations[id].messages;
      var previous := History(before);
      var user := Message(User, content, Attached(documentIds, documents));
      AddMessage(id, user);
      var reply := generate(content, previous);
      var assistant := Message(Assistant, reply, {});
      AddMessage(id, assistant);
      assert before + [user] + [assistant] == before + [user, assistant];
      SummaryFollowsLatestReply(before + [user], assistant);
      ghost var stored := conversations[id];
      ApplyMetadata(id, explicitTitle);
      assert conversations[id].summary == ConversationSummary(stored.messages);
      assert conversations[id] == stored.(title := conversations[id].title, summary := conversations[id].summary);
    }

    /** `Message.objects.create(conversation=...)`: the message joins the
        end of the conversation's history. */
    method AddMessage(id: int, m: Message)
      requires Valid() && id in conversations
      modifies this
      ensures Valid() && documents == old(documents) && nextId == old(nextId) && saves == old(saves)
      ensures conversations == old(conversations)[id := old(conversations)[id].(messages := old(conversations)[id].messages + [m])]
    {
      var c := conversations[id];
      conversations := conversations[id := c.(messages := c.messages + [m])];
    }

    /** `get_object_or_404(Conversation, pk=...)` when `conversation_id`
        is truthy, `Conversation.objects.create()` otherwise. A key that is
        not an integer makes the lookup raise, which Django answers with
        500. */
    method FindOrCreate(lookup: Lookup) returns (r: Result<int, HttpError>)
      requires Valid()
      modifies this
      ensures Valid() && documents == old(documents) && saves == old(saves)
      ensures r.Ok? ==> r.value in conversations
      ensures r.Err? ==> conversations == old(conversations) && nextId == old(nextId)
      ensures match lookup
        case Create =>
          r == Ok(old(nextId)) && old(nextId) !in old(conversations) &&
          conversations == old(conversations)[old(nextId) := Conversation("", "", [])]
        case Fetch(k) =>
          if k in old(conversations) then r == Ok(k) && conversations == old(conversations)
          else r == Err(HttpError(404, ConversationMissing))
        case Invalid => r == Err(HttpError(500, ""))
    {
      match lookup {
        case Create =>
          r := Ok(nextId);
          conversations := conversations[nextId := Conversation("", "", [])];
          nextId := nextId + 1;
        case Fetch(k) =>
          if k in conversations {
            r := Ok(k);
          } else {
            r := Err(HttpError(404, ConversationMissing));
          }
        case Invalid =>
          r := Err(HttpError(500, ""));
      }
    }

    /** `chat_view` once the request is read: the conversation is found
        or created, then the turn is taken and the conversation shown. */
    method Respond(q: ChatRequest, documentIds: seq<int>, generate: (string, seq<(string, string)>) -> string)
      returns (r: Result<ConversationView, HttpError>)
      requires Valid()
      modifies this
      ensures Valid() && documents == old(documents)
      ensures r.Err? ==> conversations == old(conversations) && saves == old(saves) && nextId == old(nextId)
      ensures r.Ok? ==> r.value.id in conversations && r.value == View(r.value.id, conversations[r.value.id])
      ensures r.Ok? ==> conversations == old(conversations)[r.value.id := conversations[r.value.id]]
      ensures r.Ok? ==>
        var before := if r.value.id in old(conversations) then old(conversations)[r.value.id].messages else [];
        conversations[r.value.id].messages == before +
          [Message(User, q.content, Attached(documentIds, old(documents))),
           Message(Assistant, generate(q.content, History(before)), {})]
      ensures match q.lookup
        case Create => r.Ok? && r.value.id == old(nextId) && old(nextId) !in old(conversations)
        case Fetch(k) => if k in old(conversations) then r.Ok? && r.value.id == k
                         else r == Err(HttpError(404, ConversationMissing))
        case Invalid => r == Err(HttpError(500, ""))
    {
      var found := FindOrCreate(q.lookup);
      if found.Err? {
        return Err(found.error);
      }
      var id := found.value;
      ghost var before := if id in old(conversations) then old(conversations)[id].messages else [];
      assert conversations[id].messages == before;
      ghost var found0 := conversations;
      assert found0 == old(conversations)[id := found0[id]];
      Turn(id, q.content, documentIds, q.explicitTitle, generate);
      assert conversations == old(conversations)[id := conversations[id]];
      r := Ok(View(id, conversations[id]));
    }

    /** `chat_view`. The payload is `None` when the body is not JSON. The
        request is validated before anything is stored; the history handed
        to the generator is read before the user's message is stored; then
        the reply is stored and the metadata applied. */
    method ChatView(payload: Option<Json>, generate: (string, seq<(string, string)>) -> string)
      returns (r: Result<ConversationView, HttpError>)
      requires Valid()
      modifies this
      ensures Valid() && documents == old(documents)
      ensures ReadRequest(payload).Err? ==> r == Err(ReadRequest(payload).error)
      ensures r.Err? ==> conversations == old(conversations) && saves == old(saves) && nextId == old(nextId)
      ensures r.Ok? ==> ReadRequest(payload).Ok? && r.value.id in conversations
      ensures r.Ok? ==> conversations == old(conversations)[r.value.id := conversations[r.value.id]]
      ensures r.Ok? ==>
        var q := ReadRequest(payload).value;
        var before := if r.value.id in old(conversations) then old(conversations)[r.value.id].messages else [];
        conversations[r.value.id].messages == before +
          [Message(User, q.content, Attached(q.documentIds, old(documents))),
           Message(Assistant, generate(q.content, History(before)), {})]
      ensures r.Ok? ==> r.value == View(r.value.id, conversations[r.value.id])
      ensures ReadRequest(payload).Ok? ==>
        match ReadRequest(payload).value.lookup
        case Create => r.Ok? && r.value.id == old(nextId) && old(nextId) !in old(conversations)
        case Fetch(k) => if k in old(conversations) then r.Ok? && r.value.id == k
                         else r == Err(HttpError(404, ConversationMissing))
        case Invalid => r == Err(HttpError(500, ""))
    {
      var request := ReadRequest(payload);
      if request.Err? {
        return Err(request.error);
      }
      var documentIds := NormaliseDocumentIds(Field(payload.value, "document_ids"));
      r := Respond(request.value, documentIds, generate);
    }
  }
}
