/** The inbox: one row per conversation whose creator exists, each with the
    last message as preview and an unread badge, and the conversation count. */
module InboxPage {
  import opened Types
  import Data

  predicate StartsWith(s: string, prefix: string) {
    |prefix| <= |s| && s[..|prefix|] == prefix
  }

  /** The preview line: the content of the last message, or "Sent a photo"
      when that content is a link; nothing for a chat without messages. */
  function Preview(messages: seq<Message>): (r: Option<string>)
    ensures r.None? <==> messages == []
    ensures r.Some? ==>
      var last := messages[|messages| - 1];
      r.value == (if StartsWith(last.content, "http") then "Sent a photo" else last.content)
  {
    if messages == [] then None
    else
      var last := messages[|messages| - 1];
      Some(if StartsWith(last.content, "http") then "Sent a photo" else last.content)
  }

  /** The time shown on a row: the last message's, or nothing. */
  function LastTimestamp(messages: seq<Message>): (r: Option<string>)
    ensures r.None? <==> messages == []
    ensures r.Some? ==> r.value == messages[|messages| - 1].timestamp
  {
    if messages == [] then None else Some(messages[|messages| - 1].timestamp)
  }

  /** The preview depends on the content only, not on the message type: a
      text that is a link reads "Sent a photo", and media sent as a data URL
      shows its raw content. */
  lemma PreviewIgnoresType(messages: seq<Message>, m1: Message, m2: Message)
    requires m1.content == m2.content
    ensures Preview(messages + [m1]) == Preview(messages + [m2])
  {
  }

  lemma DataUrlMediaPreview(messages: seq<Message>, m: Message)
    requires m.kind == MEDIA && StartsWith(m.content, "data:")
    ensures Preview(messages + [m]) == Some(m.content)
  {
    assert m.content[..4] != "http" by {
      assert m.content[0] == 'd';
    }
  }

  /** The unread badge shows the count exactly when it is positive. */
  function Badge(c: Chat): (r: Option<int>)
    ensures r.Some? <==> c.unreadCount > 0
    ensures r.Some? ==> r.value == c.unreadCount
  {
    if c.unreadCount > 0 then Some(c.unreadCount) else None
  }

  /** One inbox row. */
  datatype Row = Row(chatId: int, model: Model, preview: Option<string>, time: Option<string>, badge: Option<int>)

  function RowOf(c: Chat, m: Model): Row {
    Row(c.id, m, Preview(c.messages), LastTimestamp(c.messages), Badge(c))
  }

  /** The rows, in chat order; a chat whose creator is missing renders nothing. */
  function Rows(chats: seq<Chat>, models: seq<Model>): (r: seq<Row>)
    ensures |r| <= |chats|
    ensures forall row :: row in r ==>
      exists c :: c in chats && row == RowOf(c, row.model) && row.model in models && row.model.id == c.modelId
    ensures forall c :: c in chats && Data.Find(models, Data.ModelKey, c.modelId).Some? ==>
      RowOf(c, Data.Find(models, Data.ModelKey, c.modelId).value) in r
  {
    if chats == [] then []
    else RowsOf(chats[0], models) + Rows(chats[1..], models)
  }

  /** The row of one chat: none when its creator is missing. */
  function RowsOf(c: Chat, models: seq<Model>): seq<Row> {
    match Data.Find(models, Data.ModelKey, c.modelId)
    case None => []
    case Some(m) => [RowOf(c, m)]
  }

  /** Rows are built chat by chat: the rows of two lists of chats are the rows
      of the first followed by the rows of the second, so rows keep chat order. */
  lemma {:induction false} RowsAppend(a: seq<Chat>, b: seq<Chat>, models: seq<Model>)
    ensures Rows(a + b, models) == Rows(a, models) + Rows(b, models)
  {
    if a == [] {
      assert a + b == b;
    } else {
      assert (a + b)[0] == a[0];
      assert (a + b)[1..] == a[1..] + b;
      RowsAppend(a[1..], b, models);
      calc {
        Rows(a + b, models);
        RowsOf(a[0], models) + Rows(a[1..] + b, models);
        RowsOf(a[0], models) + (Rows(a[1..], models) + Rows(b, models));
        Rows(a, models) + Rows(b, models);
      }
    }
  }

  /** A single chat gives exactly one row, with the first creator carrying its
      `modelId`, when that creator exists, and no row otherwise. */
  lemma RowsOfOne(c: Chat, models: seq<Model>)
    ensures (forall m :: m in models ==> m.id != c.modelId) ==> Rows([c], models) == []
    ensures (exists m :: m in models && m.id == c.modelId) ==>
      exists k :: 0 <= k < |models| && models[k].id == c.modelId &&
        (forall j :: 0 <= j < k ==> models[j].id != c.modelId) &&
        Rows([c], models) == [RowOf(c, models[k])]
  {
    assert [c][1..] == [];
    match Data.FindIndex(models, Data.ModelKey, c.modelId)
    case None =>
    case Some(k) =>
  }

  /** The header counts every conversation, rows skipped or not. */
  function ConversationCount(chats: seq<Chat>, models: seq<Model>): (n: nat)
    ensures n == |chats|
    ensures n >= |Rows(chats, models)|
  {
    |chats|
  }

  /** Rows are skipped only for missing creators: when every chat's creator
      exists, there are as many rows as conversations. */
  lemma {:induction false} RowsCountWhenAllResolve(chats: seq<Chat>, models: seq<Model>)
    requires forall c :: c in chats ==> exists m :: m in models && m.id == c.modelId
    ensures |Rows(chats, models)| == ConversationCount(chats, models)
  {
    if chats != [] {
      assert chats[0] in chats;
      forall c | c in chats[1..] ensures exists m :: m in models && m.id == c.modelId {
        assert c in chats;
      }
      RowsCountWhenAllResolve(chats[1..], models);
    }
  }
}
