/** The media gallery of one conversation: the chat's media messages that
    are not explicitly locked, in chat order. */
module GalleryPage {
  import opened Types
  import Store
  import ChatPage

  /** A message appears in the gallery when it is media and its unlock flag is
      not explicitly `false`; an absent flag counts as visible. */
  predicate InGallery(m: Message) {
    m.kind == MEDIA && m.isUnlocked != Some(false)
  }

  /** The gallery's `filter` over a chat's messages. */
  function GalleryMedia(messages: seq<Message>): (r: seq<Message>)
    ensures forall m :: m in r <==> m in messages && InGallery(m)
    ensures |r| <= |messages|
  {
    if messages == [] then []
    else (if InGallery(messages[0]) then [messages[0]] else []) + GalleryMedia(messages[1..])
  }

  /** Filtering distributes over concatenation, so the gallery keeps the
      chat's order. */
  lemma {:induction false} GalleryMediaAppend(a: seq<Message>, b: seq<Message>)
    ensures GalleryMedia(a + b) == GalleryMedia(a) + GalleryMedia(b)
  {
    if a == [] {
      assert a + b == b;
    } else {
      assert (a + b)[1..] == a[1..] + b;
      GalleryMediaAppend(a[1..], b);
    }
  }

  /** Media the user sends always shows up in the gallery, at its end. */
  lemma SentMediaInGallery(messages: seq<Message>, id: int, content: string, now: string,
                           isPPV: bool, price: Option<int>)
    ensures var m := Store.MediaMessage(id, content, now, isPPV, price);
      GalleryMedia(messages + [m]) == GalleryMedia(messages) + [m]
  {
    var m := Store.MediaMessage(id, content, now, isPPV, price);
    GalleryMediaAppend(messages, [m]);
    assert GalleryMedia([m]) == [m] by {
      assert [m][1..] == [];
    }
  }

  /** The chat view and the gallery disagree on a creator's PPV media whose
      unlock flag is absent: blurred in the chat, shown in the gallery. */
  lemma AbsentFlagDisagreement(m: Message)
    requires m.sender == MODEL && m.kind == MEDIA && m.isPPV && m.isUnlocked == None
    ensures ChatPage.BubbleLocked(m) && InGallery(m)
  {
  }

  /** Apart from that case the two agree: a media message shown in the gallery
      is drawn locked in the chat only when its flag is absent. */
  lemma GalleryAgreesWithChat(m: Message)
    requires InGallery(m) && ChatPage.BubbleLocked(m)
    ensures m.isUnlocked == None
  {
    match m.isUnlocked
    case None =>
    case Some(b) => assert false;
  }

  /** What the gallery page shows. */
  datatype GalleryScreen = NotFound | Found(model: Model, media: seq<Message>)

  /** The page: "not found" unless the chat and its creator both exist. */
  function Gallery(chats: seq<Chat>, models: seq<Model>, chatId: int): (r: GalleryScreen)
    ensures r.NotFound? <==> ChatPage.ChatLookup(chats, models, chatId).None?
    ensures r.Found? ==>
      exists c :: c in chats && c.id == chatId && r.model.id == c.modelId && r.model in models &&
        r.media == GalleryMedia(c.messages)
  {
    match ChatPage.ChatLookup(chats, models, chatId)
    case None => NotFound
    case Some((c, m)) => Found(m, GalleryMedia(c.messages))
  }
}
