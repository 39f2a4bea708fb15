/** The conversation page: which bubbles render locked, the send-text guard,
    the pending-media dialog (add, remove, price, confirm, cancel), the
    click-to-unlock of a locked bubble, and marking the chat read on open. */
module ChatPage {
  import opened Types
  import Data
  import Store
  import App

  // ---------------------------------------------------------------------
  // Looking up the chat and its creator

  /** The chat with the route id and the creator its `modelId` names; nothing
      (the "not found" screen) when either lookup fails. */
  function ChatLookup(chats: seq<Chat>, models: seq<Model>, chatId: int): (r: Option<(Chat, Model)>)
    ensures r.None? <==>
      (forall c :: c in chats ==> c.id != chatId) ||
      (forall m :: m in models ==> m.id != Data.GetChatById(chatId, chats).value.modelId)
    ensures r.Some? ==>
      r.value.0 in chats && r.value.0.id == chatId &&
      r.value.1 in models && r.value.1.id == r.value.0.modelId
  {
    match Data.GetChatById(chatId, chats)
    case None => None
    case Some(c) =>
      match Data.Find(models, Data.ModelKey, c.modelId)
      case None => None
      case Some(m) => Some((c, m))
  }

  // ---------------------------------------------------------------------
  // Message bubbles

  /** The three ways a message is drawn. */
  datatype Bubble = LockedMedia | ShownMedia | TextBubble

  /** A bubble is blurred behind "Unlock Media" when it is the creator's PPV
      media and its unlock flag is falsy (`false` or absent). */
  predicate BubbleLocked(m: Message) {
    m.sender != USER && m.isPPV && !Truthy(m.isUnlocked) && m.kind == MEDIA
  }

  function BubbleOf(m: Message): (r: Bubble)
    ensures r == LockedMedia <==>
      m.sender == MODEL && m.isPPV && m.kind == MEDIA && m.isUnlocked != Some(true)
    ensures r == ShownMedia <==> m.kind == MEDIA && !BubbleLocked(m)
    ensures r == TextBubble <==> m.kind == TEXT
  {
    if BubbleLocked(m) then LockedMedia
    else
      match m.kind
      case MEDIA => ShownMedia
      case TEXT => TextBubble
  }

  /** The user's own messages are never drawn locked, whatever their flags. */
  lemma UserNeverLocked(m: Message)
    requires m.sender == USER
    ensures BubbleOf(m) != LockedMedia
  {
  }

  /** A PPV text message falls through to the plain text bubble: the lock only
      applies to media. */
  lemma PpvTextShownAsText(m: Message)
    requires m.kind == TEXT && m.isPPV
    ensures BubbleOf(m) == TextBubble
  {
  }

  /** Unlocking is one-way and hits its target: after unlocking a message id,
      a bubble that is locked was locked before and does not carry that id. */
  lemma UnlockOnlyUnlocks(messages: seq<Message>, messageId: int)
    ensures var after := Store.UnlockIn(messages, messageId);
      forall j :: 0 <= j < |after| && BubbleLocked(after[j]) ==>
        BubbleLocked(messages[j]) && messages[j].id != messageId
  {
  }

  /** Unlocking in the whole chat list changes the lock only of the target:
      every bubble keeps its lock state except the ones with that id in the
      chat with that id, which are unlocked. */
  lemma UnlockMessageBubbles(chats: seq<Chat>, chatId: int, messageId: int, i: nat, j: nat)
    requires i < |chats| && j < |chats[i].messages|
    ensures var after := Store.UnlockMessage(chats, chatId, messageId);
      j < |after[i].messages| &&
      BubbleLocked(after[i].messages[j]) ==
        (BubbleLocked(chats[i].messages[j]) &&
         !(chats[i].id == chatId && chats[i].messages[j].id == messageId))
  {
  }

  // ---------------------------------------------------------------------
  // The send-text guard

  /** ECMAScript white space and line terminators, the characters `trim` removes. */
  predicate IsJsWhitespace(c: char) {
    c == '\t' || c == '\U{B}' || c == '\U{C}' || c == ' ' || c == '\U{A0}' || c == '\U{FEFF}'
    || c == '\U{1680}' || ('\U{2000}' <= c <= '\U{200A}') || c == '\U{202F}' || c == '\U{205F}'
    || c == '\U{3000}' || c == '\n' || c == '\r' || c == '\U{2028}' || c == '\U{2029}'
  }

  /** Every character is white space. */
  predicate IsBlank(s: string) {
    forall i :: 0 <= i < |s| ==> IsJsWhitespace(s[i])
  }

  /** Leading white space removed: what is left is empty or starts with a
      character that is not white space. */
  function TrimStart(s: string): (r: string)
    ensures |r| <= |s|
    ensures r != [] ==> !IsJsWhitespace(r[0])
  {
    if s != [] && IsJsWhitespace(s[0]) then TrimStart(s[1..]) else s
  }

  /** Trailing white space removed: what is left is empty or ends with a
      character that is not white space. */
  function TrimEnd(s: string): (r: string)
    ensures |r| <= |s|
    ensures r != [] ==> !IsJsWhitespace(r[|r| - 1])
  {
    if s != [] && IsJsWhitespace(s[|s| - 1]) then TrimEnd(s[..|s| - 1]) else s
  }

  /** `String.prototype.trim`: leading and trailing white space removed. */
  function Trim(s: string): string {
    TrimEnd(TrimStart(s))
  }

  /** `TrimStart` drops a blank prefix and keeps the rest as it is. */
  lemma {:induction false} TrimStartDropsBlankPrefix(s: string)
    ensures var k := |s| - |TrimStart(s)|;
      TrimStart(s) == s[k..] && IsBlank(s[..k])
  {
    if s != [] && IsJsWhitespace(s[0]) {
      var t := s[1..];
      TrimStartDropsBlankPrefix(t);
      var k := |t| - |TrimStart(t)|;
      assert t[k..] == s[k + 1..];
      forall i | 0 <= i < k + 1 ensures IsJsWhitespace(s[i]) {
        if i > 0 {
          assert s[i] == t[..k][i - 1];
        }
      }
    }
  }

  /** `TrimEnd` drops a blank suffix and keeps the rest as it is. */
  lemma {:induction false} TrimEndDropsBlankSuffix(s: string)
    ensures var k := |TrimEnd(s)|;
      TrimEnd(s) == s[..k] && IsBlank(s[k..])
  {
    if s != [] && IsJsWhitespace(s[|s| - 1]) {
      var t := s[..|s| - 1];
      TrimEndDropsBlankSuffix(t);
      var k := |TrimEnd(t)|;
      assert t[..k] == s[..k];
      forall j | k <= j < |s| ensures IsJsWhitespace(s[j]) {
        if j < |t| {
          assert s[j] == t[k..][j - k];
        }
      }
    }
  }

  /** An all-white-space string loses everything to `TrimStart`. */
  lemma {:induction false} BlankTrimsEmpty(s: string)
    requires IsBlank(s)
    ensures TrimStart(s) == [] && Trim(s) == ""
  {
    if s != [] {
      BlankTrimsEmpty(s[1..]);
    }
  }

  /** A string that trims to empty is all white space. */
  lemma TrimsEmptyBlank(s: string)
    requires Trim(s) == ""
    ensures IsBlank(s)
  {
    var t := TrimStart(s);
    TrimStartDropsBlankPrefix(s);
    TrimEndDropsBlankSuffix(t);
    assert t[0..] == t;
    assert s[..|s| - |t|] == s;
  }

  /** A string trims to empty exactly when it is all white space. */
  lemma TrimEmptyIffBlank(s: string)
    ensures Trim(s) == "" <==> IsBlank(s)
  {
    if IsBlank(s) {
      BlankTrimsEmpty(s);
    }
    if Trim(s) == "" {
      TrimsEmptyBlank(s);
    }
  }

  // ---------------------------------------------------------------------
  // Pending media and the price field

  /** A file chosen for sending, as its data-URL preview. */
  datatype PendingMedia = PendingMedia(preview: string)

  /** The price field: its text, and `parsed`, the value of `parseFloat` on it
      in cents (`None` for NaN). */
  datatype PriceInput = PriceInput(text: string, parsed: Option<int>)

  const EmptyPrice: PriceInput := PriceInput("", None)

  /** The media is pay-per-view exactly when the price text is non-empty and
      parses to a positive amount. */
  predicate PpvOf(p: PriceInput) {
    p.text != "" && p.parsed.Some? && p.parsed.value > 0
  }

  /** The price sent along: the parsed amount for PPV media, absent otherwise. */
  function PriceOf(p: PriceInput): (r: Option<int>)
    ensures r.Some? <==> PpvOf(p)
    ensures r.Some? ==> r == p.parsed && r.value > 0
  {
    if PpvOf(p) then p.parsed else None
  }

  function Previews(items: seq<PendingMedia>): (r: seq<string>)
    ensures |r| == |items|
    ensures forall k :: 0 <= k < |items| ==> r[k] == items[k].preview
  {
    seq(|items|, k requires 0 <= k < |items| => items[k].preview)
  }

  /** The list without the item at `index`, order kept; an index outside the
      list removes nothing. */
  function WithoutIndex<T>(s: seq<T>, index: int): (r: seq<T>)
    ensures 0 <= index < |s| ==> r == s[..index] + s[index + 1..]
    ensures !(0 <= index < |s|) ==> r == s
  {
    if s == [] then []
    else if index == 0 then s[1..]
    else [s[0]] + WithoutIndex(s[1..], index - 1)
  }

  /** One media send per content, in list order, all with the same PPV flag
      and price: the chat list the confirm loop leaves behind. */
  function SendMediaBatch(chats: seq<Chat>, chatId: int, contents: seq<string>, now: string,
                          isPPV: bool, price: Option<int>): seq<Chat>
  {
    if contents == [] then chats
    else Store.SendMedia(SendMediaBatch(chats, chatId, contents[..|contents| - 1], now, isPPV, price),
                         chatId, contents[|contents| - 1], now, isPPV, price)
  }

  /** The messages a batch appends to a chat that had `start` messages. */
  function BatchMessages(start: int, contents: seq<string>, now: string, isPPV: bool,
                         price: Option<int>): seq<Message>
  {
    seq(|contents|, k requires 0 <= k < |contents| =>
      Store.MediaMessage(start + k + 1, contents[k], now, isPPV, price))
  }

  /** One chat after a batch: the chat with that id gets one user media
      message per content, numbered on from its length and in list order;
      any other chat is untouched. */
  function AfterBatch(c: Chat, chatId: int, contents: seq<string>, now: string,
                      isPPV: bool, price: Option<int>): Chat
  {
    if c.id == chatId
    then c.(messages := c.messages + BatchMessages(|c.messages|, contents, now, isPPV, price))
    else c
  }

  /** Appending one more content to a batch is one more media send. */
  lemma AfterBatchStep(c: Chat, chatId: int, contents: seq<string>, now: string,
                       isPPV: bool, price: Option<int>)
    requires contents != []
    ensures var n := |contents| - 1;
      var p := AfterBatch(c, chatId, contents[..n], now, isPPV, price);
      (if p.id == chatId
       then p.(messages := p.messages + [Store.MediaMessage(|p.messages| + 1, contents[n], now, isPPV, price)])
       else p)
      == AfterBatch(c, chatId, contents, now, isPPV, price)
  {
    var n := |contents| - 1;
    if c.id == chatId {
      var len := |c.messages|;
      assert BatchMessages(len, contents, now, isPPV, price)
          == BatchMessages(len, contents[..n], now, isPPV, price)
             + [Store.MediaMessage(len + n + 1, contents[n], now, isPPV, price)];
    }
  }

  /** A batch acts on every chat of the list independently, as `AfterBatch` says. */
  lemma {:induction false} SendMediaBatchEffect(chats: seq<Chat>, chatId: int, contents: seq<string>,
                                               now: string, isPPV: bool, price: Option<int>)
    ensures var r := SendMediaBatch(chats, chatId, contents, now, isPPV, price);
      |r| == |chats| &&
      forall i :: 0 <= i < |r| ==> r[i] == AfterBatch(chats[i], chatId, contents, now, isPPV, price)
  {
    if contents == [] {
      forall i | 0 <= i < |chats|
        ensures chats[i] == AfterBatch(chats[i], chatId, contents, now, isPPV, price)
      {
        assert chats[i].messages + BatchMessages(|chats[i].messages|, contents, now, isPPV, price)
            == chats[i].messages;
      }
    } else {
      var n := |contents| - 1;
      SendMediaBatchEffect(chats, chatId, contents[..n], now, isPPV, price);
      forall i | 0 <= i < |chats|
        ensures SendMediaBatch(chats, chatId, contents, now, isPPV, price)[i]
             == AfterBatch(chats[i], chatId, contents, now, isPPV, price)
      {
        AfterBatchStep(chats[i], chatId, contents, now, isPPV, price);
      }
    }
  }

  /** Everything a batch appends is the user's own, unlocked media. */
  lemma BatchMessagesUnlocked(start: int, contents: seq<string>, now: string, isPPV: bool, price: Option<int>)
    ensures forall m :: m in BatchMessages(start, contents, now, isPPV, price) ==>
      m.sender == USER && m.kind == MEDIA && m.isUnlocked == Some(true) && !BubbleLocked(m)
  {
  }

  // ---------------------------------------------------------------------
  // The page's state

  class ChatView {
    /** The chat id taken from the route. */
    const chatId: int
    /** The text field. */
    var input: string
    /** Media chosen but not yet sent; the send dialog is open while non-empty. */
    var pendingMedia: seq<PendingMedia>
    var mediaPrice: PriceInput
    /** The message the confirm-purchase dialog is about; no handler ever sets
        it to a message. */
    var unlockingMessage: Option<Message>

    /** The confirm-purchase dialog is never open. */
    ghost predicate NoUnlockPrompt()
      reads this
    {
      unlockingMessage == None
    }

    constructor (chatId: int)
      ensures this.chatId == chatId
      ensures input == "" && pendingMedia == [] && mediaPrice == EmptyPrice
      ensures NoUnlockPrompt()
    {
      this.chatId := chatId;
      input := "";
      pendingMedia := [];
      mediaPrice := EmptyPrice;
      unlockingMessage := None;
    }

    /** The effect run when the page opens: a non-zero id marks that chat read. */
    method Open(app: App.AppState)
      requires app.Valid()
      modifies app
      ensures app.Valid()
      ensures app.chats == (if chatId != 0 then Store.ReadChat(old(app.chats), chatId) else old(app.chats))
      ensures app.posts == old(app.posts) && app.models == old(app.models)
    {
      if chatId != 0 {
        app.ReadChat(chatId);
      }
    }

    method SetInput(text: string)
      modifies this
      ensures input == text
      ensures pendingMedia == old(pendingMedia) && mediaPrice == old(mediaPrice)
      ensures unlockingMessage == old(unlockingMessage)
    {
      input := text;
    }

    /** Sends the text as typed, untrimmed, unless it is all white space; a
        sent text clears the field. */
    method SendText(app: App.AppState, now: string)
      requires app.Valid()
      modifies this, app
      ensures app.Valid()
      ensures IsBlank(old(input)) ==> app.chats == old(app.chats) && input == old(input)
      ensures !IsBlank(old(input)) ==>
        app.chats == Store.SendMessage(old(app.chats), chatId, old(input), now) && input == ""
      ensures app.posts == old(app.posts) && app.models == old(app.models)
      ensures pendingMedia == old(pendingMedia) && mediaPrice == old(mediaPrice)
      ensures unlockingMessage == old(unlockingMessage)
    {
      TrimEmptyIffBlank(input);
      if Trim(input) == "" {
        return;
      }
      app.SendMessage(chatId, input, now);
      input := "";
    }

    /** Files read in the background are appended to the pending list. */
    method AddMedia(items: seq<PendingMedia>)
      modifies this
      ensures pendingMedia == old(pendingMedia) + items
      ensures input == old(input) && mediaPrice == old(mediaPrice)
      ensures unlockingMessage == old(unlockingMessage)
    {
      pendingMedia := pendingMedia + items;
    }

    method SetPrice(p: PriceInput)
      modifies this
      ensures mediaPrice == p
      ensures input == old(input) && pendingMedia == old(pendingMedia)
      ensures unlockingMessage == old(unlockingMessage)
    {
      mediaPrice := p;
    }

    /** Closes the send dialog: nothing pending, the price cleared. */
    method CancelSend()
      modifies this
      ensures pendingMedia == [] && mediaPrice == EmptyPrice
      ensures input == old(input) && unlockingMessage == old(unlockingMessage)
    {
      pendingMedia := [];
      mediaPrice := EmptyPrice;
    }

    /** Sends every pending item, in order, with the one PPV flag and price
        the price field gives, then closes the dialog. */
    method ConfirmSend(app: App.AppState, now: string)
      requires app.Valid()
      modifies this, app
      ensures app.Valid()
      ensures app.chats == SendMediaBatch(old(app.chats), chatId, Previews(old(pendingMedia)), now,
                                          PpvOf(old(mediaPrice)), PriceOf(old(mediaPrice)))
      ensures app.posts == old(app.posts) && app.models == old(app.models)
      ensures pendingMedia == [] && mediaPrice == EmptyPrice
      ensures input == old(input) && unlockingMessage == old(unlockingMessage)
    {
      var isPPV := PpvOf(mediaPrice);
      var price := PriceOf(mediaPrice);
      var contents := Previews(pendingMedia);
      for i := 0 to |contents|
        invariant app.Valid()
        invariant app.chats == SendMediaBatch(old(app.chats), chatId, contents[..i], now, isPPV, price)
        invariant app.posts == old(app.posts) && app.models == old(app.models)
        invariant input == old(input) && unlockingMessage == old(unlockingMessage)
      {
        assert contents[..i + 1][..i] == contents[..i];
        app.SendMedia(chatId, contents[i], now, isPPV, price);
      }
      assert contents[..|contents|] == contents;
      CancelSend();
    }

    /** Drops the item at `index`; dropping the last one closes the dialog
        like cancel does. */
    method RemoveMedia(index: int)
      modifies this
      ensures var rest := WithoutIndex(old(pendingMedia), index);
        pendingMedia == rest &&
        mediaPrice == (if rest == [] then EmptyPrice else old(mediaPrice))
      ensures input == old(input) && unlockingMessage == old(unlockingMessage)
    {
      var rest := WithoutIndex(pendingMedia, index);
      if |rest| == 0 {
        CancelSend();
      } else {
        pendingMedia := rest;
      }
    }

    /** A click on a bubble: a locked one is unlocked at once, with no
        confirmation; other bubbles have no click action. */
    method ClickBubble(app: App.AppState, m: Message)
      requires app.Valid()
      modifies app
      ensures app.Valid()
      ensures app.chats == (if BubbleLocked(m) then Store.UnlockMessage(old(app.chats), chatId, m.id)
                            else old(app.chats))
      ensures app.posts == old(app.posts) && app.models == old(app.models)
    {
      if BubbleLocked(m) {
        app.UnlockMessage(chatId, m.id);
      }
    }

    /** The confirm button of the purchase dialog: unlocks the message the
        dialog is about and closes it; with no dialog open it does nothing. */
    method ConfirmUnlock(app: App.AppState)
      requires app.Valid()
      modifies this, app
      ensures app.Valid() && NoUnlockPrompt()
      ensures app.chats == (match old(unlockingMessage)
                            case Some(m) => Store.UnlockMessage(old(app.chats), chatId, m.id)
                            case None => old(app.chats))
      ensures app.posts == old(app.posts) && app.models == old(app.models)
      ensures input == old(input) && pendingMedia == old(pendingMedia) && mediaPrice == old(mediaPrice)
    {
      if unlockingMessage.Some? {
        app.UnlockMessage(chatId, unlockingMessage.value.id);
        unlockingMessage := None;
      }
    }

    /** The cancel button of the purchase dialog. */
    method DismissUnlock()
      modifies this
      ensures NoUnlockPrompt()
      ensures input == old(input) && pendingMedia == old(pendingMedia) && mediaPrice == old(mediaPrice)
    {
      unlockingMessage := None;
    }
  }
}
