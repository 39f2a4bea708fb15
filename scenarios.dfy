/** Concrete runs over the seed data. */
module Scenarios {
  import opened Types
  import Data
  import Store
  import ProfilePage
  import ChatPage
  import GalleryPage
  import InboxPage

  /** The seed header shows 3 unread messages (2 in chat 1, 1 in chat 3). */
  lemma SeedTotalUnread()
    ensures Store.TotalUnread(Data.Chats) == 3
  {
    var cs := Data.Chats;
    assert Store.TotalUnread(cs[..1]) == 2 by {
      assert cs[..1][..0] == [];
    }
    assert Store.TotalUnread(cs[..2]) == 2 by {
      assert cs[..2][..1] == cs[..1];
    }
    assert cs[..|cs| - 1] == cs[..2];
  }

  /** The locked creator media of chat 1 (message 3) is blurred in the chat and
      missing from the gallery until it is unlocked; then it shows in both. */
  lemma UnlockRevealsSeedMedia()
    ensures var m := Data.Chat1Messages[2];
      ChatPage.BubbleLocked(m) && m !in GalleryPage.GalleryMedia(Data.Chat1Messages)
    ensures var after := Store.UnlockMessage(Data.Chats, 1, 3);
      var m := after[0].messages[2];
      m.id == 3 && !ChatPage.BubbleLocked(m) && m in GalleryPage.GalleryMedia(after[0].messages)
  {
    var after := Store.UnlockMessage(Data.Chats, 1, 3);
    assert after[0].messages[2] in after[0].messages;
  }

  /** Sending PPV media to chat 1 appends message 5, the user's own and
      unlocked although it is PPV, with its price kept. */
  lemma SendPpvMediaToSeedChat(now: string)
    ensures var after := Store.SendMedia(Data.Chats, 1, "https://example.com/a.jpg", now, true, Some(500));
      |after[0].messages| == 5 &&
      after[0].messages[4] == Message(5, USER, MEDIA, "https://example.com/a.jpg", now, true, Some(500), Some(true)) &&
      after[1] == Data.Chats[1] && after[2] == Data.Chats[2]
  {
  }

  /** Seed chat 3 ends with a PPV text message: it is drawn as plain text. */
  lemma SeedPpvTextIsPlain()
    ensures var m := Data.Chat3Messages[2];
      m.isPPV && m.kind == TEXT && ChatPage.BubbleOf(m) == ChatPage.TextBubble
  {
  }

  /** After deleting post 3, creator 1's feed no longer holds it, while the
      other seed posts of creator 1 stay. */
  lemma DeleteLeavesFeed()
    ensures var feed := ProfilePage.Feed(Store.DeletePost(Data.Posts, 3), 1);
      (forall p :: p in feed ==> p.id != 3) &&
      Data.Posts[0] in feed && Data.Posts[1] in feed && Data.Posts[3] in feed
  {
    var rest := Store.DeletePost(Data.Posts, 3);
    assert Data.Posts[0] in rest && Data.Posts[1] in rest && Data.Posts[3] in rest;
  }

  /** The seed inbox: every creator resolves, so all three chats get a row. */
  lemma SeedInboxRows()
    ensures |InboxPage.Rows(Data.Chats, Data.Models)| == 3
  {
    var cs := Data.Chats;
    var ms := Data.Models;
    assert ms[0] in ms && ms[1] in ms && ms[3] in ms;
    assert forall c :: c in cs ==> c == cs[0] || c == cs[1] || c == cs[2];
    assert forall c :: c in cs ==> exists m :: m in ms && m.id == c.modelId;
    InboxPage.RowsCountWhenAllResolve(cs, ms);
  }

  /** Chat 1's preview is its last text, and only chats with unread messages
      carry a badge. */
  lemma SeedInboxPreview()
    ensures InboxPage.Preview(Data.Chat1Messages) == Some(Data.Chat1Messages[3].content)
    ensures InboxPage.Badge(Data.Chats[0]) == Some(2) && InboxPage.Badge(Data.Chats[1]) == None
  {
    assert Data.Chat1Messages[3].content[..4] != "http" by {
      assert Data.Chat1Messages[3].content[0] == 'S';
    }
  }

  /** The gallery of a chat that does not exist is "not found". */
  lemma MissingChatGallery()
    ensures GalleryPage.Gallery(Data.Chats, Data.Models, 9) == GalleryPage.NotFound
  {
  }
}
