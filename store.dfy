/** The state transitions of the app root: each handler builds a new version of
    one of the three collections (chats, posts, creators) from the previous one
    with a `map` or a `filter`. These functions are those new versions; the
    class in module App assigns them. */
module Store {
  import opened Types
  import Data

  // =====================================================================
  // Unread total

  /** The header's unread total: a left-to-right sum of the chats' unread counts. */
  function TotalUnread(chats: seq<Chat>): (n: int)
    ensures (forall i :: 0 <= i < |chats| ==> chats[i].unreadCount >= 0) ==>
      n >= 0 && (n == 0 <==> forall i :: 0 <= i < |chats| ==> chats[i].unreadCount == 0)
  {
    if chats == [] then 0
    else TotalUnread(chats[..|chats| - 1]) + chats[|chats| - 1].unreadCount
  }

  /** The unread counts of the chats carrying `chatId`, summed the same way. */
  function UnreadOf(chats: seq<Chat>, chatId: int): int {
    if chats == [] then 0
    else
      UnreadOf(chats[..|chats| - 1], chatId)
      + (if chats[|chats| - 1].id == chatId then chats[|chats| - 1].unreadCount else 0)
  }

  // =====================================================================
  // Chats

  /** Opening a chat: its unread count becomes 0; nothing else changes. */
  function ReadChat(chats: seq<Chat>, chatId: int): (r: seq<Chat>)
    ensures |r| == |chats|
    ensures forall i :: 0 <= i < |r| ==>
      r[i].id == chats[i].id && r[i].modelId == chats[i].modelId && r[i].messages == chats[i].messages
    ensures forall i :: 0 <= i < |r| ==>
      r[i].unreadCount == (if chats[i].id == chatId then 0 else chats[i].unreadCount)
  {
    seq(|chats|, i requires 0 <= i < |chats| =>
      if chats[i].id == chatId then chats[i].(unreadCount := 0) else chats[i])
  }

  lemma {:induction false} ReadChatUnread(chats: seq<Chat>, chatId: int)
    ensures TotalUnread(ReadChat(chats, chatId)) == TotalUnread(chats) - UnreadOf(chats, chatId)
  {
    if chats != [] {
      var n := |chats|;
      assert ReadChat(chats, chatId)[..n - 1] == ReadChat(chats[..n - 1], chatId);
      ReadChatUnread(chats[..n - 1], chatId);
    }
  }

  lemma {:induction false} UnreadOfAbsent(chats: seq<Chat>, chatId: int)
    requires forall i :: 0 <= i < |chats| ==> chats[i].id != chatId
    ensures UnreadOf(chats, chatId) == 0
  {
    if chats != [] {
      UnreadOfAbsent(chats[..|chats| - 1], chatId);
    }
  }

  lemma {:induction false} UnreadOfUnique(chats: seq<Chat>, k: nat)
    requires k < |chats| && UniqueChatIds(chats)
    ensures UnreadOf(chats, chats[k].id) == chats[k].unreadCount
  {
    var n := |chats|;
    var prefix := chats[..n - 1];
    if k == n - 1 {
      UnreadOfAbsent(prefix, chats[k].id);
    } else {
      assert prefix[k] == chats[k];
      UnreadOfUnique(prefix, k);
    }
  }

  /** With distinct chat ids, reading a chat lowers the header total by exactly
      that chat's previous unread count, and leaves it alone for an unknown id. */
  lemma ReadChatLowersTotal(chats: seq<Chat>, chatId: int)
    requires UniqueChatIds(chats)
    ensures TotalUnread(ReadChat(chats, chatId)) == TotalUnread(chats) -
      (match Data.GetChatById(chatId, chats) case Some(c) => c.unreadCount case None => 0)
  {
    ReadChatUnread(chats, chatId);
    match Data.FindIndex(chats, Data.ChatKey, chatId)
    case None =>
      UnreadOfAbsent(chats, chatId);
    case Some(k) =>
      UnreadOfUnique(chats, k);
  }

  /** Every message of the list with that id gets `isUnlocked = true`; nothing else changes. */
  function UnlockIn(messages: seq<Message>, messageId: int): (r: seq<Message>)
    ensures |r| == |messages|
    ensures forall j :: 0 <= j < |r| ==> r[j].(isUnlocked := messages[j].isUnlocked) == messages[j]
    ensures forall j :: 0 <= j < |r| ==>
      r[j].isUnlocked == (if messages[j].id == messageId then Some(true) else messages[j].isUnlocked)
  {
    seq(|messages|, j requires 0 <= j < |messages| =>
      if messages[j].id == messageId then messages[j].(isUnlocked := Some(true)) else messages[j])
  }

  /** Unlocking a message of one chat: only the messages with that id, inside
      the chats with that id, change, and only in their unlock flag. */
  function UnlockMessage(chats: seq<Chat>, chatId: int, messageId: int): (r: seq<Chat>)
    ensures |r| == |chats|
    ensures forall i :: 0 <= i < |r| ==> r[i].(messages := chats[i].messages) == chats[i]
    ensures forall i :: 0 <= i < |r| && chats[i].id != chatId ==> r[i] == chats[i]
    ensures forall i :: 0 <= i < |r| && chats[i].id == chatId ==>
      r[i].messages == UnlockIn(chats[i].messages, messageId)
  {
    seq(|chats|, i requires 0 <= i < |chats| =>
      if chats[i].id == chatId
      then chats[i].(messages := UnlockIn(chats[i].messages, messageId))
      else chats[i])
  }

  /** A second unlock of the same message changes nothing. */
  lemma UnlockIdempotent(chats: seq<Chat>, chatId: int, messageId: int)
    ensures UnlockMessage(UnlockMessage(chats, chatId, messageId), chatId, messageId)
         == UnlockMessage(chats, chatId, messageId)
  {
    var once := UnlockMessage(chats, chatId, messageId);
    var twice := UnlockMessage(once, chatId, messageId);
    forall i | 0 <= i < |chats|
      ensures twice[i] == once[i]
    {
      if chats[i].id == chatId {
        var m := once[i].messages;
        assert UnlockIn(m, messageId) == m;
      }
    }
  }

  /** The message the text send handler appends. */
  function TextMessage(id: int, content: string, now: string): Message {
    Message(id, USER, TEXT, content, now, false, None, None)
  }

  /** The message the media send handler appends: the user's own media is
      always unlocked, and the price is kept only for a PPV message. */
  function MediaMessage(id: int, content: string, now: string, isPPV: bool, price: Option<int>): Message {
    Message(id, USER, MEDIA, content, now, isPPV, if isPPV then price else None, Some(true))
  }

  /** `after` is `before` with exactly one message appended at the end. */
  ghost predicate ExtendsByOne(before: seq<Message>, after: seq<Message>) {
    |after| == |before| + 1 && after[..|before|] == before
  }

  /** Appends one user text message, numbered length + 1, to each chat with
      that id; there is no check for empty content here. */
  function SendMessage(chats: seq<Chat>, chatId: int, content: string, now: string): (r: seq<Chat>)
    ensures |r| == |chats|
    ensures forall i :: 0 <= i < |r| ==> r[i].(messages := chats[i].messages) == chats[i]
    ensures forall i :: 0 <= i < |r| && chats[i].id != chatId ==> r[i] == chats[i]
    ensures forall i :: 0 <= i < |r| && chats[i].id == chatId ==>
      var n := |chats[i].messages|;
      ExtendsByOne(chats[i].messages, r[i].messages)
      && r[i].messages[n].id == n + 1
      && r[i].messages[n].sender == USER && r[i].messages[n].kind == TEXT
      && !r[i].messages[n].isPPV && r[i].messages[n].content == content
      && r[i].messages[n].timestamp == now
      && r[i].messages[n].price == None && r[i].messages[n].isUnlocked == None
  {
    seq(|chats|, i requires 0 <= i < |chats| =>
      if chats[i].id == chatId
      then chats[i].(messages := chats[i].messages + [TextMessage(|chats[i].messages| + 1, content, now)])
      else chats[i])
  }

  /** Appends one user media message, numbered length + 1, to each chat with that id. */
  function SendMedia(chats: seq<Chat>, chatId: int, content: string, now: string,
                     isPPV: bool, price: Option<int>): (r: seq<Chat>)
    ensures |r| == |chats|
    ensures forall i :: 0 <= i < |r| ==> r[i].(messages := chats[i].messages) == chats[i]
    ensures forall i :: 0 <= i < |r| && chats[i].id != chatId ==> r[i] == chats[i]
    ensures forall i :: 0 <= i < |r| && chats[i].id == chatId ==>
      var n := |chats[i].messages|;
      ExtendsByOne(chats[i].messages, r[i].messages)
      && r[i].messages[n].id == n + 1
      && r[i].messages[n].sender == USER && r[i].messages[n].kind == MEDIA
      && r[i].messages[n].content == content && r[i].messages[n].timestamp == now
      && r[i].messages[n].isUnlocked == Some(true)
      && r[i].messages[n].isPPV == isPPV
      && r[i].messages[n].price == (if isPPV then price else None)
  {
    seq(|chats|, i requires 0 <= i < |chats| =>
      if chats[i].id == chatId
      then chats[i].(messages := chats[i].messages + [MediaMessage(|chats[i].messages| + 1, content, now, isPPV, price)])
      else chats[i])
  }

  /** While a chat's messages are numbered 1..n, the id n + 1 is fresh. */
  lemma NextIdFresh(messages: seq<Message>)
    requires SequentialIds(messages)
    ensures forall k :: 0 <= k < |messages| ==> messages[k].id != |messages| + 1
  {
  }

  /** The read, unlock and send handlers keep every chat numbered 1..n and keep
      chat ids distinct. */
  lemma ChatHandlersKeepIds(chats: seq<Chat>, chatId: int, messageId: int, content: string,
                            now: string, isPPV: bool, price: Option<int>)
    requires AllSequential(chats) && UniqueChatIds(chats)
    ensures AllSequential(ReadChat(chats, chatId)) && UniqueChatIds(ReadChat(chats, chatId))
    ensures AllSequential(UnlockMessage(chats, chatId, messageId))
    ensures UniqueChatIds(UnlockMessage(chats, chatId, messageId))
    ensures AllSequential(SendMessage(chats, chatId, content, now))
    ensures UniqueChatIds(SendMessage(chats, chatId, content, now))
    ensures AllSequential(SendMedia(chats, chatId, content, now, isPPV, price))
    ensures UniqueChatIds(SendMedia(chats, chatId, content, now, isPPV, price))
  {
    var u := UnlockMessage(chats, chatId, messageId);
    forall i | 0 <= i < |u| ensures SequentialIds(u[i].messages) {
      assert SequentialIds(chats[i].messages);
    }
    var s := SendMessage(chats, chatId, content, now);
    forall i | 0 <= i < |s| ensures SequentialIds(s[i].messages) {
      assert SequentialIds(chats[i].messages);
      if chats[i].id == chatId {
        var n := |chats[i].messages|;
        forall k | 0 <= k < |s[i].messages| ensures s[i].messages[k].id == k + 1 {
          if k < n {
            assert s[i].messages[k] == s[i].messages[..n][k];
          }
        }
      }
    }
    var m := SendMedia(chats, chatId, content, now, isPPV, price);
    forall i | 0 <= i < |m| ensures SequentialIds(m[i].messages) {
      assert SequentialIds(chats[i].messages);
      if chats[i].id == chatId {
        var n := |chats[i].messages|;
        forall k | 0 <= k < |m[i].messages| ensures m[i].messages[k].id == k + 1 {
          if k < n {
            assert m[i].messages[k] == m[i].messages[..n][k];
          }
        }
      }
    }
  }

  // =====================================================================
  // Posts

  /** Deleting a post keeps, in order, every post whose id differs. */
  function DeletePost(posts: seq<Post>, postId: int): (r: seq<Post>)
    ensures forall p :: p in r <==> p in posts && p.id != postId
    ensures |r| <= |posts|
    ensures (forall i :: 0 <= i < |posts| ==> posts[i].id != postId) ==> r == posts
  {
    if posts == [] then []
    else (if posts[0].id == postId then [] else [posts[0]]) + DeletePost(posts[1..], postId)
  }

  /** Deleting commutes with concatenation, so the kept posts stay in their order. */
  lemma {:induction false} DeletePostAppend(a: seq<Post>, b: seq<Post>, postId: int)
    ensures DeletePost(a + b, postId) == DeletePost(a, postId) + DeletePost(b, postId)
  {
    if a == [] {
      assert a + b == b;
    } else {
      assert (a + b)[1..] == a[1..] + b;
      DeletePostAppend(a[1..], b, postId);
    }
  }

  /** Deleting twice is deleting once. */
  lemma DeletePostIdempotent(posts: seq<Post>, postId: int)
    ensures DeletePost(DeletePost(posts, postId), postId) == DeletePost(posts, postId)
  {
    var once := DeletePost(posts, postId);
    forall i | 0 <= i < |once| ensures once[i].id != postId {
      assert once[i] in once;
    }
  }

  /** Deleting keeps ids distinct and keeps "at most one pinned". */
  lemma {:induction false} DeletePostKeepsInvariants(posts: seq<Post>, postId: int)
    requires UniquePostIds(posts) && AtMostOnePinned(posts)
    ensures UniquePostIds(DeletePost(posts, postId)) && AtMostOnePinned(DeletePost(posts, postId))
  {
    if posts != [] {
      HeadApart(posts);
      DeletePostKeepsInvariants(posts[1..], postId);
      var rest := DeletePost(posts[1..], postId);
      if posts[0].id != postId {
        assert DeletePost(posts, postId) == [posts[0]] + rest;
        ConsKeepsInvariants(posts[0], rest);
      } else {
        assert DeletePost(posts, postId) == rest;
      }
    }
  }

  /** The first post differs in id from every later post, and is the only pinned one if pinned. */
  lemma HeadApart(posts: seq<Post>)
    requires posts != [] && UniquePostIds(posts) && AtMostOnePinned(posts)
    ensures UniquePostIds(posts[1..]) && AtMostOnePinned(posts[1..])
    ensures forall q :: q in posts[1..] ==> q.id != posts[0].id && (IsPinned(posts[0]) ==> !IsPinned(q))
  {
    var tail := posts[1..];
    forall q | q in tail ensures q.id != posts[0].id && (IsPinned(posts[0]) ==> !IsPinned(q)) {
      var k :| 0 <= k < |tail| && tail[k] == q;
      assert posts[k + 1] == q;
    }
    forall i, j | 0 <= i < j < |tail| ensures tail[i].id != tail[j].id {
      assert tail[i] == posts[i + 1] && tail[j] == posts[j + 1];
    }
    forall i, j | 0 <= i < |tail| && 0 <= j < |tail| && IsPinned(tail[i]) && IsPinned(tail[j])
      ensures i == j
    {
      assert tail[i] == posts[i + 1] && tail[j] == posts[j + 1];
    }
  }

  /** Putting a post in front of a list keeps both invariants when it is apart from the list. */
  lemma ConsKeepsInvariants(x: Post, t: seq<Post>)
    requires UniquePostIds(t) && AtMostOnePinned(t)
    requires forall q :: q in t ==> q.id != x.id && (IsPinned(x) ==> !IsPinned(q))
    ensures UniquePostIds([x] + t) && AtMostOnePinned([x] + t)
  {
    var r := [x] + t;
    forall i, j | 0 <= i < j < |r| ensures r[i].id != r[j].id {
      assert r[j] == t[j - 1];
      if i > 0 {
        assert r[i] == t[i - 1];
      }
    }
    forall i, j | 0 <= i < |r| && 0 <= j < |r| && IsPinned(r[i]) && IsPinned(r[j])
      ensures i == j
    {
      if i > 0 && j > 0 {
        assert r[i] == t[i - 1] && r[j] == t[j - 1];
      }
    }
  }

  /** Whether the first post with that id is pinned (`currentPost?.isPinned`,
      taken for its truthiness; false when no post has the id). */
  function CurrentlyPinned(posts: seq<Post>, postId: int): bool {
    match Data.Find(posts, Data.PostKey, postId)
    case None => false
    case Some(p) => IsPinned(p)
  }

  /** Pin toggling. Every post with the id gets the opposite of the current pin
      state. When the target was not pinned (or is absent), every other pinned
      post of the whole list, whatever its creator, is unpinned; when it was
      pinned, the others are left alone. Only `isPinned` ever changes. */
  function PinPost(posts: seq<Post>, postId: int): (r: seq<Post>)
    ensures |r| == |posts|
    ensures forall i :: 0 <= i < |r| ==> r[i].(isPinned := posts[i].isPinned) == posts[i]
    ensures forall i :: 0 <= i < |r| && posts[i].id == postId ==>
      r[i].isPinned == Some(!CurrentlyPinned(posts, postId))
    ensures forall i :: 0 <= i < |r| && posts[i].id != postId && CurrentlyPinned(posts, postId) ==>
      r[i] == posts[i]
    ensures forall i :: 0 <= i < |r| && posts[i].id != postId && !CurrentlyPinned(posts, postId) ==>
      !IsPinned(r[i]) && (!IsPinned(posts[i]) ==> r[i] == posts[i])
  {
    var wasPinned := CurrentlyPinned(posts, postId);
    seq(|posts|, i requires 0 <= i < |posts| =>
      if posts[i].id == postId then posts[i].(isPinned := Some(!wasPinned))
      else if !wasPinned && IsPinned(posts[i]) then posts[i].(isPinned := Some(false))
      else posts[i])
  }

  /** Number of pinned posts in the list. */
  function PinnedCount(posts: seq<Post>): nat {
    if posts == [] then 0
    else (if IsPinned(posts[0]) then 1 else 0) + PinnedCount(posts[1..])
  }

  lemma {:induction false} PinnedCountZero(posts: seq<Post>)
    requires forall i :: 0 <= i < |posts| ==> !IsPinned(posts[i])
    ensures PinnedCount(posts) == 0
  {
    if posts != [] {
      PinnedCountZero(posts[1..]);
    }
  }

  lemma {:induction false} PinnedCountOne(posts: seq<Post>, k: nat)
    requires k < |posts|
    requires forall i :: 0 <= i < |posts| ==> (IsPinned(posts[i]) <==> i == k)
    ensures PinnedCount(posts) == 1
  {
    if k == 0 {
      PinnedCountZero(posts[1..]);
    } else {
      PinnedCountOne(posts[1..], k - 1);
    }
  }

  /** Pinning an existing, unpinned post (ids distinct) leaves exactly that one
      post pinned in the whole list. */
  lemma PinLeavesExactlyOne(posts: seq<Post>, k: nat)
    requires k < |posts| && UniquePostIds(posts)
    requires !IsPinned(posts[k])
    ensures var r := PinPost(posts, posts[k].id);
      (forall i :: 0 <= i < |r| ==> (IsPinned(r[i]) <==> i == k)) && PinnedCount(r) == 1
  {
    Data.FindUnique(posts, Data.PostKey, k);
    var r := PinPost(posts, posts[k].id);
    PinnedCountOne(r, k);
  }

  /** With distinct ids, pinning keeps "at most one pinned post". */
  lemma PinKeepsAtMostOne(posts: seq<Post>, postId: int)
    requires UniquePostIds(posts) && AtMostOnePinned(posts)
    ensures AtMostOnePinned(PinPost(posts, postId))
  {
    var r := PinPost(posts, postId);
    if CurrentlyPinned(posts, postId) {
      forall i | 0 <= i < |r| && IsPinned(r[i]) ensures IsPinned(posts[i]) {
      }
    }
  }

  /** With distinct ids, two pin toggles give the target its original pin state. */
  lemma PinTwiceRestores(posts: seq<Post>, k: nat)
    requires k < |posts| && UniquePostIds(posts)
    ensures var twice := PinPost(PinPost(posts, posts[k].id), posts[k].id);
      IsPinned(twice[k]) == IsPinned(posts[k])
  {
    var id := posts[k].id;
    Data.FindUnique(posts, Data.PostKey, k);
    var once := PinPost(posts, id);
    assert UniquePostIds(once);
    Data.FindUnique(once, Data.PostKey, k);
  }

  /** Editing replaces the caption of the posts with that id, and nothing else. */
  function EditPost(posts: seq<Post>, postId: int, newCaption: string): (r: seq<Post>)
    ensures |r| == |posts|
    ensures forall i :: 0 <= i < |r| ==> r[i].(caption := posts[i].caption) == posts[i]
    ensures forall i :: 0 <= i < |r| ==>
      r[i].caption == (if posts[i].id == postId then Some(newCaption) else posts[i].caption)
  {
    seq(|posts|, i requires 0 <= i < |posts| =>
      if posts[i].id == postId then posts[i].(caption := Some(newCaption)) else posts[i])
  }

  /** Liking toggles `isLiked` (an absent flag counts as false) and moves
      `likes` one step up when the post becomes liked, one step down otherwise,
      with no floor. */
  function LikePost(posts: seq<Post>, postId: int): (r: seq<Post>)
    ensures |r| == |posts|
    ensures forall i :: 0 <= i < |r| && posts[i].id != postId ==> r[i] == posts[i]
    ensures forall i :: 0 <= i < |r| && posts[i].id == postId ==>
      r[i].(isLiked := posts[i].isLiked, likes := posts[i].likes) == posts[i]
      && r[i].isLiked == Some(!Truthy(posts[i].isLiked))
      && r[i].likes == posts[i].likes + (if Truthy(posts[i].isLiked) then -1 else 1)
  {
    seq(|posts|, i requires 0 <= i < |posts| =>
      if posts[i].id == postId
      then
        var liked := !Truthy(posts[i].isLiked);
        posts[i].(isLiked := Some(liked), likes := if liked then posts[i].likes + 1 else posts[i].likes - 1)
      else posts[i])
  }

  /** Two likes in a row restore the like count and the truthiness of the flag;
      only an absent flag is left as an explicit `false`. */
  lemma LikeTwiceRestores(posts: seq<Post>, postId: int)
    ensures var twice := LikePost(LikePost(posts, postId), postId);
      |twice| == |posts| &&
      forall i :: 0 <= i < |posts| ==>
        twice[i].likes == posts[i].likes
        && Truthy(twice[i].isLiked) == Truthy(posts[i].isLiked)
        && twice[i] == (if posts[i].id == postId
                        then posts[i].(isLiked := Some(Truthy(posts[i].isLiked)))
                        else posts[i])
  {
  }

  /** Edit and like touch neither ids nor pins, so both invariants survive them. */
  lemma EditAndLikeKeepInvariants(posts: seq<Post>, postId: int, caption: string)
    requires UniquePostIds(posts) && AtMostOnePinned(posts)
    ensures UniquePostIds(EditPost(posts, postId, caption)) && AtMostOnePinned(EditPost(posts, postId, caption))
    ensures UniquePostIds(LikePost(posts, postId)) && AtMostOnePinned(LikePost(posts, postId))
  {
    var e := EditPost(posts, postId, caption);
    assert forall i :: 0 <= i < |e| ==> e[i].id == posts[i].id && e[i].isPinned == posts[i].isPinned;
    var l := LikePost(posts, postId);
    assert forall i :: 0 <= i < |l| ==> l[i].id == posts[i].id && l[i].isPinned == posts[i].isPinned;
  }

  // =====================================================================
  // Creators

  /** `{ ...model, ...patch }`: each field the patch supplies overrides, the others are kept. */
  function Merge(m: Model, p: ModelPatch): (r: Model)
    ensures r.id == (if p.id.Some? then p.id.value else m.id)
    ensures r.name == (if p.name.Some? then p.name.value else m.name)
    ensures r.age == (if p.age.Some? then p.age.value else m.age)
    ensures r.location == (if p.location.Some? then p.location.value else m.location)
    ensures r.isOnline == (if p.isOnline.Some? then p.isOnline.value else m.isOnline)
    ensures r.profilePicture == (if p.profilePicture.Some? then p.profilePicture.value else m.profilePicture)
    ensures r.bannerPicture == (if p.bannerPicture.Some? then p.bannerPicture.value else m.bannerPicture)
    ensures r.bio == (if p.bio.Some? then p.bio.value else m.bio)
    ensures r.stats == (if p.stats.Some? then p.stats.value else m.stats)
    ensures r.subscriberCount == (if p.subscriberCount.Some? then p.subscriberCount.value else m.subscriberCount)
    ensures r.subscriptionPrice == (if p.subscriptionPrice.Some? then p.subscriptionPrice.value else m.subscriptionPrice)
    ensures p == ModelPatch(None, None, None, None, None, None, None, None, None, None, None) ==> r == m
  {
    Model(
      Get(p.id, m.id), Get(p.name, m.name), Get(p.age, m.age), Get(p.location, m.location),
      Get(p.isOnline, m.isOnline), Get(p.profilePicture, m.profilePicture),
      Get(p.bannerPicture, m.bannerPicture), Get(p.bio, m.bio), Get(p.stats, m.stats),
      Get(p.subscriberCount, m.subscriberCount), Get(p.subscriptionPrice, m.subscriptionPrice))
  }

  /** The supplied value, or the current one when the patch leaves the field out. */
  function Get<T>(o: Option<T>, current: T): T {
    match o
    case Some(v) => v
    case None => current
  }

  /** Applying a patch twice is applying it once. */
  lemma MergeIdempotent(m: Model, p: ModelPatch)
    ensures Merge(Merge(m, p), p) == Merge(m, p)
  {
  }

  /** Updating a profile merges the patch into the creators with that id and leaves the others alone. */
  function UpdateProfile(models: seq<Model>, userId: int, patch: ModelPatch): (r: seq<Model>)
    ensures |r| == |models|
    ensures forall i :: 0 <= i < |r| && models[i].id != userId ==> r[i] == models[i]
    ensures forall i :: 0 <= i < |r| && models[i].id == userId ==> r[i] == Merge(models[i], patch)
  {
    seq(|models|, i requires 0 <= i < |models| =>
      if models[i].id == userId then Merge(models[i], patch) else models[i])
  }

  /** Sending the same profile update twice has the effect of sending it once,
      even when the patch rewrites the id itself. */
  lemma UpdateProfileIdempotent(models: seq<Model>, userId: int, patch: ModelPatch)
    ensures UpdateProfile(UpdateProfile(models, userId, patch), userId, patch)
         == UpdateProfile(models, userId, patch)
  {
    var once := UpdateProfile(models, userId, patch);
    forall i | 0 <= i < |models|
      ensures UpdateProfile(once, userId, patch)[i] == once[i]
    {
      if models[i].id == userId {
        MergeIdempotent(models[i], patch);
      }
    }
  }
}
