/** The app root: the three collections held as state and the handlers that
    replace one of them with the next version computed in module Store. */
module App {
  import opened Types
  import Data
  import Store

  /** The logged-in user is the creator with id 1. */
  const CurrentUserId: int := 1

  class AppState {
    var chats: seq<Chat>
    var posts: seq<Post>
    var models: seq<Model>

    /** What every handler preserves: distinct chat and post ids, messages
        numbered 1..n in every chat, and at most one pinned post. */
    ghost predicate Valid()
      reads this
    {
      UniqueChatIds(chats) && AllSequential(chats) && UniquePostIds(posts) && AtMostOnePinned(posts)
    }

    /** The state starts as the seed fixtures. */
    constructor ()
      ensures Valid()
      ensures chats == Data.Chats && posts == Data.Posts && models == Data.Models
    {
      chats := Data.Chats;
      posts := Data.Posts;
      models := Data.Models;
      Data.SeedChatsSequential();
      Data.SeedIdsAndPins();
    }

    /** The header's unread total. */
    function TotalUnreadCount(): int
      reads this
    {
      Store.TotalUnread(chats)
    }

    /** The logged-in user, looked up in the live creator list; the app shows a
        loading placeholder while there is none. */
    function CurrentUser(): (r: Option<Model>)
      reads this
      ensures r.Some? ==> r.value in models && r.value.id == CurrentUserId
      ensures r.None? <==> forall m :: m in models ==> m.id != CurrentUserId
    {
      Data.Find(models, Data.ModelKey, CurrentUserId)
    }

    method ReadChat(chatId: int)
      requires Valid()
      modifies this
      ensures Valid()
      ensures chats == Store.ReadChat(old(chats), chatId)
      ensures posts == old(posts) && models == old(models)
      ensures TotalUnreadCount() == old(TotalUnreadCount()) -
        (match Data.GetChatById(chatId, old(chats)) case Some(c) => c.unreadCount case None => 0)
    {
      Store.ChatHandlersKeepIds(chats, chatId, 0, "", "", false, None);
      Store.ReadChatLowersTotal(chats, chatId);
      chats := Store.ReadChat(chats, chatId);
    }

    method UnlockMessage(chatId: int, messageId: int)
      requires Valid()
      modifies this
      ensures Valid()
      ensures chats == Store.UnlockMessage(old(chats), chatId, messageId)
      ensures posts == old(posts) && models == old(models)
    {
      Store.ChatHandlersKeepIds(chats, chatId, messageId, "", "", false, None);
      chats := Store.UnlockMessage(chats, chatId, messageId);
    }

    method SendMessage(chatId: int, content: string, now: string)
      requires Valid()
      modifies this
      ensures Valid()
      ensures chats == Store.SendMessage(old(chats), chatId, content, now)
      ensures posts == old(posts) && models == old(models)
    {
      Store.ChatHandlersKeepIds(chats, chatId, 0, content, now, false, None);
      chats := Store.SendMessage(chats, chatId, content, now);
    }

    method SendMedia(chatId: int, content: string, now: string, isPPV: bool, price: Option<int>)
      requires Valid()
      modifies this
      ensures Valid()
      ensures chats == Store.SendMedia(old(chats), chatId, content, now, isPPV, price)
      ensures posts == old(posts) && models == old(models)
    {
      Store.ChatHandlersKeepIds(chats, chatId, 0, content, now, isPPV, price);
      chats := Store.SendMedia(chats, chatId, content, now, isPPV, price);
    }

    method DeletePost(postId: int)
      requires Valid()
      modifies this
      ensures Valid()
      ensures posts == Store.DeletePost(old(posts), postId)
      ensures chats == old(chats) && models == old(models)
    {
      Store.DeletePostKeepsInvariants(posts, postId);
      posts := Store.DeletePost(posts, postId);
    }

    method PinPost(postId: int)
      requires Valid()
      modifies this
      ensures Valid()
      ensures posts == Store.PinPost(old(posts), postId)
      ensures chats == old(chats) && models == old(models)
    {
      Store.PinKeepsAtMostOne(posts, postId);
      posts := Store.PinPost(posts, postId);
    }

    method EditPost(postId: int, newCaption: string)
      requires Valid()
      modifies this
      ensures Valid()
      ensures posts == Store.EditPost(old(posts), postId, newCaption)
      ensures chats == old(chats) && models == old(models)
    {
      Store.EditAndLikeKeepInvariants(posts, postId, newCaption);
      posts := Store.EditPost(posts, postId, newCaption);
    }

    method LikePost(postId: int)
      requires Valid()
      modifies this
      ensures Valid()
      ensures posts == Store.LikePost(old(posts), postId)
      ensures chats == old(chats) && models == old(models)
    {
      Store.EditAndLikeKeepInvariants(posts, postId, "");
      posts := Store.LikePost(posts, postId);
    }

    method UpdateProfile(userId: int, patch: ModelPatch)
      requires Valid()
      modifies this
      ensures Valid()
      ensures models == Store.UpdateProfile(old(models), userId, patch)
      ensures chats == old(chats) && posts == old(posts)
    {
      models := Store.UpdateProfile(models, userId, patch);
    }
  }
}
