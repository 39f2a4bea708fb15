/** Record shapes of the app (creators, posts, chat messages, chats,
    subscriptions) and the invariants the rest of the model talks about.

    Optional fields of the records are `Option` values, so that a field that
    is absent (`undefined`) stays distinct from one that is `false`. Prices are
    integer cents; they are only ever displayed, never computed with. */
module Types {

  datatype Option<+T> = None | Some(value: T)

  /** JavaScript truthiness of an optional flag: `undefined` and `false` are both falsy. */
  predicate Truthy(b: Option<bool>) {
    b == Some(true)
  }

  /** Aggregate counters shown on a creator's profile. */
  datatype Stats = Stats(likes: int, comments: int, views: int, posts: int)

  /** A creator ("model"); `subscriptionPrice` is in cents per day. */
  datatype Model = Model(
    id: int,
    name: string,
    age: int,
    location: string,
    isOnline: bool,
    profilePicture: string,
    bannerPicture: string,
    bio: string,
    stats: Stats,
    subscriberCount: int,
    subscriptionPrice: int)

  /** A `Partial<Model>`: the fields the caller supplied, each `None` when absent. */
  datatype ModelPatch = ModelPatch(
    id: Option<int>,
    name: Option<string>,
    age: Option<int>,
    location: Option<string>,
    isOnline: Option<bool>,
    profilePicture: Option<string>,
    bannerPicture: Option<string>,
    bio: Option<string>,
    stats: Option<Stats>,
    subscriberCount: Option<int>,
    subscriptionPrice: Option<int>)

  datatype PostType = Text | Image | Video

  datatype Post = Post(
    id: int,
    modelId: int,
    kind: PostType,
    content: string,
    caption: Option<string>,
    timestamp: string,
    likes: int,
    comments: int,
    isPPV: bool,
    price: Option<int>,
    isPinned: Option<bool>,
    isLiked: Option<bool>)

  datatype MessageType = TEXT | MEDIA

  datatype MessageSender = USER | MODEL

  datatype Message = Message(
    id: int,
    sender: MessageSender,
    kind: MessageType,
    content: string,
    timestamp: string,
    isPPV: bool,
    price: Option<int>,
    isUnlocked: Option<bool>)

  datatype Chat = Chat(id: int, modelId: int, messages: seq<Message>, unreadCount: int)

  datatype Subscription = Subscription(modelId: int, renewalDate: string)

  /** A post shows the "Pinned" badge and sorts first exactly when its flag is truthy. */
  predicate IsPinned(p: Post) {
    Truthy(p.isPinned)
  }

  /** No two posts share an id. */
  ghost predicate UniquePostIds(posts: seq<Post>) {
    forall i, j :: 0 <= i < j < |posts| ==> posts[i].id != posts[j].id
  }

  /** No two chats share an id. */
  ghost predicate UniqueChatIds(chats: seq<Chat>) {
    forall i, j :: 0 <= i < j < |chats| ==> chats[i].id != chats[j].id
  }

  /** At most one post of the whole list is pinned. */
  ghost predicate AtMostOnePinned(posts: seq<Post>) {
    forall i, j :: 0 <= i < |posts| && 0 <= j < |posts| && IsPinned(posts[i]) && IsPinned(posts[j]) ==> i == j
  }

  /** The messages of a chat are numbered 1, 2, ..., n in order, which is what
      makes `length + 1` a fresh id for the next message. */
  ghost predicate SequentialIds(messages: seq<Message>) {
    forall k :: 0 <= k < |messages| ==> messages[k].id == k + 1
  }

  /** Every chat of the list has sequentially numbered messages. */
  ghost predicate AllSequential(chats: seq<Chat>) {
    forall i :: 0 <= i < |chats| ==> SequentialIds(chats[i].messages)
  }
}
