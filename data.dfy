/** The seed fixtures the app starts from, and the lookups over them and over
    the live collections: first match by id, and the posts of one creator. */
module Data {
  import opened Types

  // ---------------------------------------------------------------------
  // Lookups

  /** Index of the first element whose key is `id`, as `Array.prototype.find` scans. */
  function FindIndex<T>(s: seq<T>, key: T -> int, id: int): (r: Option<nat>)
    ensures r.None? <==> forall i :: 0 <= i < |s| ==> key(s[i]) != id
    ensures r.Some? ==> r.value < |s| && key(s[r.value]) == id
    ensures r.Some? ==> forall j :: 0 <= j < r.value ==> key(s[j]) != id
  {
    if |s| == 0 then None
    else if key(s[0]) == id then Some(0)
    else
      match FindIndex(s[1..], key, id)
      case None => None
      case Some(k) => Some(k + 1)
  }

  /** The first element whose key is `id`, or nothing. */
  function Find<T>(s: seq<T>, key: T -> int, id: int): (r: Option<T>)
    ensures r.None? <==> forall i :: 0 <= i < |s| ==> key(s[i]) != id
    ensures r.Some? ==> r.value in s && key(r.value) == id
    ensures r.Some? ==>
      exists k :: 0 <= k < |s| && s[k] == r.value && forall j :: 0 <= j < k ==> key(s[j]) != id
  {
    match FindIndex(s, key, id)
    case None => None
    case Some(k) => Some(s[k])
  }

  function ModelKey(m: Model): int { m.id }
  function ChatKey(c: Chat): int { c.id }
  function PostKey(p: Post): int { p.id }

  /** With distinct ids, the element found is the one at any index carrying that id. */
  lemma {:induction false} FindUnique<T>(s: seq<T>, key: T -> int, k: nat)
    requires k < |s|
    requires forall i, j :: 0 <= i < j < |s| ==> key(s[i]) != key(s[j])
    ensures Find(s, key, key(s[k])) == Some(s[k])
  {
    var r := FindIndex(s, key, key(s[k]));
    assert r.Some?;
  }

  /** The posts of one creator, in list order (the `filter` of the feed and of
      `getPostsByModelId`). */
  function PostsByModelId(posts: seq<Post>, id: int): (r: seq<Post>)
    ensures forall p :: p in r <==> p in posts && p.modelId == id
    ensures |r| <= |posts|
  {
    if posts == [] then []
    else (if posts[0].modelId == id then [posts[0]] else []) + PostsByModelId(posts[1..], id)
  }

  /** Filtering commutes with concatenation: the relative order of the kept posts is the input's. */
  lemma {:induction false} PostsByModelIdAppend(a: seq<Post>, b: seq<Post>, id: int)
    ensures PostsByModelId(a + b, id) == PostsByModelId(a, id) + PostsByModelId(b, id)
  {
    if a == [] {
      assert a + b == b;
    } else {
      assert (a + b)[1..] == a[1..] + b;
      PostsByModelIdAppend(a[1..], b, id);
    }
  }

  // ---------------------------------------------------------------------
  // Seed fixtures

  const Models: seq<Model> := [
    Model(1, "Seraphina", 23, "5 miles away", true,
      "https://picsum.photos/seed/seraphina/500/500",
      "https://picsum.photos/seed/seraphina-banner/1200/400",
      "Just a girl exploring the world one city at a time. ✈️ Lover of art, coffee, and deep conversations. DM for exclusives! ✨",
      Stats(1200000, 78000, 23000000, 452), 25600, 75),
    Model(2, "Luna", 21, "2 miles away", true,
      "https://picsum.photos/seed/luna/500/500",
      "https://picsum.photos/seed/luna-banner/1200/400",
      "Fitness enthusiast and gamer girl. 🎮 Let's level up together. Sub for workout tips and late-night gaming streams.",
      Stats(850000, 45000, 15000000, 310), 19800, 60),
    Model(3, "Aurora", 25, "10 miles away", false,
      "https://picsum.photos/seed/aurora/500/500",
      "https://picsum.photos/seed/aurora-banner/1200/400",
      "Artist, dreamer, and night owl. 🌙 My gallery is my sanctuary. Subscribe to see my latest creations and inspirations.",
      Stats(2100000, 150000, 45000000, 820), 42300, 90),
    Model(4, "Chloe", 22, "8 miles away", true,
      "https://picsum.photos/seed/chloe/500/500",
      "https://picsum.photos/seed/chloe-banner/1200/400",
      "Fashionista and foodie. Finding beauty in everyday life. 🍜👠 My DMs are open for style advice and recipe swaps!",
      Stats(950000, 62000, 18000000, 630), 31000, 55),
    Model(5, "Isabella", 26, "15 miles away", false,
      "https://picsum.photos/seed/isabella/500/500",
      "https://picsum.photos/seed/isabella-banner/1200/400",
      "Bookworm and aspiring writer. Lost in fictional worlds. 📚 Let's talk about our favorite characters.",
      Stats(450000, 31000, 9000000, 250), 12500, 50),
    Model(6, "Mia", 20, "3 miles away", true,
      "https://picsum.photos/seed/mia/500/500",
      "https://picsum.photos/seed/mia-banner/1200/400",
      "Dancer and music lover. Life is a rhythm. 🎶 Sub for exclusive dance clips and my curated playlists.",
      Stats(1500000, 95000, 32000000, 550), 38000, 85)
  ]

  const Posts: seq<Post> := [
    Post(1, 1, Image, "https://picsum.photos/seed/post1/800/1000",
      Some("Had an amazing photoshoot today! 📸 What do you think of this look?"),
      "2 hours ago", 1200, 85, false, None, None, Some(true)),
    Post(2, 1, Text, "Just thinking about what content to make next. Any suggestions? Drop them in the comments below! 👇",
      None, "5 hours ago", 540, 150, false, None, None, Some(false)),
    Post(3, 1, Image, "https://picsum.photos/seed/post2/800/1000",
      Some("A little something extra from my latest set. Want to see the rest? 😉"),
      "1 day ago", 2500, 210, true, Some(1000), None, Some(false)),
    Post(4, 1, Image, "https://picsum.photos/seed/post3/800/1000",
      Some("Lazy Sunday mornings are the best."),
      "2 days ago", 1800, 130, false, None, None, Some(true))
  ]

  const Chat1Messages: seq<Message> := [
    Message(1, MODEL, TEXT, "Hey there! So glad you subscribed. How's your day going?", "10:30 AM", false, None, None),
    Message(2, USER, TEXT, "It's going great! Just relaxing. How about you?", "10:32 AM", false, None, None),
    Message(3, MODEL, MEDIA, "https://picsum.photos/seed/chat1/400/600", "10:35 AM", true, Some(500), Some(false)),
    Message(4, MODEL, TEXT, "Sent you something special 😉", "10:35 AM", false, None, None)
  ]

  const Chat2Messages: seq<Message> := [
    Message(1, MODEL, TEXT, "Thanks for the sub! Ready to game?", "Yesterday", false, None, None),
    Message(2, USER, TEXT, "Always! What are we playing?", "Yesterday", false, None, None)
  ]

  const Chat3Messages: seq<Message> := [
    Message(1, MODEL, TEXT, "Welcome! You have great taste 😉", "3 days ago", false, None, None),
    Message(2, USER, TEXT, "Haha, thanks! Love your style.", "3 days ago", false, None, None),
    Message(3, MODEL, TEXT, "Unlock this message to see my favorite outfit of the week.", "11:00 AM", true, Some(250), Some(false))
  ]

  const Chats: seq<Chat> := [
    Chat(1, 1, Chat1Messages, 2),
    Chat(2, 2, Chat2Messages, 0),
    Chat(3, 4, Chat3Messages, 1)
  ]

  const Subscriptions: seq<Subscription> := [
    Subscription(1, "2024-08-15"),
    Subscription(3, "2024-08-22"),
    Subscription(6, "2024-09-01")
  ]

  /** `getModelById`: searches the seed creators, not the live list. */
  function GetModelById(id: int): (r: Option<Model>)
    ensures r.Some? ==> r.value in Models && r.value.id == id
    ensures r.None? <==> !(1 <= id <= 6)
  {
    Find(Models, ModelKey, id)
  }

  /** `getChatById`: the first chat of the given list with that id. */
  function GetChatById(id: int, allChats: seq<Chat>): (r: Option<Chat>)
    ensures r.Some? ==> r.value in allChats && r.value.id == id
    ensures r.None? <==> forall c :: c in allChats ==> c.id != id
    ensures r.Some? ==>
      exists k :: 0 <= k < |allChats| && allChats[k] == r.value &&
        forall j :: 0 <= j < k ==> allChats[j].id != id
  {
    Find(allChats, ChatKey, id)
  }

  /** `getPostsByModelId`: the seed posts of one creator, in seed order. */
  function GetPostsByModelId(id: int): (r: seq<Post>)
    ensures forall p :: p in r <==> p in Posts && p.modelId == id
  {
    PostsByModelId(Posts, id)
  }

  /** `getSubscriptions`: the seed subscriptions, one per distinct creator in
      increasing creator order, each naming a seed creator. */
  function GetSubscriptions(): (r: seq<Subscription>)
    ensures |r| == 3
    ensures forall i, j :: 0 <= i < j < |r| ==> r[i].modelId < r[j].modelId
    ensures forall s :: s in r ==> GetModelById(s.modelId).Some?
    ensures forall s :: s in r ==> s.modelId in {1, 3, 6}
  {
    Subscriptions
  }

  // ---------------------------------------------------------------------
  // Facts about the seed

  /** Every seed chat numbers its messages 1..n. */
  lemma SeedChatsSequential()
    ensures AllSequential(Chats)
  {
    assert SequentialIds(Chat1Messages);
    assert SequentialIds(Chat2Messages);
    assert SequentialIds(Chat3Messages);
  }

  /** Seed ids are distinct, and no seed post sets `isPinned`. */
  lemma SeedIdsAndPins()
    ensures UniqueChatIds(Chats) && UniquePostIds(Posts)
    ensures forall p :: p in Posts ==> p.isPinned == None
    ensures AtMostOnePinned(Posts)
  {
  }

  /** Every seed subscription refers to a seed creator. */
  lemma SeedSubscriptionsResolve()
    ensures forall s :: s in Subscriptions ==> GetModelById(s.modelId).Some?
  {
  }

  /** Seed chat 1 has two unread messages and holds a locked creator PPV media message with id 3. */
  lemma SeedChat1()
    ensures GetChatById(1, Chats) == Some(Chats[0])
    ensures Chats[0].unreadCount == 2
    ensures var m := Chats[0].messages[2];
      m.id == 3 && m.sender == MODEL && m.kind == MEDIA && m.isPPV && m.isUnlocked == Some(false)
  {
  }
}
