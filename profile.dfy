/** A creator's profile page: the post lock rule, the feed (the creator's posts,
    pinned ones first), and the page's own view state (subscription, caption
    editing) together with each post card's menu. */
module ProfilePage {
  import opened Types
  import Data
  import Store
  import App

  // =====================================================================
  // Lock rule

  /** A post card blurs its media exactly when the post is not plain text and
      the viewer is either unsubscribed or looking at a PPV post. */
  predicate IsLocked(post: Post, isSubscribed: bool) {
    post.kind != Text && (!isSubscribed || post.isPPV)
  }

  /** What a card draws for its media: nothing (only image posts have a media
      block), the image in the clear, or the image blurred under a prompt. */
  datatype CardMedia = NoMedia | Clear | SubscribeToSee | UnlockFor(price: Option<int>)

  /** An image card is blurred exactly when the post is locked; the prompt
      names the PPV price for a PPV post and asks for a subscription otherwise. */
  function CardMediaOf(post: Post, isSubscribed: bool): (r: CardMedia)
    ensures r.NoMedia? <==> post.kind != Image
    ensures r.Clear? <==> post.kind == Image && isSubscribed && !post.isPPV
    ensures r.UnlockFor? <==> post.kind == Image && post.isPPV
    ensures r.SubscribeToSee? <==> post.kind == Image && !isSubscribed && !post.isPPV
    ensures r.UnlockFor? ==> r.price == post.price
  {
    if post.kind != Image then NoMedia
    else if !IsLocked(post, isSubscribed) then Clear
    else if post.isPPV then UnlockFor(post.price)
    else SubscribeToSee
  }

  /** A video post counts as locked under the same rule, yet its card draws no
      media and hence no lock. */
  lemma VideoLockIsInvisible(post: Post, isSubscribed: bool)
    requires post.kind == Video
    ensures IsLocked(post, isSubscribed) == (!isSubscribed || post.isPPV)
    ensures CardMediaOf(post, isSubscribed) == NoMedia
  {
  }

  /** The profile is the logged-in user's own exactly when the route id is 1. */
  predicate IsOwnProfile(routeId: int) {
    routeId == App.CurrentUserId
  }

  /** Cards get `isSubscribed || isOwnProfile`: on the user's own profile only
      non-text PPV posts stay locked, so PPV overrides ownership. */
  lemma OwnProfileLocks(post: Post, isSubscribed: bool, routeId: int)
    requires IsOwnProfile(routeId)
    ensures IsLocked(post, isSubscribed || IsOwnProfile(routeId)) <==> post.kind != Text && post.isPPV
  {
  }

  // =====================================================================
  // Feed

  function PinRank(p: Post): int {
    if IsPinned(p) then 1 else 0
  }

  /** The feed's sort comparator: positive when `b` belongs before `a`. */
  function ComparePinned(a: Post, b: Post): int {
    PinRank(b) - PinRank(a)
  }

  function PinnedOf(posts: seq<Post>): (r: seq<Post>)
    ensures forall i :: 0 <= i < |r| ==> IsPinned(r[i])
  {
    if posts == [] then []
    else (if IsPinned(posts[0]) then [posts[0]] else []) + PinnedOf(posts[1..])
  }

  function UnpinnedOf(posts: seq<Post>): (r: seq<Post>)
    ensures forall i :: 0 <= i < |r| ==> !IsPinned(r[i])
  {
    if posts == [] then []
    else (if IsPinned(posts[0]) then [] else [posts[0]]) + UnpinnedOf(posts[1..])
  }

  lemma {:induction false} PartitionMultiset(posts: seq<Post>)
    ensures multiset(PinnedOf(posts)) + multiset(UnpinnedOf(posts)) == multiset(posts)
  {
    if posts != [] {
      PartitionMultiset(posts[1..]);
      assert posts == [posts[0]] + posts[1..];
    }
  }

  /** The two groups hold exactly the pinned and exactly the unpinned posts. */
  lemma PartitionMembers(posts: seq<Post>, p: Post)
    ensures p in PinnedOf(posts) <==> p in posts && IsPinned(p)
    ensures p in UnpinnedOf(posts) <==> p in posts && !IsPinned(p)
  {
    PartitionMultiset(posts);
    assert p in multiset(posts) <==> p in multiset(PinnedOf(posts)) || p in multiset(UnpinnedOf(posts));
  }

  /** What a stable sort under `ComparePinned` produces: the same posts, no
      unpinned post before a pinned one, each group in its original order. */
  function PinnedFirst(posts: seq<Post>): (r: seq<Post>)
    ensures |r| == |posts| && multiset(r) == multiset(posts)
    ensures forall i, j :: 0 <= i < j < |r| ==> ComparePinned(r[i], r[j]) <= 0
  {
    PartitionMultiset(posts);
    assert |multiset(PinnedOf(posts) + UnpinnedOf(posts))| == |multiset(posts)|;
    PinnedOf(posts) + UnpinnedOf(posts)
  }

  lemma {:induction false} PinnedOfAppend(a: seq<Post>, b: seq<Post>)
    ensures PinnedOf(a + b) == PinnedOf(a) + PinnedOf(b)
  {
    if a == [] {
      assert a + b == b;
    } else {
      assert (a + b)[0] == a[0] && (a + b)[1..] == a[1..] + b;
      PinnedOfAppend(a[1..], b);
      if IsPinned(a[0]) {
        assert PinnedOf(a + b) == [a[0]] + PinnedOf(a[1..] + b);
        assert PinnedOf(a) == [a[0]] + PinnedOf(a[1..]);
      } else {
        assert PinnedOf(a + b) == PinnedOf(a[1..] + b);
        assert PinnedOf(a) == PinnedOf(a[1..]);
      }
    }
  }

  lemma {:induction false} UnpinnedOfAppend(a: seq<Post>, b: seq<Post>)
    ensures UnpinnedOf(a + b) == UnpinnedOf(a) + UnpinnedOf(b)
  {
    if a == [] {
      assert a + b == b;
    } else {
      assert (a + b)[0] == a[0] && (a + b)[1..] == a[1..] + b;
      UnpinnedOfAppend(a[1..], b);
      if !IsPinned(a[0]) {
        assert UnpinnedOf(a + b) == [a[0]] + UnpinnedOf(a[1..] + b);
        assert UnpinnedOf(a) == [a[0]] + UnpinnedOf(a[1..]);
      } else {
        assert UnpinnedOf(a + b) == UnpinnedOf(a[1..] + b);
        assert UnpinnedOf(a) == UnpinnedOf(a[1..]);
      }
    }
  }

  lemma {:induction false} PinnedOfIdempotent(posts: seq<Post>)
    ensures PinnedOf(PinnedOf(posts)) == PinnedOf(posts)
    ensures UnpinnedOf(UnpinnedOf(posts)) == UnpinnedOf(posts)
    ensures PinnedOf(UnpinnedOf(posts)) == [] && UnpinnedOf(PinnedOf(posts)) == []
  {
    if posts != [] {
      var head := if IsPinned(posts[0]) then [posts[0]] else [];
      var rest := PinnedOf(posts[1..]);
      PinnedOfIdempotent(posts[1..]);
      PinnedOfAppend(head, rest);
      UnpinnedOfAppend(head, rest);
      var uhead := if IsPinned(posts[0]) then [] else [posts[0]];
      PinnedOfAppend(uhead, UnpinnedOf(posts[1..]));
      UnpinnedOfAppend(uhead, UnpinnedOf(posts[1..]));
    }
  }

  /** The sort is stable: the pinned posts keep their relative order, and so do the unpinned ones. */
  lemma PinnedFirstStable(posts: seq<Post>)
    ensures PinnedOf(PinnedFirst(posts)) == PinnedOf(posts)
    ensures UnpinnedOf(PinnedFirst(posts)) == UnpinnedOf(posts)
  {
    PinnedOfAppend(PinnedOf(posts), UnpinnedOf(posts));
    UnpinnedOfAppend(PinnedOf(posts), UnpinnedOf(posts));
    PinnedOfIdempotent(posts);
  }

  /** The feed of a profile: exactly the posts whose creator is the route id, pinned ones first. */
  function Feed(posts: seq<Post>, routeId: int): (r: seq<Post>)
    ensures forall p :: p in r <==> p in posts && p.modelId == routeId
    ensures forall i, j :: 0 <= i < j < |r| ==> ComparePinned(r[i], r[j]) <= 0
  {
    var mine := Data.PostsByModelId(posts, routeId);
    assert forall p :: p in PinnedFirst(mine) <==> p in multiset(mine);
    PinnedFirst(mine)
  }

  /** Within the feed, pinned posts keep their list order among themselves,
      and so do unpinned ones. */
  lemma FeedStable(posts: seq<Post>, routeId: int)
    ensures PinnedOf(Feed(posts, routeId)) == PinnedOf(Data.PostsByModelId(posts, routeId))
    ensures UnpinnedOf(Feed(posts, routeId)) == UnpinnedOf(Data.PostsByModelId(posts, routeId))
  {
    PinnedFirstStable(Data.PostsByModelId(posts, routeId));
  }

  /** What the page renders: a not-found message when the route id names no creator. */
  datatype Screen = ModelNotFound | Shown(model: Model, feed: seq<Post>, isOwn: bool)

  function ProfileScreen(models: seq<Model>, posts: seq<Post>, routeId: int): (r: Screen)
    ensures r.ModelNotFound? <==> forall m :: m in models ==> m.id != routeId
    ensures r.Shown? ==> r.model in models && r.model.id == routeId && r.feed == Feed(posts, routeId) && (r.isOwn <==> routeId == 1)
    ensures r.Shown? ==>
      exists k :: 0 <= k < |models| && models[k] == r.model &&
        forall j :: 0 <= j < k ==> models[j].id != routeId
  {
    match Data.Find(models, Data.ModelKey, routeId)
    case None => ModelNotFound
    case Some(m) => Shown(m, Feed(posts, routeId), IsOwnProfile(routeId))
  }

  // =====================================================================
  // View state

  /** `post.caption || ''`. */
  function CaptionOrEmpty(caption: Option<string>): string {
    match caption
    case Some(c) => c
    case None => ""
  }

  /** The profile page's own state: the subscribe flag and the caption editor. */
  class ProfileView {
    const routeId: int
    var isSubscribed: bool
    var editingPost: Option<Post>
    var editedCaption: string

    constructor (routeId: int)
      ensures this.routeId == routeId
      ensures !isSubscribed && editingPost == None && editedCaption == ""
    {
      this.routeId := routeId;
      isSubscribed := false;
      editingPost := None;
      editedCaption := "";
    }

    /** Whether a card of this page is locked. */
    function CardLocked(post: Post): bool
      reads this
    {
      IsLocked(post, isSubscribed || IsOwnProfile(routeId))
    }

    /** Subscribing only ever turns the flag on. */
    method Subscribe()
      modifies this
      ensures isSubscribed
      ensures forall p :: CardLocked(p) <==> p.kind != Text && p.isPPV
      ensures editingPost == old(editingPost) && editedCaption == old(editedCaption)
    {
      isSubscribed := true;
    }

    /** Opens the editor on a post, pre-filled with its caption or empty. */
    method StartEdit(post: Post)
      modifies this
      ensures editingPost == Some(post) && editedCaption == CaptionOrEmpty(post.caption)
      ensures isSubscribed == old(isSubscribed)
    {
      editingPost := Some(post);
      editedCaption := CaptionOrEmpty(post.caption);
    }

    /** Typing in the editor. */
    method ChangeCaption(text: string)
      modifies this
      ensures editedCaption == text
      ensures editingPost == old(editingPost) && isSubscribed == old(isSubscribed)
    {
      editedCaption := text;
    }

    /** Closes the editor without saving. */
    method CancelEdit()
      modifies this
      ensures editingPost == None && editedCaption == ""
      ensures isSubscribed == old(isSubscribed)
    {
      editingPost := None;
      editedCaption := "";
    }

    /** Saves only while a post is being edited: the caption goes to the app and the editor closes. */
    method SaveEdit(app: App.AppState)
      requires app.Valid()
      modifies this, app
      ensures app.Valid()
      ensures isSubscribed == old(isSubscribed)
      ensures app.chats == old(app.chats) && app.models == old(app.models)
      ensures old(editingPost).Some? ==>
        app.posts == Store.EditPost(old(app.posts), old(editingPost).value.id, old(editedCaption))
        && editingPost == None && editedCaption == ""
      ensures old(editingPost).None? ==>
        app.posts == old(app.posts) && editingPost == None && editedCaption == old(editedCaption)
    {
      if editingPost.Some? {
        app.EditPost(editingPost.value.id, editedCaption);
        CancelEdit();
      }
    }
  }

  /** One card of the feed, with its own menu flag. */
  class PostCard {
    const post: Post
    const isSubscribed: bool
    const isOwnProfile: bool
    var isMenuOpen: bool

    constructor (post: Post, isSubscribed: bool, isOwnProfile: bool)
      ensures this.post == post && this.isSubscribed == isSubscribed && this.isOwnProfile == isOwnProfile
      ensures !isMenuOpen
    {
      this.post := post;
      this.isSubscribed := isSubscribed;
      this.isOwnProfile := isOwnProfile;
      isMenuOpen := false;
    }

    /** The menu (pin, edit, delete) is shown only on the user's own profile, once opened. */
    function MenuShown(): bool
      reads this
    {
      isOwnProfile && isMenuOpen
    }

    method ToggleMenu()
      modifies this
      ensures isMenuOpen == !old(isMenuOpen)
      ensures MenuShown() <==> isOwnProfile && !old(isMenuOpen)
    {
      isMenuOpen := !isMenuOpen;
    }

    /** Deletes only when the confirmation dialog answered yes; the menu closes either way. */
    method HandleDelete(confirmed: bool, app: App.AppState)
      requires app.Valid()
      modifies this, app
      ensures app.Valid() && !isMenuOpen && !MenuShown()
      ensures app.posts == if confirmed then Store.DeletePost(old(app.posts), post.id) else old(app.posts)
      ensures app.chats == old(app.chats) && app.models == old(app.models)
    {
      if confirmed {
        app.DeletePost(post.id);
      }
      isMenuOpen := false;
    }

    method HandlePin(app: App.AppState)
      requires app.Valid()
      modifies this, app
      ensures app.Valid() && !isMenuOpen && !MenuShown()
      ensures app.posts == Store.PinPost(old(app.posts), post.id)
      ensures app.chats == old(app.chats) && app.models == old(app.models)
    {
      app.PinPost(post.id);
      isMenuOpen := false;
    }

    method HandleEdit(view: ProfileView)
      modifies this, view
      ensures !isMenuOpen && !MenuShown()
      ensures view.editingPost == Some(post) && view.editedCaption == CaptionOrEmpty(post.caption)
      ensures view.isSubscribed == old(view.isSubscribed)
    {
      view.StartEdit(post);
      isMenuOpen := false;
    }

    method HandleLike(app: App.AppState)
      requires app.Valid()
      modifies app
      ensures app.Valid()
      ensures app.posts == Store.LikePost(old(app.posts), post.id)
      ensures app.chats == old(app.chats) && app.models == old(app.models)
    {
      app.LikePost(post.id);
    }
  }
}
