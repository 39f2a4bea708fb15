# Creator-subscription app: state handlers, lock rules and views

This project is a Dafny model of the client-side logic of a content-subscription
social app. Creators ("models") publish posts, which may be subscriber-only or
pay-per-view (PPV). Subscribers chat with creators, and a creator can send PPV
media in a chat that the user unlocks.

All state lives in memory in three collections: chats, posts and creators. The
app root holds them. Every handler replaces one collection with a new version
computed by a `map` or `filter`. The pages read these collections and keep a
little view state of their own.

Modules:

- `Types` (types.dfy): the record shapes. Each optional field is an `Option`, so
  an absent field stays distinct from `false`. The module also holds the
  invariants the rest of the model talks about:
  - distinct chat ids and distinct post ids;
  - messages numbered 1..n in every chat;
  - at most one pinned post.
- `Data` (data.dfy): the seed fixtures, the first-match lookups and the
  by-creator filter.
- `Store` (store.dfy): the handlers of the app root, as pure functions from the
  old collection to the new one, with their lemmas:
  - read/unlock/send keep message numbering and chat ids;
  - reading lowers the unread total by exactly that chat's count;
  - unlock is idempotent;
  - pinning leaves exactly one pinned post;
  - like twice restores;
  - delete and profile update are idempotent.
- `App` (app.dfy): the root as a class whose fields are the three collections.
  Each handler is a method that assigns the Store function and keeps the
  invariants.
- `ProfilePage` (profile.dfy): the post lock rule and what a card draws, the
  feed (filter plus stable pinned-first sort), the not-found guard, and the
  page's own state as classes:
  - the subscribe flag and the caption editor;
  - each card's menu, with delete behind a confirmation.
- `ChatPage` (chat.dfy):
  - the bubble lock rule and click-to-unlock;
  - the send-text guard (JavaScript `trim`);
  - the pending-media dialog, whose confirm loop sends one message per item;
  - read-on-open.
- `GalleryPage` (gallery.dfy): the media filter of a chat and its not-found guard.
- `InboxPage` (inbox.dfy): the preview, time and badge of a row, skipped rows,
  and the conversation count.
- `Scenarios` (scenarios.dfy): concrete runs over the seed data.

Modelling choices:

- Prices are integer cents.
- A timestamp is an opaque `now` string passed in by the caller.
- A `window.confirm` answer is a boolean parameter.
- The price field is modelled as its text together with the result of
  `parseFloat` on it (`None` for NaN).
- A page's callbacks into the root are calls on the `App.AppState` object.

## Model

| member | source | states |
|---|---|---|
| Data.FindIndex | data.ts:211-212 | the index of the first element with the id; none exactly when no element has it |
| Data.Find | data.ts:211-212 | `find` returns the first element of the list with the id, or nothing exactly when none has it |
| Data.FindUnique | data.ts:212 | with distinct ids, the element found for an element's id is that element |
| Data.PostsByModelId | data.ts:213 | keeps exactly the posts of the creator, never more posts than given |
| Data.PostsByModelIdAppend | data.ts:213 | the filter distributes over concatenation, so the kept posts stay in list order |
| Data.GetModelById | data.ts:211 | finds a seed creator with the id, and nothing exactly for ids outside 1..6 |
| Data.GetChatById | data.ts:212 | the first chat of the given list with the id, or nothing exactly when none has it |
| Data.GetPostsByModelId | data.ts:213 | exactly the seed posts of that creator |
| Data.GetSubscriptions | data.ts:205-214 | three subscriptions to distinct creators 1, 3 and 6, in increasing order, each naming a seed creator |
| Data.SeedChatsSequential | data.ts:172-203 | every seed chat numbers its messages 1..n, so length + 1 is a fresh id |
| Data.SeedIdsAndPins | data.ts:121-203 | seed chat and post ids are distinct, no seed post sets `isPinned`, so at most one is pinned |
| Data.SeedSubscriptionsResolve | data.ts:205-209 | every seed subscription names an existing seed creator |
| Data.SeedChat1 | data.ts:173-183 | seed chat 1 has 2 unread messages and a locked creator PPV media message with id 3 |
| Store.TotalUnread | App.tsx:26 | the header total is non-negative for non-negative counts, and 0 exactly when no chat has unread messages |
| Store.ReadChat | App.tsx:34-40 | only the unread count of the chats with that id changes, to 0 |
| Store.ReadChatUnread | App.tsx:26-40 | reading lowers the total by the summed counts of the chats with that id |
| Store.UnreadOfAbsent | App.tsx:26-40 | an id that no chat has accounts for nothing in the total |
| Store.UnreadOfUnique | App.tsx:26-40 | with distinct ids, a chat's id accounts for exactly its own count |
| Store.ReadChatLowersTotal | App.tsx:26-40 | with distinct ids, reading lowers the total by exactly the found chat's count, and by 0 for an unknown id |
| Store.UnlockIn | App.tsx:48-50 | only messages with that id change, and only their unlock flag, which becomes true |
| Store.UnlockMessage | App.tsx:42-56 | only the chats with that id change, only in their messages, as `UnlockIn` says |
| Store.UnlockIdempotent | App.tsx:42-56 | unlocking the same message twice changes nothing more than once |
| Store.SendMessage | App.tsx:58-78 | the chats with that id get exactly one more message at the end, a user text numbered length + 1 with the content and time, not PPV, with no price and no unlock flag; others unchanged |
| Store.SendMedia | App.tsx:80-102 | appends one user media message numbered length + 1, unlocked whatever its PPV flag, keeping the price only for PPV |
| Store.NextIdFresh | App.tsx:63 | while messages are numbered 1..n, length + 1 is not used |
| Store.ChatHandlersKeepIds | App.tsx:34-102 | read, unlock and both sends keep every chat numbered 1..n and chat ids distinct |
| Store.DeletePost | App.tsx:104-106 | keeps exactly the posts with another id, and removes nothing when the id is absent |
| Store.DeletePostAppend | App.tsx:105 | the filter distributes over concatenation, so the kept posts keep their order |
| Store.DeletePostIdempotent | App.tsx:104-106 | deleting twice is deleting once |
| Store.DeletePostKeepsInvariants | App.tsx:104-106 | deleting keeps post ids distinct and at most one post pinned |
| Store.HeadApart | App.tsx:104-106 | the invariants of a list hold for its tail and separate its head from the tail |
| Store.ConsKeepsInvariants | App.tsx:104-106 | a post apart from a list can be put in front of it keeping the invariants |
| Store.PinPost | App.tsx:108-123 | the target gets the negated current pin state; if it was not pinned (or is absent) every other post of any creator is unpinned, otherwise the others are unchanged; only `isPinned` changes |
| Store.PinnedCountZero | App.tsx:108-123 | a list without pinned posts counts 0 |
| Store.PinnedCountOne | App.tsx:108-123 | a list pinned at exactly one index counts 1 |
| Store.PinLeavesExactlyOne | App.tsx:108-123 | pinning an existing unpinned post leaves exactly that post pinned in the whole list |
| Store.PinKeepsAtMostOne | App.tsx:108-123 | pinning keeps at most one post pinned |
| Store.PinTwiceRestores | App.tsx:108-123 | two pin toggles give the target its original pin state |
| Store.EditPost | App.tsx:125-131 | only the caption of the posts with that id changes, to the new caption |
| Store.LikePost | App.tsx:133-144 | toggles the like flag (absent counts as false) and moves likes up by 1 on like, down by 1 on unlike, without floor; other posts unchanged |
| Store.LikeTwiceRestores | App.tsx:133-144 | two likes restore the like count and the flag's truthiness |
| Store.EditAndLikeKeepInvariants | App.tsx:125-144 | editing and liking keep post ids distinct and at most one pinned |
| Store.Merge | App.tsx:149 | every field the patch supplies overrides the creator's, every other field is kept; the empty patch changes nothing |
| Store.MergeIdempotent | App.tsx:149 | merging a patch twice is merging it once |
| Store.UpdateProfile | App.tsx:146-152 | the creators with that id get the patch merged in; the others are unchanged |
| Store.UpdateProfileIdempotent | App.tsx:146-152 | sending the same profile update twice is sending it once |
| App.AppState.constructor | App.tsx:22-24 | the state starts as the seed collections and satisfies the invariants |
| App.AppState.CurrentUser | App.tsx:31-32 | the logged-in user is a creator with id 1 from the live list, absent exactly when none has id 1 |
| App.AppState.ReadChat | App.tsx:34-40 | assigns the read chat list, keeps the invariants, and lowers the unread total by the chat's count |
| App.AppState.UnlockMessage | App.tsx:42-56 | assigns the unlocked chat list and keeps the invariants; posts and creators unchanged |
| App.AppState.SendMessage | App.tsx:58-78 | assigns the chat list with the text appended and keeps the invariants |
| App.AppState.SendMedia | App.tsx:80-102 | assigns the chat list with the media appended and keeps the invariants |
| App.AppState.DeletePost | App.tsx:104-106 | assigns the filtered posts and keeps the invariants |
| App.AppState.PinPost | App.tsx:108-123 | assigns the re-pinned posts and keeps at most one pinned |
| App.AppState.EditPost | App.tsx:125-131 | assigns the re-captioned posts and keeps the invariants |
| App.AppState.LikePost | App.tsx:133-144 | assigns the liked posts and keeps the invariants |
| App.AppState.UpdateProfile | App.tsx:146-152 | assigns the updated creators; chats and posts unchanged |
| ProfilePage.CardMediaOf | pages/Profile.tsx:19 | only image posts draw media; an image is clear exactly when subscribed and not PPV, shows the price exactly when PPV, and asks for a subscription otherwise |
| ProfilePage.VideoLockIsInvisible | pages/Profile.tsx:19 | a video post is locked by the rule, yet its card draws no media and so no lock |
| ProfilePage.OwnProfileLocks | pages/Profile.tsx:242 | on the user's own profile a card is locked exactly when it is a non-text PPV post |
| ProfilePage.PinnedOf | pages/Profile.tsx:137 | every post of the pinned group is pinned |
| ProfilePage.UnpinnedOf | pages/Profile.tsx:137 | every post of the unpinned group is unpinned |
| ProfilePage.PartitionMembers | pages/Profile.tsx:137 | the pinned group holds exactly the pinned posts, the unpinned group exactly the unpinned ones |
| ProfilePage.PartitionMultiset | pages/Profile.tsx:137 | the pinned and unpinned posts together are the original posts, as a multiset |
| ProfilePage.PinnedFirst | pages/Profile.tsx:137 | the sort result is a permutation of its input, ordered under the source comparator |
| ProfilePage.PinnedOfAppend | pages/Profile.tsx:137 | taking the pinned posts distributes over concatenation |
| ProfilePage.UnpinnedOfAppend | pages/Profile.tsx:137 | taking the unpinned posts distributes over concatenation |
| ProfilePage.PinnedOfIdempotent | pages/Profile.tsx:137 | each partition is idempotent and the two are disjoint |
| ProfilePage.PinnedFirstStable | pages/Profile.tsx:137 | the sort is stable: each group keeps its original relative order |
| ProfilePage.Feed | pages/Profile.tsx:135-137 | the feed holds exactly the posts of the route's creator, no unpinned post before a pinned one |
| ProfilePage.FeedStable | pages/Profile.tsx:135-137 | within the feed, pinned and unpinned posts each keep their list order |
| ProfilePage.ProfileScreen | pages/Profile.tsx:125-141 | not found exactly when no creator has the route id; otherwise the first creator of the list with that id, its feed, and "own" exactly for id 1 |
| ProfilePage.ProfileView.constructor | pages/Profile.tsx:127-129 | unsubscribed, nothing being edited, empty caption |
| ProfilePage.ProfileView.Subscribe | pages/Profile.tsx:143-145 | the subscribe flag becomes true, after which a card is locked exactly for non-text PPV posts, and the editor is untouched |
| ProfilePage.ProfileView.StartEdit | pages/Profile.tsx:147-150 | the editor opens on the post, pre-filled with its caption or empty |
| ProfilePage.ProfileView.ChangeCaption | pages/Profile.tsx:262 | typing replaces the edited caption only |
| ProfilePage.ProfileView.CancelEdit | pages/Profile.tsx:152-155 | the editor closes with an empty caption, nothing is saved |
| ProfilePage.ProfileView.SaveEdit | pages/Profile.tsx:157-162 | while editing, the caption is saved to that post and the editor closes; otherwise nothing changes |
| ProfilePage.PostCard.constructor | pages/Profile.tsx:17-18 | a card starts with its menu closed |
| ProfilePage.PostCard.ToggleMenu | pages/Profile.tsx:50 | the menu flag flips; the menu is then shown exactly on the own profile when it was closed |
| ProfilePage.PostCard.HandleDelete | pages/Profile.tsx:21-27 | deletes only on a confirmed answer; the menu closes and is not shown either way |
| ProfilePage.PostCard.HandlePin | pages/Profile.tsx:29-32 | pins through the root and closes the menu, which is then not shown |
| ProfilePage.PostCard.HandleEdit | pages/Profile.tsx:34-37 | opens the page's editor on the card's post and closes the menu, which is then not shown |
| ProfilePage.PostCard.HandleLike | pages/Profile.tsx:99 | likes through the root |
| ChatPage.ChatLookup | pages/Chat.tsx:19-20 | the chat with the id and its creator; nothing exactly when the chat or its creator is missing |
| ChatPage.BubbleOf | pages/Chat.tsx:107-156 | a bubble is locked exactly for creator PPV media whose unlock flag is not true, shown media for other media, text exactly for text |
| ChatPage.UserNeverLocked | pages/Chat.tsx:112 | the user's own messages are never drawn locked |
| ChatPage.PpvTextShownAsText | pages/Chat.tsx:149-155 | a PPV text message is drawn as plain text |
| ChatPage.UnlockOnlyUnlocks | pages/Chat.tsx:112 | after an unlock, a locked bubble was locked before and is not the target: unlocking is one-way |
| ChatPage.UnlockMessageBubbles | pages/Chat.tsx:112-117 | unlocking in the chat list changes the lock state of exactly the targeted messages |
| ChatPage.TrimStart | pages/Chat.tsx:48 | what is left after removing leading white space is empty or starts with a non-white-space character |
| ChatPage.TrimEnd | pages/Chat.tsx:48 | what is left after removing trailing white space is empty or ends with a non-white-space character |
| ChatPage.TrimStartDropsBlankPrefix | pages/Chat.tsx:48 | the leading trim removes an all-white-space prefix and keeps the rest unchanged |
| ChatPage.TrimEndDropsBlankSuffix | pages/Chat.tsx:48 | the trailing trim removes an all-white-space suffix and keeps the rest unchanged |
| ChatPage.BlankTrimsEmpty | pages/Chat.tsx:48 | an all-white-space string trims to empty |
| ChatPage.TrimsEmptyBlank | pages/Chat.tsx:48 | a string that trims to empty is all white space |
| ChatPage.TrimEmptyIffBlank | pages/Chat.tsx:48 | a string trims to empty exactly when all its characters are white space |
| ChatPage.PriceOf | pages/Chat.tsx:81-82 | a price is sent exactly when the media is PPV, and it is then the parsed positive amount |
| ChatPage.WithoutIndex | pages/Chat.tsx:92 | removes exactly the item at the index, keeping the order of the rest; an index outside the list removes nothing |
| ChatPage.AfterBatchStep | pages/Chat.tsx:84-86 | one more item in the batch is one more media send |
| ChatPage.SendMediaBatchEffect | pages/Chat.tsx:84-86 | the batch appends to the chat one media message per item, in list order and numbered on; other chats are untouched |
| ChatPage.BatchMessagesUnlocked | pages/Chat.tsx:84-86 | every message a batch appends is the user's own unlocked media, never drawn locked |
| ChatPage.ChatView.constructor | pages/Chat.tsx:22-25 | empty input, nothing pending, empty price, no purchase dialog |
| ChatPage.ChatView.Open | pages/Chat.tsx:30-35 | a non-zero chat id marks that chat read; id 0 changes nothing |
| ChatPage.ChatView.SetInput | pages/Chat.tsx:191 | typing replaces the input only |
| ChatPage.ChatView.SendText | pages/Chat.tsx:47-51 | an all-white-space input sends nothing; otherwise the untrimmed input is sent once and the field is cleared |
| ChatPage.ChatView.AddMedia | pages/Chat.tsx:66-68 | newly read files are appended to the pending list |
| ChatPage.ChatView.SetPrice | pages/Chat.tsx:244 | typing a price replaces the price field only |
| ChatPage.ChatView.CancelSend | pages/Chat.tsx:72-78 | nothing pending and the price cleared |
| ChatPage.ChatView.ConfirmSend | pages/Chat.tsx:80-89 | the chats become the batch of one send per pending item, in order, with one PPV flag and price; then nothing pending and the price cleared |
| ChatPage.ChatView.RemoveMedia | pages/Chat.tsx:91-98 | the item at the index is removed; when none remain the price is cleared as well |
| ChatPage.ChatView.ClickBubble | pages/Chat.tsx:112-121 | clicking a locked bubble unlocks it at once with no confirmation; other bubbles do nothing |
| ChatPage.ChatView.ConfirmUnlock | pages/Chat.tsx:100-105 | unlocks the dialog's message and closes the dialog; with no dialog it changes nothing |
| ChatPage.ChatView.DismissUnlock | pages/Chat.tsx:276 | closes the purchase dialog |
| GalleryPage.GalleryMedia | pages/Gallery.tsx:23-25 | holds exactly the media messages whose unlock flag is not explicitly false, at most as many as the chat has |
| GalleryPage.GalleryMediaAppend | pages/Gallery.tsx:23-25 | the filter distributes over concatenation, so the gallery keeps the chat's order |
| GalleryPage.SentMediaInGallery | pages/Gallery.tsx:24 | media the user sends always shows up at the end of the gallery |
| GalleryPage.AbsentFlagDisagreement | pages/Gallery.tsx:24 | creator PPV media with an absent unlock flag is locked in the chat yet shown in the gallery |
| GalleryPage.GalleryAgreesWithChat | pages/Gallery.tsx:24 | an absent flag is the only case where a gallery item is drawn locked in the chat |
| GalleryPage.Gallery | pages/Gallery.tsx:16-25 | not found exactly when the chat or its creator is missing; otherwise the creator and the chat's gallery media |
| InboxPage.Preview | pages/Inbox.tsx:24-50 | no preview exactly for a chat without messages; otherwise "Sent a photo" when the last content starts with "http", else that content |
| InboxPage.LastTimestamp | pages/Inbox.tsx:46 | the last message's time, nothing exactly for an empty chat |
| InboxPage.PreviewIgnoresType | pages/Inbox.tsx:50 | the preview depends on the content only, not on the message type |
| InboxPage.DataUrlMediaPreview | pages/Inbox.tsx:50 | media sent as a data URL previews as its raw content |
| InboxPage.Badge | pages/Inbox.tsx:52-56 | the badge shows the unread count exactly when it is positive |
| InboxPage.Rows | pages/Inbox.tsx:22-62 | every row is some chat with its resolved creator; every chat whose creator exists gets its row, with the first creator carrying its id; never more rows than chats |
| InboxPage.RowsAppend | pages/Inbox.tsx:22-26 | the rows of two chat lists are the rows of the first followed by those of the second, so rows follow chat order |
| InboxPage.RowsOfOne | pages/Inbox.tsx:22-26 | one chat gives exactly one row, built with the first creator carrying its `modelId`, when such a creator exists, and none otherwise |
| InboxPage.ConversationCount | pages/Inbox.tsx:17 | the count shown is the number of chats, skipped rows included, so never smaller than the number of rows |
| InboxPage.RowsCountWhenAllResolve | pages/Inbox.tsx:17-26 | when every chat's creator exists, there are exactly as many rows as conversations |
| Scenarios.SeedTotalUnread | App.tsx:26 | the seed header shows 3 unread messages |
| Scenarios.UnlockRevealsSeedMedia | data.ts:180 | chat 1 message 3 starts locked and missing from the gallery, and is shown in both after unlocking it |
| Scenarios.SendPpvMediaToSeedChat | App.tsx:80-102 | PPV media sent to seed chat 1 becomes message 5, unlocked, with its price |
| Scenarios.SeedPpvTextIsPlain | data.ts:200 | seed chat 3's PPV text message is drawn as plain text |
| Scenarios.DeleteLeavesFeed | App.tsx:104-106 | after deleting post 3, creator 1's feed lacks it and keeps the others |
| Scenarios.SeedInboxRows | pages/Inbox.tsx:22-26 | the seed inbox has a row for each of its three chats |
| Scenarios.SeedInboxPreview | pages/Inbox.tsx:50-52 | seed chat 1 previews its last text and shows a badge of 2; chat 2 shows no badge |
| Scenarios.MissingChatGallery | pages/Gallery.tsx:16-21 | the gallery of an unknown chat id is not found |

## Left out

- JSX rendering, CSS classes, the `toFixed` display of prices, and scrolling to the newest message are presentation only.
- Routing is not modelled: route ids are given integers. A non-numeric id parses to NaN, which finds no chat or creator, just like an unknown id.
- Reading files with `FileReader` is asynchronous browser I/O. The model only keeps the appending of the resulting previews (`ChatView.AddMedia`). The image/video choice of the dialog's preview is left out.
- Timestamps come from the wall clock and the locale. They are the caller's `now` parameter. `ChatView.ConfirmSend` uses one `now` for the whole batch, while the source reads the clock once per send.
- `parseFloat` and floating-point prices: the price field is its text plus the parsed amount in integer cents, and `toFixed` formatting is not modelled.
- `window.confirm` on delete is the boolean `confirmed`.
- `Store.Merge`: a patch that carries a key with an explicit `undefined` value overwrites that field with `undefined` in the source. A patch here can only supply a value or leave the field out.
- `Store.TotalUnread`: JavaScript numbers are floating point; the sum here is over unbounded integers.
- `ChatPage.ChatView.ConfirmUnlock`: the purchase dialog opens for no message, because nothing ever sets `unlockingMessage` to a message. The method is modelled as written and the dialog stays closed in every reachable state.
- PWA install prompts, the upload page, the settings pages, and the plain views (home, header, notifications, subscriptions list, payment, auth) have no state effect on the collections modelled here. The profile settings page only forwards a patch to `UpdateProfile`, which is modelled.
- Behaviour a reader might expect to be different, modelled as the code does it:
  - likes have no floor;
  - pinning a post unpins every other pinned post of every creator, not only that creator's;
  - an unlock flag that is absent hides PPV media in the chat but shows it in the gallery.
