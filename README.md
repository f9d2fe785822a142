# Forum and shop client: a verified model of its interactive core

The system is the browser client of a community forum that also works as a
small shop: users post in topics, vote, comment in threads, follow each
other, get notifications, chat with a shopping assistant and, once approved
as merchants, list their own products. This project models the nineteen
client components and pages that hold the client's own logic:

- the voting buttons;
- the comment tree, the comment section and the reply form;
- the notification bell;
- the topic join button and the follow button;
- the image URL helpers;
- the follower list dialog;
- the post media grid;
- the new-product, registration, settings, merchant application, inbox and
  merchant dashboard pages;
- the shopping-assistant chat;
- the trending-topics carousel;
- the sort tabs.

Every source file is one Dafny module; `common.dfy` and `types.dfy` hold what
they share.

**How the model is shaped**

- A component's `useState` variables are the fields of a class.
- An asynchronous handler becomes two methods:
  - `BeginX` runs up to the first `await` and returns the request it would
    send.
  - `CompleteX(outcome)` runs from the resumed `await` to the end, given the
    server's outcome (`Success(payload)` or `Failure(error)`).
- Navigation, `alert`, `confirm` prompts and `console.error` are returned as
  a sequence of `Effect` values, in the order the code issues them.
- JavaScript truthiness is modelled where the code relies on it. An empty
  string and the number 0 are falsy; an empty array is truthy.
- `${x}` of an absent value prints `undefined`, and so does indexing an empty
  list.

**Where a handler reads a value captured before its `await`**

Such a value is a closure snapshot. `BeginX` returns a pending record that
holds the snapshot, and `CompleteX` uses it, as the code does. There are
four such places:

- `[...comments, created]` in the comment section;
- `!isJoined` in the topic join button;
- `!isFollowed` in the follow button;
- the username and password that the registration page logs in with after
  the account is created (`RegisterPage.PendingRegister`).

The merchant dashboard's second request is of the same kind: it reads the
user and the token that its effect captured. The model passes them as the
`auth` parameter of `MerchantDashboard.MerchantDashboard.CompleteMerchant`,
so a caller supplies the values that were current when the effect ran.

Updates written as `prev => ...` use the state current at completion
instead.

**Where the system's documented design and its code differ, the model
follows the code**

- There are no request sequence numbers and no cancellation of superseded
  requests. A late reply overwrites whatever a newer one wrote.
- Comments reach the client already nested. There is no tree builder from a
  flat list.
- There is no push channel for notifications. The unread count is fetched
  once per token.
- A comment appended after posting is not de-duplicated against the list.
- A failed vote rolls back to the values the buttons were mounted with, not
  to the state before the click (`VoteButtons.RollbackForgetsConfirmedVote`).

**Scenario methods**

Most modules also hold a short scenario method, such as
`VoteButtons.UpvoteThenCancel`. It drives the class through a few calls
and asserts what a user would see. Scenario methods carry no `ensures` and
therefore have no row below.

## Model

A function without a contract of its own has no row. These are the
reference definitions the lemmas are stated over, such as `AIChatWindow.Trim`,
`SortTabs.Set`, `CommentTree.Render`, `MessagesPage.FindOther`,
`MerchantDashboard.TotalViews` and `NewProductPage.FormOf`. What each one
computes is stated by the rows of the lemmas about it.

| member | source | states |
|---|---|---|
| VoteButtons.Value | components/VoteButtons.tsx:26 | an up vote is worth 1 and a down vote -1 |
| VoteButtons.VoteValue | components/VoteButtons.tsx:13 | the vote held (1, -1 or none) as the number it adds to the score; none adds 0 |
| VoteButtons.NextVote | components/VoteButtons.tsx:42-55 | pressing the current direction clears the vote; any other press sets the vote to that direction |
| VoteButtons.Pressed | components/VoteButtons.tsx:37-55 | the optimistic score moves by exactly the difference between the new and the old vote's values |
| VoteButtons.PressSameCancels | components/VoteButtons.tsx:42-45 | un-voting subtracts the direction and clears the vote |
| VoteButtons.PressOppositeSwitches | components/VoteButtons.tsx:46-50 | switching subtracts the old vote and adds the new one |
| VoteButtons.PressFromNoVote | components/VoteButtons.tsx:51-55 | a first vote adds the direction |
| VoteButtons.PressTwice | components/VoteButtons.tsx:42-55 | two presses of one direction restore score and vote, except from the opposite vote, where they end with no vote and the old vote's value removed |
| VoteButtons.Style | components/VoteButtons.tsx:90-98 | a button is bold and coloured (green up, red down) exactly when it is the user's vote; the cursor waits exactly while a vote is in flight |
| VoteButtons.AtMostOneHighlighted | components/VoteButtons.tsx:96-97 | the two buttons are never highlighted together |
| VoteButtons.VoteButtons.constructor | components/VoteButtons.tsx:16-23 | the score and vote start from the props, with no vote in flight |
| VoteButtons.VoteButtons.BeginVote | components/VoteButtons.tsx:26-69 | signed out: alert and go to login, state unchanged; a vote in flight: nothing; otherwise the optimistic score and vote of `Pressed`, loading set, and the request for `/posts/{id}/vote/` carrying the pressed direction |
| VoteButtons.VoteButtons.CompleteVote | components/VoteButtons.tsx:71-83 | success takes the server's score and keeps the vote; failure restores the mount-time props, logs and alerts; loading ends either way |
| CommentTree.LineIdsAppend | components/Comment.tsx:47-49 | the rendered ids of two runs of comment boxes add up |
| CommentTree.RenderSize | components/Comment.tsx:29-52 | a comment renders one box per comment in its tree |
| CommentTree.RenderAllSize | components/Comment.tsx:47-49 | a list of replies renders one box per comment in all its trees |
| CommentTree.RenderIds | components/Comment.tsx:29-52 | every comment of a tree is rendered exactly once (as multisets of ids) |
| CommentTree.RenderAllIds | components/Comment.tsx:47-49 | every comment of a list of trees is rendered exactly once |
| CommentTree.RenderDepths | components/Comment.tsx:29-52 | a comment's own box comes first at its depth, and all its descendants are nested deeper |
| CommentTree.RenderAllDepths | components/Comment.tsx:45-50 | no reply is rendered shallower than the replies block it sits in |
| CommentTree.RepliesBlockIffReplies | components/Comment.tsx:44-51 | the indented replies block is present exactly when the replies array is non-empty, and it opens with the first reply one level deeper |
| CommentTree.SizeAllPrefixCons | components/Comment.tsx:47 | the comment count of the first k replies is the first reply's size plus that of the next k-1 |
| CommentTree.SizeAllSplit | components/Comment.tsx:47 | the comment count of the first k+1 replies is that of the first k plus the size of reply k |
| CommentTree.RenderAllAt | components/Comment.tsx:47-49 | reply k is rendered as a contiguous run, by the same rendering, after the runs of the replies before it |
| CommentTree.ReplyRenderedInPlace | components/Comment.tsx:44-51 | inside a comment, reply k's subtree follows the comment's box and replies 0..k-1, one level deeper (pre-order) |
| CommentSection.View | components/CommentSection.tsx:91-100 | the placeholder shows exactly when there are no comments; otherwise all threads are rendered, each comment on exactly one box |
| CommentSection.CommentSection.constructor | components/CommentSection.tsx:15-17 | the list and the draft start empty |
| CommentSection.CommentSection.EditDraft | components/CommentSection.tsx:77 | the draft becomes the typed text, the list is unchanged |
| CommentSection.CommentSection.CompleteFetch | components/CommentSection.tsx:23-36 | the fetched list replaces the comments; a failure only logs |
| CommentSection.CommentSection.BeginSubmit | components/CommentSection.tsx:39-56 | without a session or without a token: an alert, nothing sent; otherwise the draft is sent as a top-level comment and the rendered list is captured; the browser calls it only with the required inputs filled |
| CommentSection.CommentSection.CompleteSubmit | components/CommentSection.tsx:58-65 | success appends the server's comment to the captured list and clears the draft; failure logs and alerts and changes nothing |
| CommentSection.AppendKeepsOrder | components/CommentSection.tsx:59 | the append keeps every earlier comment in place and adds one more, even when the same comment is already listed (no de-duplication) |
| CommentForm.CommentForm.constructor | components/CommentForm.tsx:16-17 | the form starts empty, bound to its post and parent |
| CommentForm.CommentForm.EditDraft | components/CommentForm.tsx:61 | the draft becomes the typed text |
| CommentForm.CommentForm.BeginSubmit | components/CommentForm.tsx:21-36 | without a session or a token nothing is sent and nothing is shown; otherwise the draft is sent under exactly this form's parent; the browser calls it only with the required inputs filled |
| CommentForm.CommentForm.CompleteSubmit | components/CommentForm.tsx:38-45 | the parent's callback runs exactly on success, together with clearing the draft; failure logs and alerts and keeps the draft |
| CommentForm.ShowsForm | components/CommentForm.tsx:47-55 | a signed-in user gets the form; a signed-out visitor gets the login hint instead |
| NotificationBell.Destination | components/NotificationBell.tsx:70-80 | a follow goes to the actor's profile and a message to the inbox; anything else goes to its post only when the post id is non-zero |
| NotificationBell.RoutePath | components/NotificationBell.tsx:72-79 | the path pushed: `/users/` and the actor's name, `/messages`, or `/posts/` and the post id in decimal, as `${n}` writes it |
| NotificationBell.PostPathNamesPost | components/NotificationBell.tsx:72-79 | the post path is `/posts/` followed by digits only, and those digits read back as the post id |
| NotificationBell.Renders | components/NotificationBell.tsx:106 | the bell renders exactly for a signed-in user, and nothing for a signed-out one |
| NotificationBell.Badge | components/NotificationBell.tsx:120-124 | no badge at 0 or below, the single digit for 1 to 9, "9+" above 9 |
| NotificationBell.Decremented | components/NotificationBell.tsx:66 | one read lowers the count by one and never below 0 |
| NotificationBell.AllRead | components/NotificationBell.tsx:91 | every notification is marked read and otherwise unchanged, with the order and number kept |
| NotificationBell.AllReadIdempotent | components/NotificationBell.tsx:91 | marking all read twice is the same as once |
| NotificationBell.NotificationBell.constructor | components/NotificationBell.tsx:13-16 | nothing unread, no list, closed, not loading |
| NotificationBell.NotificationBell.BeginUnreadCount | components/NotificationBell.tsx:23-29 | a GET of the unread count, with the JWT header, goes out exactly when there is a token |
| NotificationBell.NotificationBell.CompleteUnreadCount | components/NotificationBell.tsx:30-31 | the server's count is taken as is; a failure only logs |
| NotificationBell.NotificationBell.BeginToggle | components/NotificationBell.tsx:38-47 | the dropdown flips; the list is fetched and loading starts exactly when it opens with a token |
| NotificationBell.NotificationBell.CompleteToggle | components/NotificationBell.tsx:48-50 | the list is the reply's `results` when present, else the reply itself; loading ends either way |
| NotificationBell.NotificationBell.BeginClick | components/NotificationBell.tsx:55-68 | the dropdown closes; a read request goes out exactly for an unread notification with a token, and otherwise the click navigates at once |
| NotificationBell.NotificationBell.CompleteClick | components/NotificationBell.tsx:60-80 | a confirmed read lowers the current count by one, never below 0; a failure only logs; the navigation follows either way |
| NotificationBell.NotificationBell.BeginMarkAll | components/NotificationBell.tsx:84-89 | a POST to mark everything read, with the JWT header, goes out exactly when there is a token |
| NotificationBell.NotificationBell.CompleteMarkAll | components/NotificationBell.tsx:90-92 | on success the count is 0 and every notification in the current list is read; a failure only logs |
| NotificationBell.NotificationBell.ShowsMarkAll | components/NotificationBell.tsx:128-136 | the "mark all read" button shows exactly while the dropdown is open and the badge shows |
| TopicJoinButton.ActionFor | components/TopicJoinButton.tsx:34 | a joined user leaves, anyone else joins |
| TopicJoinButton.ActionName | components/TopicJoinButton.tsx:34 | the action's path segment, "leave" exactly for leaving |
| TopicJoinButton.Label | components/TopicJoinButton.tsx:72 | "..." while loading, else "已加入" when joined and "加入" when not |
| TopicJoinButton.TopicJoinButton.constructor | components/TopicJoinButton.tsx:15-17 | joined exactly when the prop says true (the default is false), not loading |
| TopicJoinButton.TopicJoinButton.BeginToggle | components/TopicJoinButton.tsx:21-41 | signed out: the login prompt, followed by navigation only if confirmed, nothing else; loading: nothing; otherwise loading starts and the join or leave request for the current state is sent with that state captured |
| TopicJoinButton.TopicJoinButton.CompleteToggle | components/TopicJoinButton.tsx:43-54 | success sets the opposite of the captured state; failure logs "Failed to {action} topic", alerts and keeps the state; loading ends either way |
| FollowButton.Label | components/FollowButton.tsx:83 | "..." while loading, else "已关注" when followed and "关注" when not |
| FollowButton.FollowButton.constructor | components/FollowButton.tsx:17-19 | followed exactly when the prop says true, not loading |
| FollowButton.FollowButton.Hidden | components/FollowButton.tsx:27-29 | nothing renders exactly on the signed-in user's own profile |
| FollowButton.FollowButton.SyncProp | components/FollowButton.tsx:23-25 | a new prop value overwrites the local state |
| FollowButton.FollowButton.BeginToggle | components/FollowButton.tsx:31-49 | signed out: the login prompt, followed by navigation only if confirmed; loading: nothing; otherwise loading starts, the follow request is sent and the current state captured |
| FollowButton.FollowButton.CompleteToggle | components/FollowButton.tsx:51-64 | success sets the opposite of the captured state and passes it to the callback when one is given; failure logs, alerts and keeps the state; loading ends either way |
| Url.ApiBase | utils/url.ts:13 | the environment's API URL when it is set and non-empty, else `http://localhost:8000` |
| Url.StripTrailingSlash | utils/url.ts:16 | exactly one trailing slash is removed, if there is one |
| Url.LeadingSlash | utils/url.ts:17 | the path starts with a slash, and one is added only when it was missing |
| Url.ImageUrl | utils/url.ts:3-20 | null exactly for a missing or empty path |
| Url.HttpsIsHttp | utils/url.ts:7 | the `https` test adds nothing to the `http` one |
| Url.ImageUrlAbsolute | utils/url.ts:6-9 | an absolute URL is returned unchanged |
| Url.ImageUrlRelative | utils/url.ts:11-19 | a relative path follows the base with its trailing slash removed, joined by exactly one added slash or by the path's own |
| Url.StripKeepsHttp | utils/url.ts:16 | removing the trailing slash keeps an `http` base absolute |
| Url.ImageUrlIdempotent | utils/url.ts:3-20 | with an `http` base, resolving a resolved URL gives it back |
| Url.Interpolate | components/UserListModal.tsx:55 | a template literal prints an unset value as `undefined` |
| Url.AvatarUrl | components/UserListModal.tsx:52-56 | null exactly for a missing or empty path; an `http` URL unchanged; otherwise the API URL as printed, directly followed by the path |
| Url.AvatarUrlAgreesWithImageUrl | components/UserListModal.tsx:52-56 | the modal's resolver agrees with `getImageUrl` when the API URL is set without a trailing slash and paths start with a slash or `http` |
| Url.AvatarUrlWithoutApiUrl | components/UserListModal.tsx:22 | without the environment variable the modal builds `undefined/...` where `getImageUrl` uses the local server |
| UserListModal.RowOf | components/UserListModal.tsx:80-97 | a row is keyed by the user's id, shows the name, the avatar of `getAvatarUrl` and links to the user's profile |
| UserListModal.RowsOf | components/UserListModal.tsx:80 | one row per user, in order |
| UserListModal.ErrorMessage | components/UserListModal.tsx:37-42 | the hidden-list message exactly for status 403, the generic message otherwise |
| UserListModal.UserListModal.constructor | components/UserListModal.tsx:17-20 | no users, not loading, no error |
| UserListModal.UserListModal.BeginFetch | components/UserListModal.tsx:24-34 | closed: nothing; open: loading starts, the error clears and the endpoint is requested, with the authorization header exactly when there is a token |
| UserListModal.UserListModal.CompleteFetch | components/UserListModal.tsx:35-45 | success lists `results` or the reply itself; failure sets the message for its status and logs exactly when it is not 403; loading ends either way |
| UserListModal.UserListModal.View | components/UserListModal.tsx:58-102 | nothing when closed; otherwise loading, then the error, then the empty-list text; the render fails exactly when some listed user has neither an avatar nor a name (the initial letter is read from the name); else one row per user, each with an avatar or a non-empty name |
| UserListModal.NamelessUserBreaksList | components/UserListModal.tsx:87-91 | a listed user with an empty name and no avatar makes the whole dialog fail to render |
| PostMedia.Columns | components/PostMedia.tsx:37-40 | two columns for exactly two images, three from three on, one otherwise |
| PostMedia.TileSrc | components/PostMedia.tsx:56 | the resolved image URL, or the empty string when there is none |
| PostMedia.Render | components/PostMedia.tsx:12-74 | nothing without a video or images; a video wins over images and is resolved like an image; otherwise a grid with the column rule, the first nine images as tiles in order |
| PostMedia.OverlayAccountsForHidden | components/PostMedia.tsx:42-65 | only the ninth tile carries an overlay, exactly when there are more than nine images, and shown tiles plus the overlay's "+N" count every image |
| PostMedia.TilesKeepOrder | components/PostMedia.tsx:47-57 | the tile at position i is keyed by image i and numbered i |
| PostMedia.SingleStyleOnlyAlone | components/PostMedia.tsx:50-51 | the single-image style applies to every tile exactly when there is one image |
| NewProductPage.FilterIndex | app/merchant/products/new/page.tsx:53-56 | the position filter never lengthens the list |
| NewProductPage.FilterIndexIsWithout | app/merchant/products/new/page.tsx:53-56 | filtering by position removes exactly the element at that index, and nothing when the index is out of range |
| NewProductPage.WithoutShifts | app/merchant/products/new/page.tsx:53-56 | removing an in-range position shortens the list by one, keeps the elements before it and moves each later one down a place; any other index changes nothing |
| NewProductPage.WithoutKeepsPairs | app/merchant/products/new/page.tsx:53-56 | removing the same index from the files and the previews keeps every remaining file with its own preview |
| NewProductPage.ImageEntries | app/merchant/products/new/page.tsx:76-78 | one `uploaded_images` entry per image, in order |
| NewProductPage.FormCarriesAllImages | app/merchant/products/new/page.tsx:69-78 | the body holds the title, content, topic, price and stock fields in that order, then one `uploaded_images` entry per image, in list order |
| NewProductPage.NewProductPage.constructor | app/merchant/products/new/page.tsx:15-25 | empty fields, no images, no topics, no error, not loading |
| NewProductPage.NewProductPage.EditFields | app/merchant/products/new/page.tsx:107-163 | the inputs set the text fields and the topic, nothing else |
| NewProductPage.NewProductPage.CompleteFetchTopics | app/merchant/products/new/page.tsx:31-41 | the topics are an array reply, else its `results`, else none; the first topic becomes selected when there is one; a failure only logs; every other field stays |
| NewProductPage.NewProductPage.AddImages | app/merchant/products/new/page.tsx:44-51 | a non-empty selection is appended to the files and its previews to the previews, keeping the two aligned; every other field stays |
| NewProductPage.NewProductPage.RemoveImage | app/merchant/products/new/page.tsx:53-56 | the same position goes from both lists, which stay aligned; every other field stays |
| NewProductPage.NewProductPage.BuildForm | app/merchant/products/new/page.tsx:69-78 | the loop builds exactly the body of `FormOf` |
| NewProductPage.NewProductPage.BeginSubmit | app/merchant/products/new/page.tsx:59-82 | the error clears; with no image it is set to the image message and nothing is sent; otherwise loading starts and the full form is sent; every other field stays; the browser calls it only with the required inputs filled |
| NewProductPage.NewProductPage.CompleteSubmit | app/merchant/products/new/page.tsx:84-91 | success goes to the dashboard; failure logs and sets the network message; loading ends either way; every other field stays |
| NewProductPage.NewProductPage.SubmitLabel | app/merchant/products/new/page.tsx:204 | the button reads "发布中..." exactly while submitting |
| NewProductPage.ShowsForm | app/merchant/products/new/page.tsx:94 | the form shows exactly for a signed-in user; anyone else sees only the login hint |
| RegisterPage.FieldMessage | app/register/page.tsx:62-64 | a reported field adds exactly one message, its prefix and the first entry of its list (`undefined` for an empty list); an absent field adds none |
| RegisterPage.FieldMessages | app/register/page.tsx:57-64 | no messages without a response body; otherwise username, email and password messages in that order, at most three |
| RegisterPage.ErrorText | app/register/page.tsx:66-73 | the field messages joined by spaces, or the generic message when there are none |
| RegisterPage.ErrorTextCases | app/register/page.tsx:57-73 | the generic message appears exactly when no field was reported, and a reported username always leads the text |
| RegisterPage.TwoFieldErrors | app/register/page.tsx:62-67 | a username and a password error are joined by a single space |
| RegisterPage.RegisterPage.constructor | app/register/page.tsx:11-15 | empty fields and no error |
| RegisterPage.RegisterPage.EditFields | app/register/page.tsx:84-120 | the inputs set the four fields and leave the error |
| RegisterPage.RegisterPage.BeginSubmit | app/register/page.tsx:21-37 | the error clears and the four fields stay; a confirmation that differs sets the mismatch message and sends nothing; otherwise the account request carries the entered username, email and password, and the username and password are captured for the login; the browser calls it only with the required inputs filled |
| RegisterPage.RegisterPage.CompleteCreate | app/register/page.tsx:39-74 | success logs in with the username and password captured when the form was submitted, even if the inputs changed since; failure logs and shows the assembled error text; the four fields stay |
| RegisterPage.RegisterPage.CompleteLogin | app/register/page.tsx:46-74 | a truthy access token is handed to the session with the refresh token and the user goes home; a reply without one does nothing; a failure is reported like a registration failure; the four fields stay |
| SettingsPage.PasswordErrorMessage | app/settings/page.tsx:120-126 | an error banner; the wrong-password text exactly when the reply names `current_password` |
| SettingsPage.RedirectCheck | app/settings/page.tsx:36-43 | when the one-second timer fires, the page goes to login exactly when there is neither a user nor a token, and does nothing else |
| SettingsPage.ShowsPage | app/settings/page.tsx:45 | the page shows exactly once there is a user record; until then only the loading text |
| SettingsPage.SettingsPage.constructor | app/settings/page.tsx:15-26 | no avatar chosen, no preview, empty password fields, no banner, nothing in flight |
| SettingsPage.SettingsPage.SyncUser | app/settings/page.tsx:29-33 | a user with an avatar shows it as the preview; otherwise the preview is kept; every other field stays |
| SettingsPage.SettingsPage.EditPasswords | app/settings/page.tsx:214-237 | the inputs set the three password fields and nothing else |
| SettingsPage.SettingsPage.ChooseAvatar | app/settings/page.tsx:48-54 | the first chosen file becomes the avatar and its local URL the preview; an empty choice changes nothing; every other field stays |
| SettingsPage.SettingsPage.BeginProfileUpdate | app/settings/page.tsx:56-74 | with no avatar chosen nothing happens; otherwise the upload starts, the banner clears and the avatar is sent; every other field stays |
| SettingsPage.SettingsPage.CompleteProfileUpdate | app/settings/page.tsx:76-83 | the success or the failure banner (the failure also logs); the upload ends and the choice stays; every other field stays |
| SettingsPage.SettingsPage.BeginPasswordChange | app/settings/page.tsx:87-108 | the banner clears; different new passwords set the mismatch banner and send nothing; otherwise the three fields are sent and loading starts; every other field stays; the browser calls it only with the required inputs filled |
| SettingsPage.SettingsPage.CompletePasswordChange | app/settings/page.tsx:110-129 | success clears the three fields, shows the success banner and schedules the logout after two seconds; failure logs and shows the message for the reply, keeping the fields; every other field stays |
| SettingsPage.SettingsPage.SaveDisabled | app/settings/page.tsx:194 | the save button is enabled exactly when an avatar is chosen and no upload is in flight |
| SettingsPage.SettingsPage.PasswordDisabled | app/settings/page.tsx:245 | the password button is disabled exactly while its request is in flight |
| MerchantApplyPage.SubmitErrorText | app/merchant/apply/page.tsx:101-105 | a shop-name error shows its first message after "提交失败: " (`undefined` for an empty list); anything else shows the generic message |
| MerchantApplyPage.Card | app/merchant/apply/page.tsx:120-151 | the pending card names the shop, the approved card shows for an approved one, and the rejected card shows the reason, or "未提供" when there is none or it is empty |
| MerchantApplyPage.MerchantApplyPage.constructor | app/merchant/apply/page.tsx:24-32 | empty form, no profile, the page loading, nothing submitting, no error |
| MerchantApplyPage.MerchantApplyPage.BeginCheck | app/merchant/apply/page.tsx:37-52 | the status is requested exactly once the session has loaded, is signed in and has a token; a loaded signed-out session goes to login |
| MerchantApplyPage.MerchantApplyPage.CompleteCheck | app/merchant/apply/page.tsx:53-61 | the profile is kept when found; a 404 (never applied) is silent and any other failure logs; page loading ends either way; every other field stays |
| MerchantApplyPage.MerchantApplyPage.EditFields | app/merchant/apply/page.tsx:164-180 | the inputs set the shop name and description and nothing else |
| MerchantApplyPage.MerchantApplyPage.ChooseLicense | app/merchant/apply/page.tsx:69-75 | the first chosen file becomes the licence and its local URL the preview; an empty choice changes nothing; every other field stays |
| MerchantApplyPage.MerchantApplyPage.BeginSubmit | app/merchant/apply/page.tsx:78-95 | without a licence the licence message is set and nothing is sent; otherwise submitting starts, the error clears and name, description and licence are sent; every other field stays; the browser calls it only with the required inputs filled |
| MerchantApplyPage.MerchantApplyPage.CompleteSubmit | app/merchant/apply/page.tsx:97-108 | success shows the returned profile; failure logs and shows the error text; submitting ends either way; every other field stays |
| MerchantApplyPage.MerchantApplyPage.View | app/merchant/apply/page.tsx:111-160 | the spinner while the session loads or a signed-in check is pending; then the status card for a known profile; else the form |
| MessagesPage.FindOtherIsFirst | app/messages/page.tsx:32 | the search finds nothing exactly when every participant has the user's name, and otherwise finds the first one who does not |
| MessagesPage.OtherParticipant | app/messages/page.tsx:31-33 | there is someone to show exactly when the participant list is non-empty |
| MessagesPage.OtherParticipantChoice | app/messages/page.tsx:31-33 | when signed in, the participant shown is in the conversation, and it has the user's own name exactly when nobody else takes part |
| MessagesPage.SignedOutShowsFirst | app/messages/page.tsx:32 | when signed out (the name is undefined) the first participant is shown |
| MessagesPage.Preview | app/messages/page.tsx:65 | the last message's content, or "开始聊天吧" when there is none |
| MessagesPage.View | app/messages/page.tsx:40-72 | "暂无消息" exactly for an empty inbox; the render fails exactly when some conversation has no participant to show or one with an empty username (the initial letter is read from it); otherwise one row per conversation, in the server's order, each naming its other participant |
| MessagesPage.NoParticipantsBreaksInbox | app/messages/page.tsx:52 | a conversation without participants makes the whole inbox fail to render |
| MessagesPage.MessagesPage.constructor | app/messages/page.tsx:12 | the inbox starts empty |
| MessagesPage.MessagesPage.BeginFetch | app/messages/page.tsx:15-23 | the conversations are requested exactly when there is a token |
| MessagesPage.MessagesPage.CompleteFetch | app/messages/page.tsx:24-25 | the reply replaces the list; a failure only logs |
| AIChatWindow.TrimStart | components/AIChatWindow.tsx:43 | no longer than the input and, when non-empty, not starting with whitespace |
| AIChatWindow.TrimEnd | components/AIChatWindow.tsx:43 | no longer than the input and, when non-empty, not ending with whitespace |
| AIChatWindow.TrimStartCutsSpaces | components/AIChatWindow.tsx:43 | the leading trim keeps a suffix of the input, and every character it removes is whitespace |
| AIChatWindow.TrimEndCutsSpaces | components/AIChatWindow.tsx:43 | the trailing trim keeps a prefix of the input, and every character it removes is whitespace |
| AIChatWindow.TrimPadded | components/AIChatWindow.tsx:43 | a word padded with a space on each side trims back to the word |
| AIChatWindow.TrimEndsNotSpace | components/AIChatWindow.tsx:50 | a non-empty trimmed text neither starts nor ends with whitespace |
| AIChatWindow.TrimIsSlice | components/AIChatWindow.tsx:50 | the trimmed text is a contiguous part of the input, cut only at whitespace on both sides |
| AIChatWindow.TrimEmptyIffAllSpace | components/AIChatWindow.tsx:43 | the input counts as blank exactly when it is whitespace only |
| AIChatWindow.TrimIdempotent | components/AIChatWindow.tsx:50 | trimming the trimmed text changes nothing |
| AIChatWindow.ShowsRecommendations | components/AIChatWindow.tsx:147 | a message shows product cards exactly when it has a non-empty recommendation list |
| AIChatWindow.CardOf | components/AIChatWindow.tsx:78-101 | the card title is the product title or else the post title, the price is the product price or else "暂无报价", and there is an image exactly when the product has a non-empty image URL; the card links to the recommended post's id, and its image is the product's image URL |
| AIChatWindow.AIChatWindow.constructor | components/AIChatWindow.tsx:18-23 | closed, the log holding only the greeting, empty input, not loading |
| AIChatWindow.AIChatWindow.ToggleOpen | components/AIChatWindow.tsx:107 | the window opens or closes and nothing else changes |
| AIChatWindow.AIChatWindow.EditInput | components/AIChatWindow.tsx:176 | the input becomes the typed text |
| AIChatWindow.AIChatWindow.BeginSend | components/AIChatWindow.tsx:41-61 | blank input or an answer pending: nothing; no token: the login hint is appended and the input kept; otherwise the trimmed input is appended as the user's message and sent, the input cleared, loading set; the log keeps its greeting |
| AIChatWindow.AIChatWindow.CompleteSend | components/AIChatWindow.tsx:63-74 | the answer with its recommendations, or the apology (the failure also logs), is appended to the current log; loading ends |
| AIChatWindow.AIChatWindow.SendDisabled | components/AIChatWindow.tsx:182 | the send button is disabled exactly for blank input or while an answer is pending |
| TopicCarousel.Gradient | components/TopicCarousel.tsx:46-55 | one of the five gradients, chosen by the card's index modulo five |
| TopicCarousel.GradientCycle | components/TopicCarousel.tsx:46-55 | the palette repeats every five cards, and neighbouring cards never share a gradient |
| TopicCarousel.Scroll | components/TopicCarousel.tsx:26-42 | without a mounted container nothing scrolls; otherwise the target is 304 pixels left or right of the current position |
| TopicCarousel.BackgroundOf | components/TopicCarousel.tsx:100-114 | the banner when there is one, else the blurred icon, else the card's gradient |
| TopicCarousel.Heading | components/TopicCarousel.tsx:131-133 | the description, or "加入 {name} 社区" when it is missing or empty |
| TopicCarousel.View | components/TopicCarousel.tsx:44-142 | nothing for no topics; otherwise one card per topic, in order, the card at index i using gradient i |
| TopicCarousel.TopicCarousel.constructor | components/TopicCarousel.tsx:10 | no topics |
| TopicCarousel.TopicCarousel.CompleteFetch | components/TopicCarousel.tsx:14-21 | the first ten topics of an array reply, else of its `results`, else none, in the server's order; a failure only logs; never more than ten are held |
| TopicCarousel.FetchShowsFirstTen | components/TopicCarousel.tsx:19 | a corollary of `Take` and `View` for the list that `CompleteFetch` keeps: for any reply, the first ten topics (or all when fewer) shown as card i for topic i |
| MerchantDashboard.Greeting | app/merchant/dashboard/page.tsx:73 | the header's welcome followed by the username; with no user only the welcome shows, as React renders an undefined child as nothing |
| MerchantDashboard.ProductsPath | app/merchant/dashboard/page.tsx:41-42 | the exact query path: `/api/v1/posts/?author__username=`, then the signed-in username (or `undefined` with no user), then `&product__product_type=INTERNAL` |
| MerchantDashboard.TotalViewsCons | app/merchant/dashboard/page.tsx:51 | the view total, taken from the front, is the first post's views plus the rest |
| MerchantDashboard.FoldIsTotal | app/merchant/dashboard/page.tsx:51 | the left fold from any starting value adds the view total to it |
| MerchantDashboard.TotalViewsAppend | app/merchant/dashboard/page.tsx:51 | one more product adds its views to the total |
| MerchantDashboard.SumViews | app/merchant/dashboard/page.tsx:51 | the loop computes the source's `reduce` from 0, which is the view total |
| MerchantDashboard.PriceText | app/merchant/dashboard/page.tsx:143-146 | the shop price after a yen sign, else the scraped price, else a dash |
| MerchantDashboard.StockOf | app/merchant/dashboard/page.tsx:147-149 | the stock, 0 included, whenever the product has one; a dash otherwise |
| MerchantDashboard.MerchantDashboard.constructor | app/merchant/dashboard/page.tsx:15-17 | no products, loading, zero statistics |
| MerchantDashboard.MerchantDashboard.BeginFetch | app/merchant/dashboard/page.tsx:21-33 | the merchant record is requested exactly once the session has loaded and is signed in; a loaded signed-out session goes to login |
| MerchantDashboard.MerchantDashboard.CompleteMerchant | app/merchant/dashboard/page.tsx:35-44 | the products are requested exactly for an approved merchant; any other status goes to the application page and a failure logs, and both end loading |
| MerchantDashboard.MerchantDashboard.CompleteProducts | app/merchant/dashboard/page.tsx:46-58 | the products are an array reply, else its `results`, else none, and the statistics hold their view total with zero sales; a failure only logs; loading ends |
| MerchantDashboard.MerchantDashboard.View | app/merchant/dashboard/page.tsx:64-162 | the loading text while the session or the data loads; then the empty state for no products; else one table row per product with the statistics; outside the loading text the header greets the signed-in user |
| SortTabs.Get | components/SortTabs.tsx:14 | `get` finds nothing exactly when no entry has the key |
| SortTabs.Others | components/SortTabs.tsx:19-21 | the entries under other keys never carry the key |
| SortTabs.SetFromShape | components/SortTabs.tsx:21 | after `set` the key occurs exactly once, and the entries under other keys are kept in order |
| SortTabs.KeyCountAppend | components/SortTabs.tsx:21 | the occurrences of a key in two runs of parameters add up |
| SortTabs.OthersAppend | components/SortTabs.tsx:21 | the other-key entries of two runs concatenate |
| SortTabs.GetAfterSet | components/SortTabs.tsx:21 | reading the key after `set` gives the value just set |
| SortTabs.OthersKeepGet | components/SortTabs.tsx:19-21 | dropping one key's entries does not change what another key reads |
| SortTabs.SetKeepsOtherKeys | components/SortTabs.tsx:19-21 | setting `sort` leaves every other parameter's value as it was |
| SortTabs.SetFromIdempotent | components/SortTabs.tsx:21 | setting the same value twice gives the same parameters as setting it once |
| SortTabs.SetAbsentAppends | components/SortTabs.tsx:21 | setting an absent key appends it at the end |
| SortTabs.CurrentSort | components/SortTabs.tsx:14 | the `sort` value when it is present and non-empty, else "new" |
| SortTabs.SortName | components/SortTabs.tsx:17 | the two orders are named "hot" and "new" |
| SortTabs.SortLink | components/SortTabs.tsx:17-24 | a tab's link is the current path, then `?`, then the current parameters with `sort` set to the tab's order (what that setting keeps and changes is stated by `SetFromShape`, `GetAfterSet` and `SetKeepsOtherKeys`) |
| SortTabs.IsActive | components/SortTabs.tsx:37-42 | a tab is highlighted exactly when the current order is its own |
| SortTabs.ActiveTabs | components/SortTabs.tsx:14-42 | never both tabs; "new" alone without a (non-empty) `sort`; neither for an unknown order |
| SortTabs.LinkSelectsTab | components/SortTabs.tsx:17-24 | following a tab's link highlights that tab and keeps every other parameter |
| SortTabs.LinksFromBarePath | components/SortTabs.tsx:17-24 | from a URL without parameters the links are `{path}?sort=hot` and `{path}?sort=new` |
| Common.CountOrZero | components/TopicCarousel.tsx:137 | a count shown with a fallback of 0: the count when it is present and non-zero, else 0 |
| Common.ResultsOrData | components/NotificationBell.tsx:48 | the page's `results` when the reply is paged, else the reply itself |
| Common.ArrayOrResults | components/TopicCarousel.tsx:18 | an array reply as is; else its `results`; else no items |
| Common.Take | components/TopicCarousel.tsx:19 | `slice(0, n)`: the first n items in order, or all of them when there are fewer |
| Common.FirstOrUndefined | app/register/page.tsx:62-64 | `list[0]` in a template: the first entry, or `undefined` for an empty list |
| Common.Join | app/register/page.tsx:67 | joining no parts gives the empty text and joining one gives that part |
| Common.JoinSnoc | app/register/page.tsx:67 | one more part is joined after a separator |
| Common.JoinStartsWithFirst | app/register/page.tsx:67 | the joined text starts with the first part |
| Common.DigitChar | components/NotificationBell.tsx:79 | the character of a decimal digit, whose value is that digit |
| Common.NatToDecimal | components/NotificationBell.tsx:79 | `${n}` of a non-negative number: a non-empty text of decimal digits |
| Common.IntToDecimal | components/NotificationBell.tsx:79 | `${n}` of any integer: the digits of its magnitude, after a minus sign when it is negative |
| Common.DecimalRoundTrip | components/NotificationBell.tsx:79 | the digits read back as the number, and they start with 0 only for zero (no leading zeros) |
| Common.DecimalInjective | components/NotificationBell.tsx:79 | different numbers are written differently |
| Types.AuthHeader | components/VoteButtons.tsx:67 | the header is "JWT " followed by the token (a missing token prints as `null`); with no token it is exactly "JWT null" |

## Left out

- HTTP and `axios` are not modelled as such. A request is the record a `BeginX` method returns, and the reply is the outcome passed to `CompleteX`. Base URLs, headers other than `Authorization`, and the JSON encoding of bodies are not modelled.
- `context/AuthContext.tsx` (the session provider, `localStorage`, token decoding) is not part of this model. What `useAuth()` supplies is the `Auth` parameter, and `login`/`logout` calls are returned as values (`RegisterPage.RegisterPage.CompleteLogin`'s tokens, `SettingsPage.SettingsPage.CompletePasswordChange`'s logout delay).
- `utils/highlight.tsx` and the other pages of the client are not part of this model. They only render the components modelled here.
- React's scheduling is not modelled: the order in which effects run, batching of state updates, and re-renders. Each handler step is atomic, and a stale reply is whatever reply the caller passes in.
- DOM effects are left out because they change no modelled state: the chat's `scrollIntoView` and input focus timer, the bell's outside-click listener, `e.preventDefault()`, `e.stopPropagation()` and hover text swaps.
- Timers are not modelled as time. The settings page's one-second redirect check is `SettingsPage.RedirectCheck`, evaluated when the timer fires. The two-second logout is returned as a delay.
- `URL.createObjectURL` is a browser call that has no pure meaning. The preview URLs it returns are parameters (`blobUrl`, `previews`). Revoking them is not done by the code either.
- SortTabs.Serialize: percent-encoding of `URLSearchParams.toString()` is not modelled. Keys and values are joined as they are.
- Date formatting (`toLocaleString`, `toLocaleDateString`) depends on the browser locale. Dates are passed through as strings.
- `toUpperCase()` of an avatar's initial letter is left out. There is no Unicode case mapping in the model. An empty name, whose first letter is `undefined`, is modelled as a render failure in `MessagesPage.View` and `UserListModal.UserListModal.View`. The same read in the notification dropdown (components/NotificationBell.tsx:157) and on the settings page (app/settings/page.tsx:157) sits in markup that is not modelled.
- Form validation by the browser is modelled only for `required` inputs. It becomes a precondition that those inputs are non-empty on `CommentSection.CommentSection.BeginSubmit`, `CommentForm.CommentForm.BeginSubmit`, `RegisterPage.RegisterPage.BeginSubmit`, `MerchantApplyPage.MerchantApplyPage.BeginSubmit`, `NewProductPage.NewProductPage.BeginSubmit` and `SettingsPage.SettingsPage.BeginPasswordChange`. The validity checks of `type="email"` on the registration page and of `type="number"` on the price and stock inputs are not modelled, because they depend on the browser's parsing rules.
- TopicCarousel.Scroll: the browser's clamping of `scrollTo` to the scrollable range and the smooth animation are not modelled. The method returns the requested target.
- VoteButtons: the vote values are limited to up, down and none, as the type in the source declares. A server reply with any other value is not modelled.
- Common.ResultsOrData: a reply object without `results` (for example an error object) is modelled as a bare list reply. JavaScript would store the object itself.
- MerchantDashboard.SumViews: view counts are unbounded integers. `NaN` and floating-point sums of malformed replies are not modelled.
- MerchantDashboard.StockOf: a `null` stock is treated like a missing one. The source would print an empty cell for `null`.
- AIChatWindow.CardOf requires that the recommended post has a product, as the source dereferences `post.product` unguarded. A post without one would throw while rendering.
- NotificationBell: the icon and verb shown for each notification type are display text and are not modelled. Only the navigation rule and the read state are.
- MessagesPage: `setConversations(res.data)` stores the reply as is. There is no `results` fallback in the code, so the model takes a plain list.
- PostMedia: the `alt` text and the CSS classes are not modelled. The tile's position and whether the single-image style applies stand for them.
- Scenario methods exercise the classes on concrete inputs. They carry their facts as assertions rather than postconditions.
