/** The API records the components exchange with the server (types/index.ts),
    and the session facts the auth context hands to every component. */
module Types {
  import opened Common

  datatype User = User(id: int, username: string, avatar: Option<string>)

  datatype Topic = Topic(
    id: int,
    name: string,
    slug: string,
    description: Option<string>,
    createdAt: Option<string>,
    subscribersCount: Option<int>,
    isSubscribed: Option<bool>,
    postsCount: Option<int>,
    icon: Option<string>,
    banner: Option<string>)

  datatype ScrapeStatus = Processing | Scraped | ScrapeFailed

  /** `price` and `stock` are read by the merchant dashboard although the
      declared record lacks them; they are optional here. */
  datatype Product = Product(
    originalUrl: string,
    productTitle: Option<string>,
    productImageUrl: Option<string>,
    productPrice: Option<string>,
    scrapeStatus: ScrapeStatus,
    price: Option<string>,
    stock: Option<int>)

  datatype Post = Post(
    id: int,
    title: string,
    content: string,
    viewCount: int,
    createdAt: string,
    author: User,
    topic: Topic,
    product: Option<Product>,
    score: int,
    userVote: Option<int>,
    commentsCount: int)

  /** A comment and, recursively, its replies. */
  datatype Comment = Comment(
    id: int,
    content: string,
    author: User,
    createdAt: string,
    replies: seq<Comment>)

  /** The declared union lacks `message`, but the notification bell tests
      for it, so it is included. */
  datatype NotificationType = Follow | CommentOnPost | ReplyToComment | VoteOnPost | DirectMessage

  datatype Notification = Notification(
    id: int,
    notificationType: NotificationType,
    actor: User,
    postId: Option<int>,
    isRead: bool,
    createdAt: string)

  /** What `useAuth()` supplies. */
  datatype Auth = Auth(
    isAuthenticated: bool,
    accessToken: Option<string>,
    user: Option<User>,
    isLoading: bool)

  /** `accessToken` used as a condition (`if (!accessToken)`). */
  predicate HasToken(auth: Auth) {
    Truthy(auth.accessToken)
  }

  /** The header value `JWT ${accessToken}`; a null token is interpolated as
      the text "null". */
  function AuthHeader(auth: Auth): (h: string)
    ensures StartsWith(h, "JWT ")
    ensures auth.accessToken.Some? ==> h[4..] == auth.accessToken.value
    ensures auth.accessToken.None? ==> h == "JWT null"
  {
    "JWT " + (match auth.accessToken case Some(t) => t case None => "null")
  }
}
