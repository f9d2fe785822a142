/** The notification bell (components/NotificationBell.tsx): an unread
    counter, a dropdown list loaded on opening, per-notification "read and
    go there", and "mark all read". */
module NotificationBell {
  import opened Common
  import opened Types

  /** Where clicking a notification leads. */
  datatype Route = UserPage(username: string) | MessagesPage | PostPage(postId: int)

  /** The navigation rule: follows go to the actor's profile, messages to the
      inbox, anything else with a (non-zero) post id to that post. */
  function Destination(n: Notification): (r: Option<Route>)
    ensures n.notificationType == Follow ==> r == Some(UserPage(n.actor.username))
    ensures n.notificationType == DirectMessage ==> r == Some(MessagesPage)
    ensures n.notificationType != Follow && n.notificationType != DirectMessage ==>
      (r.Some? <==> TruthyNumber(n.postId)) && (r.Some? ==> r == Some(PostPage(n.postId.value)))
  {
    if n.notificationType == Follow then Some(UserPage(n.actor.username))
    else if n.notificationType == DirectMessage then Some(MessagesPage)
    else if TruthyNumber(n.postId) then Some(PostPage(n.postId.value))
    else None
  }

  /** The route as the path handed to `router.push`, with the post id
      interpolated in decimal. */
  function RoutePath(r: Route): (p: string)
    ensures r.UserPage? ==> p == "/users/" + r.username
    ensures r.MessagesPage? ==> p == "/messages"
    ensures r.PostPage? ==> p == "/posts/" + IntToDecimal(r.postId)
  {
    match r
    case UserPage(u) => "/users/" + u
    case MessagesPage => "/messages"
    case PostPage(id) => "/posts/" + IntToDecimal(id)
  }

  /** The post path names its post: what follows `/posts/` reads back as the
      id, so different posts get different paths. */
  lemma PostPathNamesPost(id: nat)
    ensures var p := RoutePath(PostPage(id));
      && StartsWith(p, "/posts/")
      && (forall i :: 7 <= i < |p| ==> IsDigit(p[i]))
      && ParseDecimal(p[7..]) == id
  {
    var p := RoutePath(PostPage(id));
    assert p[7..] == NatToDecimal(id);
    DecimalRoundTrip(id);
  }

  /** The red badge: hidden at 0 (or below), the digit for 1..9, "9+" above. */
  function Badge(unreadCount: int): (b: Option<string>)
    ensures b.None? <==> unreadCount <= 0
    ensures unreadCount > 9 ==> b == Some("9+")
    ensures 0 < unreadCount <= 9 ==> b.Some? && |b.value| == 1 && b.value[0] as int == '0' as int + unreadCount
  {
    if unreadCount <= 0 then None
    else if unreadCount > 9 then Some("9+")
    else Some([('0' as int + unreadCount) as char])
  }

  /** The count after a confirmed single read: one less, never below 0. */
  function Decremented(count: int): (r: int)
    ensures r >= 0
    ensures count >= 1 ==> r == count - 1
    ensures count < 1 ==> r == 0
  {
    if count - 1 > 0 then count - 1 else 0
  }

  /** Every entry marked read and otherwise unchanged
      (`prev.map(n => ({ ...n, is_read: true }))`). */
  function AllRead(ns: seq<Notification>): (r: seq<Notification>)
    ensures |r| == |ns|
    ensures forall i :: 0 <= i < |ns| ==> r[i] == ns[i].(isRead := true)
  {
    if ns == [] then [] else [ns[0].(isRead := true)] + AllRead(ns[1..])
  }

  /** Marking everything read a second time changes nothing. */
  lemma AllReadIdempotent(ns: seq<Notification>)
    ensures AllRead(AllRead(ns)) == AllRead(ns)
  {
  }

  /** A request to the notifications API: verb, path and `Authorization` header. */
  datatype ApiRequest = ApiRequest(verb: string, path: string, authorization: string)

  const UnreadCountPath: string := "/api/v1/notifications/unread_count/"
  const MarkAllReadPath: string := "/api/v1/notifications/mark_all_read/"

  /** The suspended click: the notification whose read request is in flight. */
  datatype PendingClick = PendingClick(notification: Notification)

  /** The bell renders only for a signed-in user. */
  predicate Renders(auth: Auth): (shown: bool)
    ensures !auth.isAuthenticated ==> !shown
    ensures auth.isAuthenticated ==> shown
  {
    auth.isAuthenticated
  }

  class NotificationBell {
    var unreadCount: int
    var notifications: seq<Notification>
    var isOpen: bool
    var loading: bool

    constructor ()
      ensures unreadCount == 0 && notifications == [] && !isOpen && !loading
    {
      unreadCount := 0;
      notifications := [];
      isOpen := false;
      loading := false;
    }

    /** The mount effect (`fetchUnreadCount`) up to its await: the request
        goes out only with a token. */
    method BeginUnreadCount(auth: Auth) returns (request: Option<ApiRequest>)
      ensures request.Some? <==> HasToken(auth)
      ensures request.Some? ==> request.value == ApiRequest("GET", UnreadCountPath, AuthHeader(auth))
    {
      if !HasToken(auth) {
        return None;
      }
      request := Some(ApiRequest("GET", UnreadCountPath, AuthHeader(auth)));
    }

    /** `fetchUnreadCount` after its GET: the server's count is taken as is. */
    method CompleteUnreadCount(outcome: Outcome<int, ()>) returns (effects: seq<Effect>)
      modifies this
      ensures notifications == old(notifications) && isOpen == old(isOpen) && loading == old(loading)
      ensures outcome.Success? ==> unreadCount == outcome.payload && effects == []
      ensures outcome.Failure? ==> unreadCount == old(unreadCount) && effects == [LogError("")]
    {
      if outcome.Success? {
        unreadCount := outcome.payload;
        effects := [];
      } else {
        effects := [LogError("")];
      }
    }

    /** `toggleDropdown` up to the await: flip `isOpen`; only opening with a
        token starts loading the list. */
    method BeginToggle(auth: Auth) returns (fetch: bool)
      modifies this
      ensures isOpen == !old(isOpen)
      ensures fetch <==> isOpen && HasToken(auth)
      ensures loading == (if fetch then true else old(loading))
      ensures unreadCount == old(unreadCount) && notifications == old(notifications)
    {
      isOpen := !isOpen;
      fetch := isOpen && HasToken(auth);
      if fetch {
        loading := true;
      }
    }

    /** `toggleDropdown` after the await: the list is `results` if present,
        else the raw reply. */
    method CompleteToggle(outcome: Outcome<ListPayload<Notification>, ()>) returns (effects: seq<Effect>)
      modifies this
      ensures !loading
      ensures unreadCount == old(unreadCount) && isOpen == old(isOpen)
      ensures outcome.Success? ==> notifications == ResultsOrData(outcome.payload) && effects == []
      ensures outcome.Failure? ==> notifications == old(notifications) && effects == [LogError("")]
    {
      if outcome.Success? {
        notifications := ResultsOrData(outcome.payload);
        effects := [];
      } else {
        effects := [LogError("")];
      }
      loading := false;
    }

    /** `handleNotificationClick` up to the await. The dropdown closes first.
        An unread notification with a token sends the read request and
        navigates only after it; otherwise navigation happens at once. */
    method BeginClick(n: Notification, auth: Auth) returns (pending: Option<PendingClick>, route: Option<Route>)
      modifies this
      ensures !isOpen
      ensures unreadCount == old(unreadCount) && notifications == old(notifications) && loading == old(loading)
      ensures pending.Some? <==> !n.isRead && HasToken(auth)
      ensures pending.Some? ==> pending.value.notification == n && route == None
      ensures pending.None? ==> route == Destination(n)
    {
      isOpen := false;
      if !n.isRead && HasToken(auth) {
        return Some(PendingClick(n)), None;
      }
      return None, Destination(n);
    }

    /** `handleNotificationClick` after the await: a confirmed read lowers the
        counter by one, floored at 0; the list entry itself keeps its
        `is_read`. Navigation follows either way. */
    method CompleteClick(pending: PendingClick, outcome: Outcome<(), ()>) returns (route: Option<Route>, effects: seq<Effect>)
      modifies this
      ensures notifications == old(notifications) && isOpen == old(isOpen) && loading == old(loading)
      ensures route == Destination(pending.notification)
      ensures outcome.Success? ==> unreadCount == Decremented(old(unreadCount)) && effects == []
      ensures outcome.Failure? ==> unreadCount == old(unreadCount) && effects == [LogError("")]
    {
      if outcome.Success? {
        unreadCount := Decremented(unreadCount);
        effects := [];
      } else {
        effects := [LogError("")];
      }
      route := Destination(pending.notification);
    }

    /** `markAllAsRead` up to its await: without a token it returns at once. */
    method BeginMarkAll(auth: Auth) returns (request: Option<ApiRequest>)
      ensures request.Some? <==> HasToken(auth)
      ensures request.Some? ==> request.value == ApiRequest("POST", MarkAllReadPath, AuthHeader(auth))
    {
      if !HasToken(auth) {
        return None;
      }
      request := Some(ApiRequest("POST", MarkAllReadPath, AuthHeader(auth)));
    }

    /** `markAllAsRead` after the await: on success the counter is 0 and every
        entry is read, all else unchanged. */
    method CompleteMarkAll(outcome: Outcome<(), ()>) returns (effects: seq<Effect>)
      modifies this
      ensures isOpen == old(isOpen) && loading == old(loading)
      ensures outcome.Success? ==>
        unreadCount == 0 && notifications == AllRead(old(notifications)) && effects == []
      ensures outcome.Failure? ==>
        unreadCount == old(unreadCount) && notifications == old(notifications) && effects == [LogError("")]
    {
      if outcome.Success? {
        unreadCount := 0;
        notifications := AllRead(notifications);
        effects := [];
      } else {
        effects := [LogError("")];
      }
    }

    /** The "mark all read" button sits in the dropdown's header, so it
        shows only while the dropdown is open and something is unread. */
    function ShowsMarkAll(): (shown: bool)
      reads this
      ensures shown <==> isOpen && Badge(unreadCount).Some?
    {
      isOpen && unreadCount > 0
    }
  }

  /** Three unread notifications show the badge at once, but the "mark all
      read" button only after the dropdown is opened. */
  method MarkAllButtonScenario(auth: Auth)
  {
    var b := new NotificationBell();
    var effects := b.CompleteUnreadCount(Success(3));
    assert Badge(b.unreadCount).Some? && !b.ShowsMarkAll();
    var fetch := b.BeginToggle(auth);
    assert b.ShowsMarkAll();
  }
}
