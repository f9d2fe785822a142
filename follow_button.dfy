/** The follow/unfollow button on a profile (components/FollowButton.tsx): a
    two-state switch that flips only after the server confirms, guarded by
    `isLoading`, resynchronised whenever the `initialIsFollowed` prop changes,
    hidden on one's own profile, and reporting each confirmed change to the
    parent through the optional `onFollowChange` callback. */
module FollowButton {
  import opened Common
  import opened Types

  /** `POST /profiles/{username}/follow/`: the same request follows and
      unfollows. */
  datatype FollowRequest = FollowRequest(username: string, authorization: string)

  /** What the suspended handler captured: the `isFollowed` it rendered with. */
  datatype PendingFollow = PendingFollow(wasFollowed: bool)

  const LoginPrompt: string := "关注用户需要先登录，是否去登录？"
  const FailedLabel: string := "Failed to follow user"
  const FailedAlert: string := "操作失败，请重试。"

  /** The button text. */
  function Label(isLoading: bool, isFollowed: bool): (s: string)
    ensures isLoading ==> s == "..."
    ensures !isLoading && isFollowed ==> s == "已关注"
    ensures !isLoading && !isFollowed ==> s == "关注"
  {
    if isLoading then "..." else if isFollowed then "已关注" else "关注"
  }

  class FollowButton {
    const username: string
    const hasCallback: bool
    var isFollowed: bool
    var isLoading: bool

    /** `initialIsFollowed` defaults to false when the prop is omitted;
        `hasCallback` says whether `onFollowChange` was passed. */
    constructor (username: string, initialIsFollowed: Option<bool>, hasCallback: bool)
      ensures this.username == username && this.hasCallback == hasCallback
      ensures (isFollowed <==> initialIsFollowed == Some(true)) && !isLoading
    {
      this.username := username;
      this.hasCallback := hasCallback;
      isFollowed := initialIsFollowed == Some(true);
      isLoading := false;
    }

    /** On the signed-in user's own profile the button renders nothing. */
    function Hidden(auth: Auth): (hidden: bool)
      ensures hidden <==> auth.user.Some? && auth.user.value.username == username
    {
      match auth.user
      case Some(u) => u.username == username
      case None => false
    }

    /** The effect on `[initialIsFollowed]`: a new prop value overwrites the
        local state. */
    method SyncProp(initialIsFollowed: Option<bool>)
      modifies this
      ensures (isFollowed <==> initialIsFollowed == Some(true)) && isLoading == old(isLoading)
    {
      isFollowed := initialIsFollowed == Some(true);
    }

    /** `handleFollowToggle` up to the await. Signed out: ask, maybe go to the
        login page, change nothing. While loading: nothing. */
    method BeginToggle(auth: Auth, confirmed: bool)
      returns (request: Option<FollowRequest>, pending: Option<PendingFollow>, effects: seq<Effect>)
      modifies this
      ensures isFollowed == old(isFollowed)
      ensures request.Some? <==> pending.Some?
      ensures !auth.isAuthenticated ==>
        && request == None && isLoading == old(isLoading)
        && effects == [Confirm(LoginPrompt)] + (if confirmed then [Navigate("/login")] else [])
      ensures auth.isAuthenticated && old(isLoading) ==> request == None && isLoading && effects == []
      ensures auth.isAuthenticated && !old(isLoading) ==>
        && isLoading && effects == []
        && request == Some(FollowRequest(username, AuthHeader(auth)))
        && pending == Some(PendingFollow(isFollowed))
    {
      if !auth.isAuthenticated {
        effects := [Confirm(LoginPrompt)];
        if confirmed {
          effects := effects + [Navigate("/login")];
        }
        return None, None, effects;
      }
      if isLoading {
        return None, None, [];
      }
      isLoading := true;
      request := Some(FollowRequest(username, AuthHeader(auth)));
      pending := Some(PendingFollow(isFollowed));
      effects := [];
    }

    /** `handleFollowToggle` after the await. `notified` is the value passed
        to `onFollowChange`, if it is called. */
    method CompleteToggle(pending: PendingFollow, outcome: Outcome<(), ()>)
      returns (notified: Option<bool>, effects: seq<Effect>)
      modifies this
      ensures !isLoading
      ensures outcome.Success? ==>
        && isFollowed == !pending.wasFollowed && effects == []
        && notified == (if hasCallback then Some(isFollowed) else None)
      ensures outcome.Failure? ==>
        && isFollowed == old(isFollowed) && notified == None
        && effects == [LogError(FailedLabel), Alert(FailedAlert)]
    {
      if outcome.Success? {
        var newStatus := !pending.wasFollowed;
        isFollowed := newStatus;
        notified := if hasCallback then Some(newStatus) else None;
        effects := [];
      } else {
        notified := None;
        effects := [LogError(FailedLabel), Alert(FailedAlert)];
      }
      isLoading := false;
    }
  }

  /** The flip is computed from the captured state: a prop resync that lands
      while the request is in flight is overwritten by the confirmed value. */
  method ResyncDuringRequest(auth: Auth)
    requires auth.isAuthenticated
  {
    var b := new FollowButton("mike", Some(false), true);
    var req, pending, eff := b.BeginToggle(auth, false);
    b.SyncProp(Some(true));
    var notified, eff2 := b.CompleteToggle(pending.value, Success(()));
    assert b.isFollowed && notified == Some(true);
  }
}
