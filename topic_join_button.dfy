/** The join/leave button of a topic (components/TopicJoinButton.tsx): a
    two-state switch that flips only after the server confirms, guarded by
    `isLoading`. */
module TopicJoinButton {
  import opened Common
  import opened Types

  datatype Action = Join | Leave

  /** The endpoint: `leave` when joined, else `join`. */
  function ActionFor(isJoined: bool): (a: Action)
    ensures a == Leave <==> isJoined
  {
    if isJoined then Leave else Join
  }

  function ActionName(a: Action): (s: string)
    ensures s == "join" || s == "leave"
    ensures s == "leave" <==> a == Leave
  {
    if a == Leave then "leave" else "join"
  }

  /** `POST /topics/{slug}/{action}/` with an empty body. */
  datatype JoinRequest = JoinRequest(slug: string, action: Action, authorization: string)

  /** What the suspended handler captured: the `isJoined` it rendered with. */
  datatype PendingToggle = PendingToggle(wasJoined: bool, action: Action)

  const LoginPrompt: string := "加入话题需要先登录，是否去登录？"
  const FailedAlert: string := "操作失败，请重试。"

  /** The button text. */
  function Label(isLoading: bool, isJoined: bool): (s: string)
    ensures isLoading ==> s == "..."
    ensures !isLoading && isJoined ==> s == "已加入"
    ensures !isLoading && !isJoined ==> s == "加入"
  {
    if isLoading then "..." else if isJoined then "已加入" else "加入"
  }

  class TopicJoinButton {
    const slug: string
    var isJoined: bool
    var isLoading: bool

    /** `initialIsJoined` defaults to false when the prop is omitted. */
    constructor (slug: string, initialIsJoined: Option<bool>)
      ensures this.slug == slug && !isLoading
      ensures isJoined <==> initialIsJoined == Some(true)
    {
      this.slug := slug;
      isJoined := initialIsJoined == Some(true);
      isLoading := false;
    }

    /** `handleJoinToggle` up to the await. Signed out: ask, maybe go to the
        login page, change nothing. While loading: nothing. */
    method BeginToggle(auth: Auth, confirmed: bool)
      returns (request: Option<JoinRequest>, pending: Option<PendingToggle>, effects: seq<Effect>)
      modifies this
      ensures isJoined == old(isJoined)
      ensures request.Some? <==> pending.Some?
      ensures !auth.isAuthenticated ==>
        && request == None && isLoading == old(isLoading)
        && effects == [Confirm(LoginPrompt)] + (if confirmed then [Navigate("/login")] else [])
      ensures auth.isAuthenticated && old(isLoading) ==> request == None && isLoading && effects == []
      ensures auth.isAuthenticated && !old(isLoading) ==>
        && isLoading && effects == []
        && request == Some(JoinRequest(slug, ActionFor(isJoined), AuthHeader(auth)))
        && pending == Some(PendingToggle(isJoined, ActionFor(isJoined)))
    {
      if !auth.isAuthenticated {
        effects := [Confirm(LoginPrompt)];
        if confirmed {
          effects := effects + [Navigate("/login")];
        }
        return None, None, effects;
      }
      if isLoading {
        return None, None, [];
      }
      isLoading := true;
      var action := ActionFor(isJoined);
      request := Some(JoinRequest(slug, action, AuthHeader(auth)));
      pending := Some(PendingToggle(isJoined, action));
      effects := [];
    }

    /** `handleJoinToggle` after the await: success sets the opposite of the
        captured state; failure keeps it. Loading ends either way. */
    method CompleteToggle(pending: PendingToggle, outcome: Outcome<(), ()>) returns (effects: seq<Effect>)
      modifies this
      ensures !isLoading
      ensures outcome.Success? ==> isJoined == !pending.wasJoined && effects == []
      ensures outcome.Failure? ==>
        && isJoined == old(isJoined)
        && effects == [LogError("Failed to " + ActionName(pending.action) + " topic"), Alert(FailedAlert)]
    {
      if outcome.Success? {
        isJoined := !pending.wasJoined;
        effects := [];
      } else {
        effects := [LogError("Failed to " + ActionName(pending.action) + " topic"), Alert(FailedAlert)];
      }
      isLoading := false;
    }
  }

  /** A confirmed round trip flips the state exactly once; a second click
      during the round trip sends nothing. */
  method JoinScenario(auth: Auth)
    requires auth.isAuthenticated
  {
    var b := new TopicJoinButton("hiking", None);
    var req, pending, eff := b.BeginToggle(auth, false);
    assert req.value.action == Join;
    var req2, pending2, eff2 := b.BeginToggle(auth, false);
    assert req2 == None && !b.isJoined;
    eff := b.CompleteToggle(pending.value, Success(()));
    assert b.isJoined && !b.isLoading;
    req, pending, eff := b.BeginToggle(auth, false);
    assert req.value.action == Leave;
    eff := b.CompleteToggle(pending.value, Failure(()));
    assert b.isJoined && !b.isLoading;
  }
}
