/** The optimistic up/down vote control of a post (components/VoteButtons.tsx).
    The local score and vote change at once; the server's score then
    overwrites the estimate, and a rejected request restores the values the
    component was mounted with. The `isLoading` flag is the only guard
    against overlapping requests. */
module VoteButtons {
  import opened Common
  import opened Types

  datatype Direction = Up | Down

  /** The number a direction stands for: 1 or -1. */
  function Value(d: Direction): (n: int)
    ensures n == 1 || n == -1
    ensures (n == 1) <==> d == Up
  {
    if d == Up then 1 else -1
  }

  /** A vote's contribution to the score; no vote (null) counts 0. */
  function VoteValue(v: Option<Direction>): (n: int)
    ensures v == None <==> n == 0
    ensures v.Some? ==> n == Value(v.value)
  {
    match v
    case None => 0
    case Some(d) => Value(d)
  }

  /** The vote after pressing `d`: pressing the current vote clears it,
      anything else makes `d` the vote. */
  function NextVote(v: Option<Direction>, d: Direction): (r: Option<Direction>)
    ensures r == None <==> v == Some(d)
    ensures r != None ==> r == Some(d)
  {
    if v == Some(d) then None else Some(d)
  }

  /** The tentative (score, vote) after pressing `d`: the score moves by the
      difference of the new and the old vote's values. */
  function Pressed(score: int, v: Option<Direction>, d: Direction): (r: (int, Option<Direction>))
    ensures r.1 == NextVote(v, d)
    ensures r.0 - score == VoteValue(r.1) - VoteValue(v)
  {
    var nv := NextVote(v, d);
    (score + VoteValue(nv) - VoteValue(v), nv)
  }

  /** Un-vote: pressing the current direction subtracts it and clears the vote. */
  lemma PressSameCancels(score: int, d: Direction)
    ensures Pressed(score, Some(d), d) == (score - Value(d), None)
  {
  }

  /** Switching from the opposite vote: score - old + new. */
  lemma PressOppositeSwitches(score: int, previous: Direction, d: Direction)
    requires previous != d
    ensures Pressed(score, Some(previous), d) == (score - Value(previous) + Value(d), Some(d))
  {
  }

  /** First vote: the score gains the direction. */
  lemma PressFromNoVote(score: int, d: Direction)
    ensures Pressed(score, None, d) == (score + Value(d), Some(d))
  {
  }

  /** Pressing the same direction twice restores score and vote, unless the
      starting vote was the opposite one: then the second press clears the
      vote and the score ends one step past the start. */
  lemma PressTwice(score: int, v: Option<Direction>, d: Direction)
    ensures var once := Pressed(score, v, d);
            var twice := Pressed(once.0, once.1, d);
            (v != Some(d) && v != None ==> twice == (score - VoteValue(v), None)) &&
            (v == None || v == Some(d) ==> twice == (score, v))
  {
  }

  /** The look of one button (`buttonStyle`): its colour, weight and cursor. */
  datatype ButtonStyle = ButtonStyle(color: string, bold: bool, waitCursor: bool)

  function Style(userVote: Option<Direction>, isLoading: bool, button: Direction): (s: ButtonStyle)
    ensures s.bold <==> userVote == Some(button)
    ensures s.color != "#333" <==> userVote == Some(button)
    ensures s.bold ==> s.color == (if button == Up then "green" else "red")
    ensures s.waitCursor <==> isLoading
  {
    var highlighted := userVote == Some(button);
    ButtonStyle(if highlighted then (if button == Up then "green" else "red") else "#333",
                highlighted, isLoading)
  }

  /** At most one of the two buttons is highlighted. */
  lemma AtMostOneHighlighted(userVote: Option<Direction>, isLoading: bool)
    ensures !(Style(userVote, isLoading, Up).bold && Style(userVote, isLoading, Down).bold)
  {
  }

  /** The POST body `{ vote_type }` and its authorization header. */
  datatype VoteRequest = VoteRequest(postId: int, voteType: int, authorization: string)

  const LoginFirst: string := "请先登录再投票！"
  const VoteFailedLabel: string := "投票失败"
  const VoteFailedAlert: string := "投票失败，请重试。"

  class VoteButtons {
    const postId: int
    const initialScore: int
    const initialUserVote: Option<Direction>
    var score: int
    var userVote: Option<Direction>
    var isLoading: bool

    constructor (postId: int, initialScore: int, initialUserVote: Option<Direction>)
      ensures this.postId == postId && this.initialScore == initialScore
      ensures this.initialUserVote == initialUserVote
      ensures score == initialScore && userVote == initialUserVote && !isLoading
    {
      this.postId := postId;
      this.initialScore := initialScore;
      this.initialUserVote := initialUserVote;
      score := initialScore;
      userVote := initialUserVote;
      isLoading := false;
    }

    /** `handleVote` up to the await: guards, optimistic update, request. */
    method BeginVote(newVoteType: Direction, auth: Auth) returns (request: Option<VoteRequest>, effects: seq<Effect>)
      modifies this
      ensures !auth.isAuthenticated ==>
        && request == None && effects == [Alert(LoginFirst), Navigate("/login")]
        && score == old(score) && userVote == old(userVote) && isLoading == old(isLoading)
      ensures auth.isAuthenticated && old(isLoading) ==>
        && request == None && effects == []
        && score == old(score) && userVote == old(userVote) && isLoading
      ensures auth.isAuthenticated && !old(isLoading) ==>
        && isLoading && effects == []
        && userVote == NextVote(old(userVote), newVoteType)
        && score == old(score) + VoteValue(userVote) - VoteValue(old(userVote))
        && request == Some(VoteRequest(postId, Value(newVoteType), AuthHeader(auth)))
    {
      if !auth.isAuthenticated {
        return None, [Alert(LoginFirst), Navigate("/login")];
      }
      if isLoading {
        return None, [];
      }
      isLoading := true;
      var newScore := score;
      var newLocalUserVote := userVote;
      if userVote == Some(newVoteType) {
        newScore := newScore - Value(newVoteType);
        newLocalUserVote := None;
      } else if userVote != None {
        newScore := newScore - Value(userVote.value);
        newScore := newScore + Value(newVoteType);
        newLocalUserVote := Some(newVoteType);
      } else {
        newScore := newScore + Value(newVoteType);
        newLocalUserVote := Some(newVoteType);
      }
      score := newScore;
      userVote := newLocalUserVote;
      request := Some(VoteRequest(postId, Value(newVoteType), AuthHeader(auth)));
      effects := [];
    }

    /** `handleVote` after the await: the server's score replaces the
        estimate; a failure restores the mount-time props. */
    method CompleteVote(outcome: Outcome<int, ()>) returns (effects: seq<Effect>)
      modifies this
      ensures !isLoading
      ensures outcome.Success? ==>
        score == outcome.payload && userVote == old(userVote) && effects == []
      ensures outcome.Failure? ==>
        && score == initialScore && userVote == initialUserVote
        && effects == [LogError(VoteFailedLabel), Alert(VoteFailedAlert)]
    {
      if outcome.Success? {
        score := outcome.payload;
        effects := [];
      } else {
        score := initialScore;
        userVote := initialUserVote;
        effects := [LogError(VoteFailedLabel), Alert(VoteFailedAlert)];
      }
      isLoading := false;
    }
  }

  /** Confirmed score 10, no vote: up-vote shows 11, the server confirms 11;
      up-vote again shows 10 with no vote, the server confirms 10. */
  method UpvoteThenCancel(auth: Auth)
    requires auth.isAuthenticated
  {
    var b := new VoteButtons(7, 10, None);
    var req, eff := b.BeginVote(Up, auth);
    assert b.score == 11 && b.userVote == Some(Up) && req.value.voteType == 1;
    eff := b.CompleteVote(Success(11));
    assert b.score == 11 && b.userVote == Some(Up) && !b.isLoading;
    req, eff := b.BeginVote(Up, auth);
    assert b.score == 10 && b.userVote == None && req.value.voteType == 1;
    eff := b.CompleteVote(Success(10));
    assert b.score == 10 && b.userVote == None;
  }

  /** A second click while the first request is pending changes nothing. */
  method ClickWhileLoading(auth: Auth)
    requires auth.isAuthenticated
  {
    var b := new VoteButtons(7, 5, None);
    var req, eff := b.BeginVote(Up, auth);
    req, eff := b.BeginVote(Down, auth);
    assert req == None && b.score == 6 && b.userVote == Some(Up);
  }

  /** A failure rolls back to the mount-time props, not to the last
      server-confirmed state: after a confirmed up-vote (score 6), a failed
      down-vote leaves score 5 and no vote. */
  method RollbackForgetsConfirmedVote(auth: Auth)
    requires auth.isAuthenticated
  {
    var b := new VoteButtons(7, 5, None);
    var req, eff := b.BeginVote(Up, auth);
    eff := b.CompleteVote(Success(6));
    req, eff := b.BeginVote(Down, auth);
    assert b.score == 4 && b.userVote == Some(Down);
    eff := b.CompleteVote(Failure(()));
    assert b.score == 5 && b.userVote == None;
  }
}
