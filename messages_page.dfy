/** The inbox (app/messages/page.tsx): the user's conversations, each listed
    under the name of the other participant with a preview of its last
    message. */
module MessagesPage {
  import opened Common
  import opened Types

  datatype ChatMessage = ChatMessage(content: string)

  datatype Conversation = Conversation(id: int, participants: seq<User>, lastMessage: Option<ChatMessage>, updatedAt: string)

  /** `GET /api/v1/chat/conversations/` */
  datatype ConversationsRequest = ConversationsRequest(authorization: string)

  const EmptyInbox: string := "暂无消息"
  const NoMessageYet: string := "开始聊天吧"

  /** `participants.find(p => p.username !== me)`: the first participant whose
      name differs, if any. */
  function FindOther(participants: seq<User>, me: Option<string>): (r: Option<User>)
    decreases |participants|
  {
    if participants == [] then None
    else if Some(participants[0].username) != me then Some(participants[0])
    else FindOther(participants[1..], me)
  }

  /** Position `i` holds the first participant whose name is not `me`. */
  predicate FirstOther(participants: seq<User>, me: Option<string>, i: int) {
    && 0 <= i < |participants|
    && Some(participants[i].username) != me
    && forall j :: 0 <= j < i ==> Some(participants[j].username) == me
  }

  /** The search finds the first participant other than `me`, and finds none
      only when every participant is `me`. */
  lemma {:induction false} FindOtherIsFirst(participants: seq<User>, me: Option<string>)
    ensures FindOther(participants, me).None? <==>
      forall i :: 0 <= i < |participants| ==> Some(participants[i].username) == me
    ensures FindOther(participants, me).Some? ==>
      exists i :: FirstOther(participants, me, i) && FindOther(participants, me) == Some(participants[i])
    decreases |participants|
  {
    if participants != [] && Some(participants[0].username) == me {
      FindOtherIsFirst(participants[1..], me);
      var r := FindOther(participants, me);
      if r.Some? {
        var i :| FirstOther(participants[1..], me, i) && r == Some(participants[1..][i]);
        assert forall j :: 0 <= j < i + 1 ==> Some(participants[j].username) == me by {
          forall j | 0 <= j < i + 1
            ensures Some(participants[j].username) == me
          {
            if j > 0 {
              assert participants[j] == participants[1..][j - 1];
            }
          }
        }
        assert r == Some(participants[i + 1]);
        assert FirstOther(participants, me, i + 1);
      } else {
        forall i | 0 <= i < |participants|
          ensures Some(participants[i].username) == me
        {
          if i > 0 {
            assert participants[i] == participants[1..][i - 1];
          }
        }
      }
    } else if participants != [] {
      assert FindOther(participants, me) == Some(participants[0]);
      assert FirstOther(participants, me, 0);
    }
  }

  /** `getOtherParticipant`: the other participant, falling back to the
      first one (a conversation with oneself); nothing for an empty list. */
  function OtherParticipant(participants: seq<User>, me: Option<User>): (r: Option<User>)
    ensures r.None? <==> participants == []
  {
    var name := if me.Some? then Some(me.value.username) else None;
    match FindOther(participants, name)
    case Some(u) => Some(u)
    case None => if participants == [] then None else Some(participants[0])
  }

  /** Signed in, the other participant is shown whenever there is one, and
      the user's own name only when the conversation has nobody else. */
  lemma OtherParticipantChoice(participants: seq<User>, me: User)
    requires participants != []
    ensures var r := OtherParticipant(participants, Some(me)).value;
      && r in participants
      && (r.username == me.username <==> forall i :: 0 <= i < |participants| ==> participants[i].username == me.username)
  {
    FindOtherIsFirst(participants, Some(me.username));
  }

  /** Signed out (`user?.username` is undefined), every participant differs,
      so the first one is shown. */
  lemma SignedOutShowsFirst(participants: seq<User>)
    requires participants != []
    ensures OtherParticipant(participants, None) == Some(participants[0])
  {
  }

  /** One inbox row: link target id, the other participant, the preview. */
  datatype Row = Row(conversationId: int, other: Option<User>, preview: string)

  function Preview(c: Conversation): (s: string)
    ensures c.lastMessage.Some? ==> s == c.lastMessage.value.content
    ensures c.lastMessage.None? ==> s == NoMessageYet
  {
    match c.lastMessage
    case Some(m) => m.content
    case None => NoMessageYet
  }

  function RowOf(c: Conversation, me: Option<User>): Row
  {
    Row(c.id, OtherParticipant(c.participants, me), Preview(c))
  }

  /** A row renders only when there is a participant to show and the name
      has a first character: `otherUser.username[0].toUpperCase()` throws on
      an undefined participant and on an empty name. */
  predicate RowRenders(c: Conversation, me: Option<User>) {
    var other := OtherParticipant(c.participants, me);
    other.Some? && other.value.username != ""
  }

  /** The list: a placeholder when empty, a render error when some row
      throws, else one row per conversation in the server's order. */
  datatype InboxView = EmptyInboxView | RenderError | Rows(rows: seq<Row>)

  function View(conversations: seq<Conversation>, me: Option<User>): (v: InboxView)
    ensures v == EmptyInboxView <==> conversations == []
    ensures v == RenderError <==>
      conversations != [] && exists i :: 0 <= i < |conversations| && !RowRenders(conversations[i], me)
    ensures v.Rows? ==> |v.rows| == |conversations|
    ensures v.Rows? ==> forall i :: 0 <= i < |conversations| ==> v.rows[i] == RowOf(conversations[i], me)
    ensures v.Rows? ==> forall i :: 0 <= i < |v.rows| ==> v.rows[i].other.Some? && v.rows[i].other.value.username != ""
  {
    if conversations == [] then EmptyInboxView
    else if exists i :: 0 <= i < |conversations| && !RowRenders(conversations[i], me) then RenderError
    else Rows(seq(|conversations|, i requires 0 <= i < |conversations| => RowOf(conversations[i], me)))
  }

  /** A conversation without participants breaks the whole list, wherever
      it stands. */
  lemma NoParticipantsBreaksInbox(conversations: seq<Conversation>, me: Option<User>, k: int)
    requires 0 <= k < |conversations| && conversations[k].participants == []
    ensures View(conversations, me) == RenderError
  {
    assert !RowRenders(conversations[k], me);
  }

  class MessagesPage {
    var conversations: seq<Conversation>

    constructor ()
      ensures conversations == []
    {
      conversations := [];
    }

    /** The effect on `[accessToken]` up to its await: only with a token. */
    method BeginFetch(auth: Auth) returns (request: Option<ConversationsRequest>)
      ensures request.Some? <==> HasToken(auth)
      ensures request.Some? ==> request.value == ConversationsRequest(AuthHeader(auth))
    {
      if !HasToken(auth) {
        return None;
      }
      request := Some(ConversationsRequest(AuthHeader(auth)));
    }

    /** After the GET: the reply replaces the list; a failure only logs. */
    method CompleteFetch(outcome: Outcome<seq<Conversation>, ()>) returns (effects: seq<Effect>)
      modifies this
      ensures outcome.Success? ==> conversations == outcome.payload && effects == []
      ensures outcome.Failure? ==> conversations == old(conversations) && effects == [LogError("")]
    {
      if outcome.Success? {
        conversations := outcome.payload;
        effects := [];
      } else {
        effects := [LogError("")];
      }
    }
  }
}
