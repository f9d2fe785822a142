/** The follower/following list dialog (components/UserListModal.tsx): loads
    the list from a given endpoint each time it is opened and distinguishes a
    list its owner has hidden (403) from other failures. */
module UserListModal {
  import opened Common
  import opened Types
  import Url

  /** `GET ${apiUrl}${endpoint}`; the header is present only with a token. */
  datatype UserListRequest = UserListRequest(url: string, authorization: Option<string>)

  /** A rejection: the HTTP status when the server answered at all. */
  datatype FetchError = FetchError(status: Option<int>)

  const HiddenListMessage: string := "该用户已隐藏此列表。"
  const LoadFailedMessage: string := "加载失败。"

  /** One listed user: the resolved avatar (or none, showing the initial)
      and the profile link. */
  datatype Row = Row(key: int, username: string, avatarUrl: Option<string>, profilePath: string)

  /** What the dialog body shows, in the order it tests these.
      `RenderError` stands for the exception thrown while rendering a row. */
  datatype Body = Closed | Loading | ErrorBox(message: string) | EmptyList | RenderError | Rows(rows: seq<Row>)

  function RowOf(u: User, apiUrl: Option<string>): (r: Row)
    ensures r.key == u.id && r.username == u.username
    ensures r.avatarUrl == Url.AvatarUrl(u.avatar, apiUrl)
    ensures r.profilePath == "/users/" + u.username
  {
    Row(u.id, u.username, Url.AvatarUrl(u.avatar, apiUrl), "/users/" + u.username)
  }

  function RowsOf(users: seq<User>, apiUrl: Option<string>): (rs: seq<Row>)
    ensures |rs| == |users|
    ensures forall i :: 0 <= i < |users| ==> rs[i] == RowOf(users[i], apiUrl)
  {
    if users == [] then [] else [RowOf(users[0], apiUrl)] + RowsOf(users[1..], apiUrl)
  }

  /** A user's row renders without throwing: either it has an avatar, or
      it shows the name's first letter, which an empty name does not have
      (`u.username[0]` is `undefined` there). */
  predicate RowRenders(u: User, apiUrl: Option<string>) {
    Url.AvatarUrl(u.avatar, apiUrl).Some? || u.username != ""
  }

  /** The message for a failed load: 403 means the list is private. */
  function ErrorMessage(e: FetchError): (m: string)
    ensures m == HiddenListMessage <==> e.status == Some(403)
    ensures m == HiddenListMessage || m == LoadFailedMessage
  {
    if e.status == Some(403) then HiddenListMessage else LoadFailedMessage
  }

  class UserListModal {
    const endpoint: string
    var users: seq<User>
    var loading: bool
    var error: Option<string>

    constructor (endpoint: string)
      ensures this.endpoint == endpoint && users == [] && !loading && error == None
    {
      this.endpoint := endpoint;
      users := [];
      loading := false;
      error := None;
    }

    /** The effect on `[isOpen, endpoint, accessToken, apiUrl]` up to its
        await: nothing while closed; otherwise loading starts, the old error
        is cleared, the old list stays until the reply. */
    method BeginFetch(isOpen: bool, auth: Auth, apiUrl: Option<string>) returns (request: Option<UserListRequest>)
      modifies this
      ensures users == old(users)
      ensures !isOpen ==> request == None && loading == old(loading) && error == old(error)
      ensures isOpen ==> loading && error == None && request.Some?
      ensures isOpen ==> request.value.url == Url.Interpolate(apiUrl) + endpoint
      ensures isOpen ==> (request.value.authorization.Some? <==> HasToken(auth))
      ensures isOpen && HasToken(auth) ==> request.value.authorization == Some(AuthHeader(auth))
    {
      if !isOpen {
        return None;
      }
      loading := true;
      error := None;
      var header := if HasToken(auth) then Some(AuthHeader(auth)) else None;
      request := Some(UserListRequest(Url.Interpolate(apiUrl) + endpoint, header));
    }

    /** After the reply: the list is `results` if present else the raw reply;
        a failure keeps the old list and sets the message (logging all but a
        403). Loading ends either way. */
    method CompleteFetch(outcome: Outcome<ListPayload<User>, FetchError>) returns (effects: seq<Effect>)
      modifies this
      ensures !loading
      ensures outcome.Success? ==> users == ResultsOrData(outcome.payload) && error == old(error) && effects == []
      ensures outcome.Failure? ==> users == old(users) && error == Some(ErrorMessage(outcome.err))
      ensures outcome.Failure? ==> (effects == [] <==> outcome.err.status == Some(403))
      ensures outcome.Failure? && outcome.err.status != Some(403) ==> effects == [LogError("")]
    {
      if outcome.Success? {
        users := ResultsOrData(outcome.payload);
        effects := [];
      } else {
        if outcome.err.status == Some(403) {
          effects := [];
        } else {
          effects := [LogError("")];
        }
        error := Some(ErrorMessage(outcome.err));
      }
      loading := false;
    }

    /** The dialog body: nothing while closed, then the spinner, the error,
        the empty-list text, or one row per user. */
    function View(isOpen: bool, apiUrl: Option<string>): (b: Body)
      reads this
      ensures b == Closed <==> !isOpen
      ensures isOpen && loading ==> b == Loading
      ensures isOpen && !loading && error.Some? ==> b == ErrorBox(error.value)
      ensures b.Rows? ==> |users| > 0 && b.rows == RowsOf(users, apiUrl)
      ensures b.Rows? ==> forall i :: 0 <= i < |b.rows| ==> b.rows[i].avatarUrl.Some? || b.rows[i].username != ""
      ensures b == EmptyList <==> isOpen && !loading && error.None? && users == []
      ensures b == RenderError <==>
        isOpen && !loading && error.None? && exists i :: 0 <= i < |users| && !RowRenders(users[i], apiUrl)
    {
      if !isOpen then Closed
      else if loading then Loading
      else if error.Some? then ErrorBox(error.value)
      else if |users| == 0 then EmptyList
      else if exists i :: 0 <= i < |users| && !RowRenders(users[i], apiUrl) then RenderError
      else Rows(RowsOf(users, apiUrl))
    }
  }

  /** One listed user with neither a name nor an avatar makes the whole
      dialog fail to render. */
  lemma NamelessUserBreaksList(m: UserListModal, apiUrl: Option<string>, k: int)
    requires !m.loading && m.error.None?
    requires 0 <= k < |m.users| && m.users[k].username == "" && !Truthy(m.users[k].avatar)
    ensures m.View(true, apiUrl) == RenderError
  {
    assert !RowRenders(m.users[k], apiUrl);
  }

  /** A private list shows its message and never the previous rows; reopening
      clears it again. */
  method HiddenListScenario(auth: Auth, apiUrl: Option<string>)
  {
    var m := new UserListModal("/profiles/mike/followers/");
    var req := m.BeginFetch(true, auth, apiUrl);
    assert m.View(true, apiUrl) == Loading;
    var eff := m.CompleteFetch(Failure(FetchError(Some(403))));
    assert m.View(true, apiUrl) == ErrorBox(HiddenListMessage) && eff == [];
    req := m.BeginFetch(true, auth, apiUrl);
    eff := m.CompleteFetch(Success(Paged([])));
    assert m.View(true, apiUrl) == EmptyList;
  }
}
