/** The comment area of a post (components/CommentSection.tsx): the list of
    top-level comments loaded on mount, a draft, and the submit handler that
    appends the server's new comment to the list. */
module CommentSection {
  import opened Common
  import opened Types
  import CommentTree

  /** The POST body `{ content, parent }` of `create_comment`. */
  datatype CreateCommentRequest = CreateCommentRequest(postId: string, content: string, parent: Option<int>, authorization: string)

  /** What the suspended submit closure captured: the list as it was rendered
      when the form was submitted (`[...comments, response.data]`). */
  datatype PendingSubmit = PendingSubmit(snapshot: seq<Comment>)

  /** The list area: a placeholder when empty, else every thread rendered at
      depth 0 in list order, each comment of each thread on exactly one line. */
  datatype SectionView = NoCommentsYet | Threads(lines: seq<CommentTree.Line>)

  function View(comments: seq<Comment>): (v: SectionView)
    ensures v.NoCommentsYet? <==> comments == []
    ensures v.Threads? ==> |v.lines| == CommentTree.SizeAll(comments)
    ensures v.Threads? ==> CommentTree.LineIds(v.lines) == CommentTree.IdsAll(comments)
  {
    CommentTree.RenderAllSize(comments, 0);
    CommentTree.RenderAllIds(comments, 0);
    if |comments| > 0 then Threads(CommentTree.RenderAll(comments, 0)) else NoCommentsYet
  }

  const LoginToComment: string := "请登录后发表评论。"
  const PostFailedLabel: string := "发布评论失败"
  const PostFailedAlert: string := "发布评论失败。"
  const FetchFailedLabel: string := "无法获取评论"

  class CommentSection {
    const postId: string
    var comments: seq<Comment>
    var newComment: string

    constructor (postId: string)
      ensures this.postId == postId && comments == [] && newComment == ""
    {
      this.postId := postId;
      comments := [];
      newComment := "";
    }

    /** The textarea's `onChange`. */
    method EditDraft(text: string)
      modifies this
      ensures newComment == text && comments == old(comments)
    {
      newComment := text;
    }

    /** `fetchComments` after its GET: the response replaces the list; a
        failure only logs. */
    method CompleteFetch(outcome: Outcome<seq<Comment>, ()>) returns (effects: seq<Effect>)
      modifies this
      ensures newComment == old(newComment)
      ensures outcome.Success? ==> comments == outcome.payload && effects == []
      ensures outcome.Failure? ==> comments == old(comments) && effects == [LogError(FetchFailedLabel)]
    {
      if outcome.Success? {
        comments := outcome.payload;
        effects := [];
      } else {
        effects := [LogError(FetchFailedLabel)];
      }
    }

    /** `handleSubmitComment` up to the await. A new comment is always sent
        as a top-level one.
        The browser submits the form only with every `required` input filled. */
    method BeginSubmit(auth: Auth) returns (request: Option<CreateCommentRequest>, pending: Option<PendingSubmit>, effects: seq<Effect>)
      requires newComment != ""
      modifies this
      ensures comments == old(comments) && newComment == old(newComment)
      ensures !auth.isAuthenticated || !HasToken(auth) ==>
        request == None && pending == None && effects == [Alert(LoginToComment)]
      ensures auth.isAuthenticated && HasToken(auth) ==>
        && request == Some(CreateCommentRequest(postId, newComment, None, AuthHeader(auth)))
        && pending == Some(PendingSubmit(comments)) && effects == []
    {
      if !auth.isAuthenticated || !HasToken(auth) {
        return None, None, [Alert(LoginToComment)];
      }
      request := Some(CreateCommentRequest(postId, newComment, None, AuthHeader(auth)));
      pending := Some(PendingSubmit(comments));
      effects := [];
    }

    /** `handleSubmitComment` after the await: the server's comment is
        appended to the captured list and the draft is cleared; a failure
        leaves both alone. */
    method CompleteSubmit(pending: PendingSubmit, outcome: Outcome<Comment, ()>) returns (effects: seq<Effect>)
      modifies this
      ensures outcome.Success? ==>
        comments == pending.snapshot + [outcome.payload] && newComment == "" && effects == []
      ensures outcome.Failure? ==>
        && comments == old(comments) && newComment == old(newComment)
        && effects == [LogError(PostFailedLabel), Alert(PostFailedAlert)]
    {
      if outcome.Success? {
        comments := pending.snapshot + [outcome.payload];
        newComment := "";
        effects := [];
      } else {
        effects := [LogError(PostFailedLabel), Alert(PostFailedAlert)];
      }
    }
  }

  /** Appending keeps every earlier entry in place and adds exactly one at the
      end, even when a comment with the same id is already listed. */
  lemma AppendKeepsOrder(snapshot: seq<Comment>, c: Comment)
    ensures |snapshot + [c]| == |snapshot| + 1
    ensures (snapshot + [c])[..|snapshot|] == snapshot && (snapshot + [c])[|snapshot|] == c
    ensures multiset(snapshot + [c])[c] == multiset(snapshot)[c] + 1
  {
  }

  /** Without a session nothing is sent and nothing changes; with one, a
      successful post leaves the list one longer with the server's comment
      last. */
  method SubmitScenario(auth: Auth, created: Comment)
    requires auth.isAuthenticated && HasToken(auth)
  {
    var s := new CommentSection("42");
    var eff := s.CompleteFetch(Success([created]));
    s.EditDraft("hello");
    var req, pending, eff2 := s.BeginSubmit(auth);
    assert req.value.content == "hello" && req.value.parent == None;
    eff := s.CompleteSubmit(pending.value, Success(created));
    assert s.comments == [created, created] && s.newComment == "";
  }
}
