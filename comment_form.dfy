/** The reply form (components/CommentForm.tsx): posts its draft under a given
    parent, clears the draft on success and tells the parent to refresh. */
module CommentForm {
  import opened Common
  import opened Types
  import CommentSection

  const PostFailedLabel: string := "发布评论失败"
  const PostFailedAlert: string := "发布评论失败。"

  class CommentForm {
    const postId: string
    const parentId: Option<int>
    var content: string

    constructor (postId: string, parentId: Option<int>)
      ensures this.postId == postId && this.parentId == parentId && content == ""
    {
      this.postId := postId;
      this.parentId := parentId;
      content := "";
    }

    method EditDraft(text: string)
      modifies this
      ensures content == text
    {
      content := text;
    }

    /** `handleSubmit` up to the await: silently nothing without a session;
        otherwise the draft is posted under exactly this form's parent.
        The browser submits the form only with every `required` input filled. */
    method BeginSubmit(auth: Auth) returns (request: Option<CommentSection.CreateCommentRequest>)
      requires content != ""
      ensures !auth.isAuthenticated || !HasToken(auth) ==> request == None
      ensures auth.isAuthenticated && HasToken(auth) ==>
        request == Some(CommentSection.CreateCommentRequest(postId, content, parentId, AuthHeader(auth)))
    {
      if !auth.isAuthenticated || !HasToken(auth) {
        return None;
      }
      request := Some(CommentSection.CreateCommentRequest(postId, content, parentId, AuthHeader(auth)));
    }

    /** `handleSubmit` after the await. `posted` says whether
        `onCommentPosted` is called (once) by this step. */
    method CompleteSubmit(outcome: Outcome<(), ()>) returns (posted: bool, effects: seq<Effect>)
      modifies this
      ensures posted <==> outcome.Success?
      ensures outcome.Success? ==> content == "" && effects == []
      ensures outcome.Failure? ==>
        content == old(content) && effects == [LogError(PostFailedLabel), Alert(PostFailedAlert)]
    {
      if outcome.Success? {
        content := "";
        posted := true;
        effects := [];
      } else {
        posted := false;
        effects := [LogError(PostFailedLabel), Alert(PostFailedAlert)];
      }
    }
  }

  /** Signed-out visitors see the login hint instead of the form. */
  predicate ShowsForm(auth: Auth): (shown: bool)
    ensures !auth.isAuthenticated ==> !shown
    ensures auth.isAuthenticated ==> shown
  {
    auth.isAuthenticated
  }
}
