/** The account settings page (app/settings/page.tsx): avatar upload with a
    local preview, password change with a confirmation check and a delayed
    logout, one shared message banner, and a delayed redirect for visitors
    without a session. */
module SettingsPage {
  import opened Common
  import opened Types

  datatype MessageKind = SuccessMessage | ErrorMessage

  /** The banner `{ text, type }`. */
  datatype Message = Message(text: string, kind: MessageKind)

  /** `PATCH /api/v1/auth/users/me/` with the avatar file. */
  datatype AvatarUpload = AvatarUpload(avatar: File, authorization: string)

  /** `POST /api/v1/auth/users/set_password/` */
  datatype SetPasswordRequest = SetPasswordRequest(currentPassword: string, newPassword: string, reNewPassword: string, authorization: string)

  /** A rejected password change: whether the reply names `current_password`. */
  datatype PasswordError = PasswordError(currentPasswordRejected: bool)

  const AvatarSaved: Message := Message("头像更新成功！刷新页面可见最新效果。", SuccessMessage)
  const AvatarFailed: Message := Message("头像更新失败，请重试。", ErrorMessage)
  const PasswordMismatch: Message := Message("两次输入的新密码不一致！", ErrorMessage)
  const PasswordChanged: Message := Message("密码修改成功！请重新登录。", SuccessMessage)
  const WrongCurrentPassword: Message := Message("当前密码错误。", ErrorMessage)
  const PasswordFailed: Message := Message("密码修改失败，请检查输入。", ErrorMessage)

  /** The delays, in milliseconds, of the redirect check and of the logout
      after a password change. */
  const RedirectDelay: nat := 1000
  const LogoutDelay: nat := 2000

  /** The banner after a rejected password change. */
  function PasswordErrorMessage(e: PasswordError): (m: Message)
    ensures m.kind == ErrorMessage
    ensures m == WrongCurrentPassword <==> e.currentPasswordRejected
  {
    if e.currentPasswordRejected then WrongCurrentPassword else PasswordFailed
  }

  /** Until the user record arrives only a loading text renders. */
  predicate ShowsPage(auth: Auth): (shown: bool)
    ensures auth.user.None? ==> !shown
    ensures auth.user.Some? ==> shown
  {
    auth.user.Some?
  }

  /** The redirect check once its timer fires: only a visitor with neither a
      user nor a token is sent to the login page. */
  function RedirectCheck(auth: Auth): (effects: seq<Effect>)
    ensures effects == [Navigate("/login")] <==> auth.user.None? && !HasToken(auth)
    ensures effects != [] ==> effects == [Navigate("/login")]
  {
    if auth.user.None? && !HasToken(auth) then [Navigate("/login")] else []
  }

  class SettingsPage {
    var avatar: Option<File>
    var previewUrl: Option<string>
    var uploading: bool
    var currentPassword: string
    var newPassword: string
    var confirmPassword: string
    var passwordLoading: bool
    var message: Option<Message>

    constructor ()
      ensures avatar == None && previewUrl == None && !uploading && message == None
      ensures currentPassword == "" && newPassword == "" && confirmPassword == "" && !passwordLoading
    {
      avatar, previewUrl, uploading := None, None, false;
      currentPassword, newPassword, confirmPassword := "", "", "";
      passwordLoading := false;
      message := None;
    }

    /** The effect on `[user]`: a user with an avatar shows it as the
        preview; otherwise the preview is left as it is. */
    method SyncUser(auth: Auth)
      modifies this
      ensures avatar == old(avatar) && message == old(message) && uploading == old(uploading)
      ensures currentPassword == old(currentPassword) && newPassword == old(newPassword) && confirmPassword == old(confirmPassword)
      ensures passwordLoading == old(passwordLoading)
      ensures auth.user.Some? && Truthy(auth.user.value.avatar) ==> previewUrl == auth.user.value.avatar
      ensures !(auth.user.Some? && Truthy(auth.user.value.avatar)) ==> previewUrl == old(previewUrl)
    {
      if auth.user.Some? && Truthy(auth.user.value.avatar) {
        previewUrl := auth.user.value.avatar;
      }
    }

    method EditPasswords(current: string, next: string, confirm: string)
      modifies this
      ensures currentPassword == current && newPassword == next && confirmPassword == confirm
      ensures message == old(message) && passwordLoading == old(passwordLoading)
      ensures avatar == old(avatar) && uploading == old(uploading) && previewUrl == old(previewUrl)
    {
      currentPassword, newPassword, confirmPassword := current, next, confirm;
    }

    /** `handleAvatarChange`: the first chosen file becomes the avatar and its
        object URL (`blobUrl`) the preview; an empty selection changes
        nothing. */
    method ChooseAvatar(files: Option<seq<File>>, blobUrl: string)
      modifies this
      ensures files.Some? && files.value != [] ==> avatar == Some(files.value[0]) && previewUrl == Some(blobUrl)
      ensures !(files.Some? && files.value != []) ==> avatar == old(avatar) && previewUrl == old(previewUrl)
      ensures message == old(message) && uploading == old(uploading)
      ensures currentPassword == old(currentPassword) && newPassword == old(newPassword) && confirmPassword == old(confirmPassword)
      ensures passwordLoading == old(passwordLoading)
    {
      if files.Some? && |files.value| > 0 {
        avatar := Some(files.value[0]);
        previewUrl := Some(blobUrl);
      }
    }

    /** `handleProfileUpdate` up to the await: nothing without a chosen
        avatar; otherwise uploading starts and the banner is cleared. */
    method BeginProfileUpdate(auth: Auth) returns (request: Option<AvatarUpload>)
      modifies this
      ensures avatar == old(avatar) && previewUrl == old(previewUrl) && passwordLoading == old(passwordLoading)
      ensures currentPassword == old(currentPassword) && newPassword == old(newPassword) && confirmPassword == old(confirmPassword)
      ensures request.None? <==> avatar.None?
      ensures avatar.None? ==> uploading == old(uploading) && message == old(message)
      ensures avatar.Some? ==> uploading && message == None && request == Some(AvatarUpload(avatar.value, AuthHeader(auth)))
    {
      if avatar.None? {
        return None;
      }
      uploading := true;
      message := None;
      request := Some(AvatarUpload(avatar.value, AuthHeader(auth)));
    }

    /** `handleProfileUpdate` after the await. The chosen file stays chosen. */
    method CompleteProfileUpdate(outcome: Outcome<(), ()>) returns (effects: seq<Effect>)
      modifies this
      ensures !uploading && avatar == old(avatar) && previewUrl == old(previewUrl)
      ensures currentPassword == old(currentPassword) && newPassword == old(newPassword) && confirmPassword == old(confirmPassword)
      ensures passwordLoading == old(passwordLoading)
      ensures outcome.Success? ==> message == Some(AvatarSaved) && effects == []
      ensures outcome.Failure? ==> message == Some(AvatarFailed) && effects == [LogError("")]
    {
      if outcome.Success? {
        message := Some(AvatarSaved);
        effects := [];
      } else {
        effects := [LogError("")];
        message := Some(AvatarFailed);
      }
      uploading := false;
    }

    /** `handlePasswordChange` up to the await: the banner is cleared; a
        mismatched confirmation sets its own error and sends nothing.
        The browser submits the form only with every `required` input filled. */
    method BeginPasswordChange(auth: Auth) returns (request: Option<SetPasswordRequest>)
      requires currentPassword != "" && newPassword != "" && confirmPassword != ""
      modifies this
      ensures currentPassword == old(currentPassword) && newPassword == old(newPassword) && confirmPassword == old(confirmPassword)
      ensures avatar == old(avatar) && uploading == old(uploading) && previewUrl == old(previewUrl)
      ensures request.None? <==> newPassword != confirmPassword
      ensures newPassword != confirmPassword ==> message == Some(PasswordMismatch) && passwordLoading == old(passwordLoading)
      ensures newPassword == confirmPassword ==>
        && message == None && passwordLoading
        && request == Some(SetPasswordRequest(currentPassword, newPassword, confirmPassword, AuthHeader(auth)))
    {
      message := None;
      if newPassword != confirmPassword {
        message := Some(PasswordMismatch);
        return None;
      }
      passwordLoading := true;
      request := Some(SetPasswordRequest(currentPassword, newPassword, confirmPassword, AuthHeader(auth)));
    }

    /** `handlePasswordChange` after the await: success clears the three
        fields and schedules a logout (`logoutAfter` is its delay); failure
        says whether the current password was wrong. */
    method CompletePasswordChange(outcome: Outcome<(), PasswordError>) returns (logoutAfter: Option<nat>, effects: seq<Effect>)
      modifies this
      ensures !passwordLoading && avatar == old(avatar) && uploading == old(uploading) && previewUrl == old(previewUrl)
      ensures outcome.Success? ==>
        && message == Some(PasswordChanged) && logoutAfter == Some(LogoutDelay) && effects == []
        && currentPassword == "" && newPassword == "" && confirmPassword == ""
      ensures outcome.Failure? ==>
        && message == Some(PasswordErrorMessage(outcome.err)) && logoutAfter == None && effects == [LogError("")]
        && currentPassword == old(currentPassword) && newPassword == old(newPassword) && confirmPassword == old(confirmPassword)
    {
      if outcome.Success? {
        message := Some(PasswordChanged);
        currentPassword, newPassword, confirmPassword := "", "", "";
        logoutAfter := Some(LogoutDelay);
        effects := [];
      } else {
        logoutAfter := None;
        effects := [LogError("")];
        message := Some(PasswordErrorMessage(outcome.err));
      }
      passwordLoading := false;
    }

    /** The save button is disabled while uploading or with no new avatar. */
    function SaveDisabled(): (d: bool)
      reads this
      ensures !d <==> !uploading && avatar.Some?
    {
      uploading || avatar.None?
    }

    /** The password button is disabled while its request is in flight. */
    function PasswordDisabled(): (d: bool)
      reads this
      ensures d <==> passwordLoading
    {
      passwordLoading
    }
  }

  /** With the save button's guard, an upload is only ever begun with an
      avatar chosen, and its result leaves a banner of the matching kind. */
  method UploadScenario(auth: Auth, f: File)
  {
    var s := new SettingsPage();
    assert s.SaveDisabled();
    s.ChooseAvatar(Some([f]), "blob:1");
    assert !s.SaveDisabled();
    var req := s.BeginProfileUpdate(auth);
    assert req.value.avatar == f && s.SaveDisabled();
    var eff := s.CompleteProfileUpdate(Failure(()));
    assert s.message.value.kind == ErrorMessage && !s.SaveDisabled();
    s.EditPasswords("old", "new", "new");
    assert s.previewUrl == Some("blob:1");
  }
}
