/** The merchant application page (app/merchant/apply/page.tsx): once the
    session is known it looks up the user's application, then shows its
    status, or the application form when there is none. */
module MerchantApplyPage {
  import opened Common
  import opened Types

  datatype MerchantStatus = Pending | Approved | Rejected

  /** `MerchantProfile`, the application record. */
  datatype MerchantProfile = MerchantProfile(id: int, shopName: string, status: MerchantStatus, rejectReason: Option<string>)

  /** `GET /api/v1/merchants/me/` */
  datatype StatusRequest = StatusRequest(authorization: string)

  /** `POST /api/v1/merchants/` with a multipart body. */
  datatype ApplyRequest = ApplyRequest(shopName: string, description: string, licenseImage: File, authorization: string)

  /** A rejected lookup: the HTTP status when the server answered. */
  datatype StatusError = StatusError(status: Option<int>)

  /** A rejected application: the `shop_name` messages when the reply has them. */
  datatype ApplyError = ApplyError(shopName: Option<seq<string>>)

  const NoLicenseError: string := "请上传营业执照"
  const GenericSubmitError: string := "提交失败，请重试。"
  const NoReasonGiven: string := "未提供"

  /** The message after a rejected application. */
  function SubmitErrorText(e: ApplyError): (m: string)
    ensures e.shopName.Some? ==> m == "提交失败: " + FirstOrUndefined(e.shopName.value)
    ensures e.shopName.None? ==> m == GenericSubmitError
  {
    match e.shopName
    case Some(list) => "提交失败: " + FirstOrUndefined(list)
    case None => GenericSubmitError
  }

  /** The status card of an existing application. */
  datatype StatusCard = PendingCard(shopName: string) | ApprovedCard | RejectedCard(reason: string)

  function Card(p: MerchantProfile): (c: StatusCard)
    ensures p.status == Pending <==> c == PendingCard(p.shopName)
    ensures p.status == Approved <==> c == ApprovedCard
    ensures p.status == Rejected ==>
      && c.RejectedCard?
      && (Truthy(p.rejectReason) ==> c.reason == p.rejectReason.value)
      && (!Truthy(p.rejectReason) ==> c.reason == NoReasonGiven)
  {
    match p.status
    case Pending => PendingCard(p.shopName)
    case Approved => ApprovedCard
    case Rejected => RejectedCard(if Truthy(p.rejectReason) then p.rejectReason.value else NoReasonGiven)
  }

  datatype PageView = Spinner | StatusView(card: StatusCard) | FormView

  class MerchantApplyPage {
    var shopName: string
    var description: string
    var license: Option<File>
    var previewUrl: Option<string>
    var merchantInfo: Option<MerchantProfile>
    var pageLoading: bool
    var submitting: bool
    var error: Option<string>

    constructor ()
      ensures shopName == "" && description == "" && license == None && previewUrl == None
      ensures merchantInfo == None && pageLoading && !submitting && error == None
    {
      shopName, description := "", "";
      license, previewUrl := None, None;
      merchantInfo := None;
      pageLoading := true;
      submitting := false;
      error := None;
    }

    /** The status effect up to its await: wait while the session loads,
        send visitors to the login page, and look the application up only
        with a token. Without one `pageLoading` is never cleared. */
    method BeginCheck(auth: Auth) returns (request: Option<StatusRequest>, effects: seq<Effect>)
      ensures request.Some? <==> !auth.isLoading && auth.isAuthenticated && HasToken(auth)
      ensures request.Some? ==> request.value == StatusRequest(AuthHeader(auth))
      ensures effects == (if !auth.isLoading && !auth.isAuthenticated then [Navigate("/login")] else [])
    {
      request := None;
      effects := [];
      if auth.isLoading {
        return;
      }
      if !auth.isAuthenticated {
        effects := [Navigate("/login")];
        return;
      }
      if !HasToken(auth) {
        return;
      }
      request := Some(StatusRequest(AuthHeader(auth)));
    }

    /** `checkStatus` after the await: a found application is kept; a 404
        (never applied) is silent, other failures are logged. The page stops
        loading either way. */
    method CompleteCheck(outcome: Outcome<MerchantProfile, StatusError>) returns (effects: seq<Effect>)
      modifies this
      ensures !pageLoading && submitting == old(submitting) && error == old(error) && license == old(license)
      ensures shopName == old(shopName) && description == old(description) && previewUrl == old(previewUrl)
      ensures outcome.Success? ==> merchantInfo == Some(outcome.payload) && effects == []
      ensures outcome.Failure? ==> merchantInfo == old(merchantInfo)
      ensures outcome.Failure? ==> (effects == [] <==> outcome.err.status == Some(404))
      ensures outcome.Failure? && outcome.err.status != Some(404) ==> effects == [LogError("")]
    {
      effects := [];
      if outcome.Success? {
        merchantInfo := Some(outcome.payload);
      } else if outcome.err.status != Some(404) {
        effects := [LogError("")];
      }
      pageLoading := false;
    }

    method EditFields(shopName: string, description: string)
      modifies this
      ensures this.shopName == shopName && this.description == description
      ensures license == old(license) && error == old(error) && merchantInfo == old(merchantInfo)
      ensures pageLoading == old(pageLoading) && submitting == old(submitting) && previewUrl == old(previewUrl)
    {
      this.shopName, this.description := shopName, description;
    }

    /** `handleFileChange`: the first chosen file becomes the licence and its
        object URL (`blobUrl`) the preview. */
    method ChooseLicense(files: Option<seq<File>>, blobUrl: string)
      modifies this
      ensures files.Some? && files.value != [] ==> license == Some(files.value[0]) && previewUrl == Some(blobUrl)
      ensures !(files.Some? && files.value != []) ==> license == old(license) && previewUrl == old(previewUrl)
      ensures error == old(error) && merchantInfo == old(merchantInfo) && submitting == old(submitting)
      ensures pageLoading == old(pageLoading) && shopName == old(shopName) && description == old(description)
    {
      if files.Some? && |files.value| > 0 {
        license := Some(files.value[0]);
        previewUrl := Some(blobUrl);
      }
    }

    /** `handleSubmit` up to the await: without a licence only the error is
        set; otherwise the form goes out and the old error is cleared.
        The browser submits the form only with every `required` input filled. */
    method BeginSubmit(auth: Auth) returns (request: Option<ApplyRequest>)
      requires shopName != ""
      modifies this
      ensures license == old(license) && merchantInfo == old(merchantInfo) && pageLoading == old(pageLoading)
      ensures shopName == old(shopName) && description == old(description) && previewUrl == old(previewUrl)
      ensures request.None? <==> license.None?
      ensures license.None? ==> error == Some(NoLicenseError) && submitting == old(submitting)
      ensures license.Some? ==>
        && submitting && error == None
        && request == Some(ApplyRequest(shopName, description, license.value, AuthHeader(auth)))
    {
      if license.None? {
        error := Some(NoLicenseError);
        return None;
      }
      submitting := true;
      error := None;
      request := Some(ApplyRequest(shopName, description, license.value, AuthHeader(auth)));
    }

    /** `handleSubmit` after the await: the created application replaces the
        form; failure logs and explains. */
    method CompleteSubmit(outcome: Outcome<MerchantProfile, ApplyError>) returns (effects: seq<Effect>)
      modifies this
      ensures !submitting && pageLoading == old(pageLoading) && license == old(license)
      ensures shopName == old(shopName) && description == old(description) && previewUrl == old(previewUrl)
      ensures outcome.Success? ==> merchantInfo == Some(outcome.payload) && error == old(error) && effects == []
      ensures outcome.Failure? ==>
        merchantInfo == old(merchantInfo) && error == Some(SubmitErrorText(outcome.err)) && effects == [LogError("")]
    {
      if outcome.Success? {
        merchantInfo := Some(outcome.payload);
        effects := [];
      } else {
        effects := [LogError("")];
        error := Some(SubmitErrorText(outcome.err));
      }
      submitting := false;
    }

    /** What the page shows: a spinner while the session or (for a signed-in
        user) the lookup is pending, then the status of an existing
        application, else the form. */
    function View(auth: Auth): (v: PageView)
      reads this
      ensures v == Spinner <==> auth.isLoading || (auth.isAuthenticated && pageLoading)
      ensures v.StatusView? <==> !auth.isLoading && !(auth.isAuthenticated && pageLoading) && merchantInfo.Some?
      ensures v.StatusView? ==> v.card == Card(merchantInfo.value)
    {
      if auth.isLoading || (auth.isAuthenticated && pageLoading) then Spinner
      else if merchantInfo.Some? then StatusView(Card(merchantInfo.value))
      else FormView
    }
  }

  /** A signed-in session without a token keeps the spinner for good: the
      lookup is never sent, so nothing ever clears `pageLoading`. */
  method SpinnerWithoutToken(user: User)
  {
    var auth := Auth(true, None, Some(user), false);
    var p := new MerchantApplyPage();
    var request, effects := p.BeginCheck(auth);
    assert request == None && effects == [];
    assert p.View(auth) == Spinner;
  }

  /** An applicant who never applied gets the form without a logged error. */
  method NeverAppliedScenario(auth: Auth)
    requires !auth.isLoading && auth.isAuthenticated && HasToken(auth)
  {
    var p := new MerchantApplyPage();
    var request, effects := p.BeginCheck(auth);
    assert request.Some?;
    effects := p.CompleteCheck(Failure(StatusError(Some(404))));
    assert effects == [] && p.View(auth) == FormView;
  }
}
