/**
 * The guest OTP adapter: the form posts sent to the authentication backend
 * for each channel, and the step that lifts the session token from
 * `result.token` to the top level of the verification response. The HTTP
 * call is not modelled: requests are descriptors, responses parameters.
 */
module GuestAuthApi {
  import opened JsValues

  datatype Channel = Mobile | Email

  /** A form-encoded POST: path, the `isEmailVerify` query flag, and the form fields in order. */
  datatype Request = Request(path: string, isEmailVerify: bool, fields: seq<(string, string)>, contentType: string)

  const LoginPath: string := "/guest/login"
  const VerifyPath: string := "/guest/verify"
  const FormContentType: string := "application/x-www-form-urlencoded"

  /** The form field that carries the contact for a channel. */
  function ContactField(channel: Channel): (name: string)
    ensures name == "email" <==> channel == Email
    ensures name == "mobileNo" <==> channel == Mobile
  {
    match channel
    case Mobile => "mobileNo"
    case Email => "email"
  }

  /** The request URL relative to the API base: path and query string. */
  function Url(r: Request): string {
    r.path + "?isEmailVerify=" + (if r.isEmailVerify then "true" else "false")
  }

  /** `loginWithMobile(mobileNo)` */
  function LoginWithMobile(mobileNo: string): (r: Request)
    ensures r.path == LoginPath && !r.isEmailVerify && r.contentType == FormContentType
    ensures r.fields == [("mobileNo", mobileNo)]
  {
    Request(LoginPath, false, [("mobileNo", mobileNo)], FormContentType)
  }

  /** `loginWithEmail(email)` */
  function LoginWithEmail(email: string): (r: Request)
    ensures r.path == LoginPath && r.isEmailVerify && r.contentType == FormContentType
    ensures r.fields == [("email", email)]
  {
    Request(LoginPath, true, [("email", email)], FormContentType)
  }

  /** `verifyOTPForMobile(mobileNo, otp)` */
  function VerifyOtpForMobile(mobileNo: string, otp: string): (r: Request)
    ensures r.path == VerifyPath && !r.isEmailVerify && r.contentType == FormContentType
    ensures r.fields == [("mobileNo", mobileNo), ("otp", otp)]
  {
    Request(VerifyPath, false, [("mobileNo", mobileNo), ("otp", otp)], FormContentType)
  }

  /** `verifyOTPForEmail(email, otp)` */
  function VerifyOtpForEmail(email: string, otp: string): (r: Request)
    ensures r.path == VerifyPath && r.isEmailVerify && r.contentType == FormContentType
    ensures r.fields == [("email", email), ("otp", otp)]
  {
    Request(VerifyPath, true, [("email", email), ("otp", otp)], FormContentType)
  }

  /** The login request of a channel. */
  function Login(channel: Channel, contact: string): Request {
    match channel
    case Mobile => LoginWithMobile(contact)
    case Email => LoginWithEmail(contact)
  }

  /** The verification request of a channel. */
  function Verify(channel: Channel, contact: string, otp: string): Request {
    match channel
    case Mobile => VerifyOtpForMobile(contact, otp)
    case Email => VerifyOtpForEmail(contact, otp)
  }

  /**
   * Per channel the flag and the contact field agree: the flag is set iff
   * the contact goes in `email`; verification sends the login form plus `otp`
   * to the verify path under the same flag.
   */
  lemma ChannelsConsistent(channel: Channel, contact: string, otp: string)
    ensures Login(channel, contact).isEmailVerify <==> channel == Email
    ensures Login(channel, contact).fields == [(ContactField(channel), contact)]
    ensures Verify(channel, contact, otp).isEmailVerify == Login(channel, contact).isEmailVerify
    ensures Verify(channel, contact, otp).fields == Login(channel, contact).fields + [("otp", otp)]
    ensures Login(channel, contact).path == LoginPath && Verify(channel, contact, otp).path == VerifyPath
  {
  }

  /** The login URLs are the literal ones the client posts to. */
  lemma LoginUrlsAsPosted(contact: string)
    ensures Url(LoginWithMobile(contact)) == "/guest/login?isEmailVerify=false"
    ensures Url(LoginWithEmail(contact)) == "/guest/login?isEmailVerify=true"
  {
    assert LoginPath + "?isEmailVerify=" + "false" == "/guest/login?isEmailVerify=false";
    assert LoginPath + "?isEmailVerify=" + "true" == "/guest/login?isEmailVerify=true";
  }

  /** The verification URLs are the literal ones the client posts to. */
  lemma VerifyUrlsAsPosted(contact: string, otp: string)
    ensures Url(VerifyOtpForMobile(contact, otp)) == "/guest/verify?isEmailVerify=false"
    ensures Url(VerifyOtpForEmail(contact, otp)) == "/guest/verify?isEmailVerify=true"
  {
    assert VerifyPath + "?isEmailVerify=" + "false" == "/guest/verify?isEmailVerify=false";
    assert VerifyPath + "?isEmailVerify=" + "true" == "/guest/verify?isEmailVerify=true";
  }

  /** `data?.result?.token` */
  function ResultToken(data: JsVal): JsVal {
    Prop(Prop(data, "result"), "token")
  }

  /**
   * The post-processing of both verification calls,
   * `if (data?.result?.token) data.token = data.result.token`: a truthy
   * nested token is copied to the top level; nothing else changes.
   */
  function LiftToken(data: JsVal): (r: JsVal)
    ensures Truthy(ResultToken(data)) ==>
              && data.Some? && data.value.JObj? && r.Some? && r.value.JObj?
              && r.value.fields.Keys == data.value.fields.Keys + {"token"}
              && Prop(r, "token") == ResultToken(data)
              && forall k :: k != "token" ==> Prop(r, k) == Prop(data, k)
    ensures !Truthy(ResultToken(data)) ==> r == data
  {
    if Truthy(ResultToken(data)) then
      Some(JObj(data.value.fields["token" := ResultToken(data).value]))
    else
      data
  }

  /** Lifting twice is lifting once: the nested token is left where it was. */
  lemma LiftTokenIdempotent(data: JsVal)
    ensures LiftToken(LiftToken(data)) == LiftToken(data)
  {
    if Truthy(ResultToken(data)) {
      var once := LiftToken(data);
      assert Prop(once, "result") == Prop(data, "result");
      assert ResultToken(once) == ResultToken(data);
      assert once.value.fields["token" := ResultToken(data).value] == once.value.fields;
    }
  }

  /** After lifting, a truthy token is found at the top level and inside `result`, and they agree. */
  lemma LiftedTokenAgrees(data: JsVal)
    requires Truthy(ResultToken(data))
    ensures Truthy(Prop(LiftToken(data), "token"))
    ensures Prop(LiftToken(data), "token") == ResultToken(LiftToken(data))
  {
    assert Prop(LiftToken(data), "result") == Prop(data, "result");
  }

  /** A response without a truthy nested token, such as an empty token, is returned as it came. */
  lemma NoTokenUnchanged()
    ensures LiftToken(Some(JObj(map["success" := JBool(false)]))) == Some(JObj(map["success" := JBool(false)]))
    ensures LiftToken(Some(JObj(map["result" := JObj(map["token" := JStr("")])])))
              == Some(JObj(map["result" := JObj(map["token" := JStr("")])]))
    ensures LiftToken(None) == None
  {
  }
}
