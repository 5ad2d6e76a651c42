/**
 * Helpers for the eMitra payment gateway: choosing the gateway URL from the
 * deployment environment, and recognising a booking-confirmation response
 * that carries the encrypted payment payload. The environment variables
 * are parameters: `environment` is NEXT_PUBLIC_ENVIRONMENT, `stageUrl`
 * NEXT_PUBLIC_EMITRA_STAGE_URL and `prodUrl` NEXT_PUBLIC_EMITRA_PROD_URL,
 * each None when unset.
 */
module Emitra {
  import opened JsValues

  /** The three fields the gateway needs, all of which must be present. */
  const RequiredFields: seq<string> := ["ENCDATA", "MERCHANTCODE", "SERVICEID"]

  const StageMissing: string := "Payment gateway URL not configured for stage environment"
  const ProductionMissing: string := "Payment gateway URL not configured for production environment"

  /** `process.env.NEXT_PUBLIC_ENVIRONMENT || 'production'` */
  function EffectiveEnvironment(environment: Option<string>): (env: string)
    ensures env == "production" <==> environment == None || environment == Some("") || environment == Some("production")
    ensures environment.Some? && environment.value != "" ==> env == environment.value
  {
    if environment.Some? && environment.value != "" then environment.value else "production"
  }

  /** An environment string is set and truthy (not undefined, not empty). */
  predicate Configured(url: Option<string>) {
    url.Some? && url.value != ""
  }

  /**
   * `getEmiraUrl()`: the stage URL when the environment is exactly
   * 'stage', otherwise the production URL; the chosen URL missing or empty
   * is an error (the thrown Error's message).
   */
  function GetEmiraUrl(environment: Option<string>, stageUrl: Option<string>, prodUrl: Option<string>): (r: Result<string, string>)
    ensures r.Success? ==> r.value != ""
    ensures EffectiveEnvironment(environment) == "stage" ==>
              && (r.Success? <==> Configured(stageUrl))
              && (r.Success? ==> r.value == stageUrl.value)
              && (r.Failure? ==> r.error == StageMissing)
    ensures EffectiveEnvironment(environment) != "stage" ==>
              && (r.Success? <==> Configured(prodUrl))
              && (r.Success? ==> r.value == prodUrl.value)
              && (r.Failure? ==> r.error == ProductionMissing)
  {
    var env := EffectiveEnvironment(environment);
    if env == "stage" then
      if !Configured(stageUrl) then Failure(StageMissing) else Success(stageUrl.value)
    else
      if !Configured(prodUrl) then Failure(ProductionMissing) else Success(prodUrl.value)
  }

  /** An unset or empty environment behaves exactly like 'production'. */
  lemma UnsetEnvironmentIsProduction(stageUrl: Option<string>, prodUrl: Option<string>)
    ensures GetEmiraUrl(None, stageUrl, prodUrl) == GetEmiraUrl(Some("production"), stageUrl, prodUrl)
    ensures GetEmiraUrl(Some(""), stageUrl, prodUrl) == GetEmiraUrl(Some("production"), stageUrl, prodUrl)
  {
  }

  /** Outside 'stage' the stage URL is never consulted, and inside it the production URL is not. */
  lemma UnusedUrlIrrelevant(environment: Option<string>, s1: Option<string>, s2: Option<string>,
                            p1: Option<string>, p2: Option<string>)
    ensures EffectiveEnvironment(environment) != "stage" ==> GetEmiraUrl(environment, s1, p1) == GetEmiraUrl(environment, s2, p1)
    ensures EffectiveEnvironment(environment) == "stage" ==> GetEmiraUrl(environment, s1, p1) == GetEmiraUrl(environment, s1, p2)
  {
  }

  /** Every required field is truthy on the given level of the response. */
  predicate AllPresentAt(level: JsVal) {
    forall f :: f in RequiredFields ==> Truthy(Prop(level, f))
  }

  /**
   * `isValidPaymentData(response)`: the three fields are all truthy at the
   * top level, or all truthy inside `result`.
   */
  function IsValidPaymentData(response: JsVal): (r: bool)
    ensures r <==> AllPresentAt(response) || AllPresentAt(Prop(response, "result"))
  {
    if Truthy(Prop(response, "ENCDATA")) && Truthy(Prop(response, "MERCHANTCODE")) && Truthy(Prop(response, "SERVICEID")) then
      true
    else if Truthy(Prop(Prop(response, "result"), "ENCDATA")) && Truthy(Prop(Prop(response, "result"), "MERCHANTCODE"))
            && Truthy(Prop(Prop(response, "result"), "SERVICEID")) then
      true
    else
      false
  }

  /**
   * The two levels are never mixed: when some field is missing at the top
   * and some field is missing inside `result`, the data is rejected, even
   * if between them the two levels hold all three fields.
   */
  lemma LevelsNotMixed(response: JsVal, top: string, nested: string)
    requires top in RequiredFields && nested in RequiredFields
    requires !Truthy(Prop(response, top)) && !Truthy(Prop(Prop(response, "result"), nested))
    ensures !IsValidPaymentData(response)
  {
  }

  /** One field at the top and the other two inside `result` is rejected. */
  lemma SplitPayloadRejected()
    ensures !IsValidPaymentData(Some(JObj(map["ENCDATA" := JStr("x"),
                                             "result" := JObj(map["MERCHANTCODE" := JStr("y"), "SERVICEID" := JStr("z")])])))
  {
    LevelsNotMixed(Some(JObj(map["ENCDATA" := JStr("x"),
                                 "result" := JObj(map["MERCHANTCODE" := JStr("y"), "SERVICEID" := JStr("z")])])),
                   "MERCHANTCODE", "ENCDATA");
  }

  /** null, undefined and the empty object carry no payment data. */
  lemma NothingIsInvalid()
    ensures !IsValidPaymentData(None)
    ensures !IsValidPaymentData(Some(JNull))
    ensures !IsValidPaymentData(Some(JObj(map[])))
  {
    assert !Truthy(Prop(None, "ENCDATA"));
  }

  /** The examples: one field only, all three at the top, all three under `result`, an empty value. */
  lemma PaymentDataExamples()
    ensures !IsValidPaymentData(Some(JObj(map["ENCDATA" := JStr("x")])))
    ensures IsValidPaymentData(Some(JObj(map["ENCDATA" := JStr("x"), "MERCHANTCODE" := JStr("y"), "SERVICEID" := JStr("z")])))
    ensures IsValidPaymentData(Some(JObj(map["result" :=
              JObj(map["ENCDATA" := JStr("x"), "MERCHANTCODE" := JStr("y"), "SERVICEID" := JStr("z")])])))
    ensures !IsValidPaymentData(Some(JObj(map["ENCDATA" := JStr(""), "MERCHANTCODE" := JStr("y"), "SERVICEID" := JStr("z")])))
  {
    assert !Truthy(Prop(Some(JObj(map["ENCDATA" := JStr("x")])), "MERCHANTCODE"));
  }
}
