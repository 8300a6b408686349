/** The module's options object (lib/module.js lines 10-12 and 33-39): the
    defaults written into it in place and the check of `errorHandler`. */
module ApolloOptions {
  import opened JsValues
  import opened ClientConfigs

  const DEFAULT_TOKEN_NAME: JsValue := Str("apollo-token")
  const DEFAULT_TOKEN_EXPIRES: JsValue := Num(7.0)
  const DEFAULT_AUTHENTICATION_TYPE: JsValue := Str("Bearer")

  /** `options.tokenName || 'apollo-token'` */
  function TokenNameDefault(v: JsValue): (r: JsValue)
    ensures Truthy(r)
    ensures Truthy(v) ==> r == v
    ensures !Truthy(v) ==> r == DEFAULT_TOKEN_NAME
  {
    Or(v, DEFAULT_TOKEN_NAME)
  }

  /** `options.tokenExpires || 7`: every falsy value, 0 and NaN included, becomes 7. */
  function TokenExpiresDefault(v: JsValue): (r: JsValue)
    ensures Truthy(r)
    ensures Truthy(v) ==> r == v
    ensures !Truthy(v) ==> r == DEFAULT_TOKEN_EXPIRES
  {
    Or(v, DEFAULT_TOKEN_EXPIRES)
  }

  /** `options.authenticationType === undefined ? 'Bearer' : ...`: only
      `undefined` is replaced, so `null` and `''` are kept. */
  function AuthenticationTypeDefault(v: JsValue): (r: JsValue)
    ensures r != Undefined
    ensures v != Undefined ==> r == v
    ensures v == Undefined ==> r == DEFAULT_AUTHENTICATION_TYPE
  {
    IfUndefined(v, DEFAULT_AUTHENTICATION_TYPE)
  }

  /** Filling the defaults a second time changes nothing. */
  lemma DefaultsIdempotent(tokenName: JsValue, tokenExpires: JsValue, authenticationType: JsValue)
    ensures TokenNameDefault(TokenNameDefault(tokenName)) == TokenNameDefault(tokenName)
    ensures TokenExpiresDefault(TokenExpiresDefault(tokenExpires)) == TokenExpiresDefault(tokenExpires)
    ensures AuthenticationTypeDefault(AuthenticationTypeDefault(authenticationType))
            == AuthenticationTypeDefault(authenticationType)
  {
  }

  /** Edge cases: 0 and NaN expiry are replaced; `null` and `''` as
      authentication type are not; neither is the string "0" as token name. */
  lemma DefaultsEdgeCases()
    ensures TokenExpiresDefault(Num(0.0)) == Num(7.0)
    ensures TokenExpiresDefault(NaN) == Num(7.0)
    ensures TokenNameDefault(Str("")) == Str("apollo-token")
    ensures TokenNameDefault(Str("0")) == Str("0")
    ensures AuthenticationTypeDefault(Null) == Null
    ensures AuthenticationTypeDefault(Str("")) == Str("")
    ensures AuthenticationTypeDefault(Undefined) == Str("Bearer")
  {
  }

  /** The `errorHandler` check (lines 37-39): a defined value that is not a function is refused. */
  function ErrorHandlerOutcome(errorHandler: JsValue): (r: Outcome)
    ensures r.Pass? <==> errorHandler == Undefined || errorHandler.Func?
    ensures !r.Pass? ==> r == Fail(ErrorHandlerNotFunction)
  {
    if errorHandler != Undefined && Typeof(errorHandler) != "function" then
      Fail(ErrorHandlerNotFunction)
    else
      Pass
  }

  /** The outcome of the option checks: client configurations first, then,
      only once they pass, the error handler. */
  function OptionsOutcome(clientConfigs: JsValue, errorHandler: JsValue): Outcome {
    var v := ClientConfigsOutcome(clientConfigs);
    if !v.Pass? then v else ErrorHandlerOutcome(errorHandler)
  }

  /** The options pass iff the client configurations are valid and the error
      handler is absent or a function; a bad client configuration is reported
      whatever the error handler is. */
  lemma OptionsOutcomeSpec(clientConfigs: JsValue, errorHandler: JsValue)
    ensures OptionsOutcome(clientConfigs, errorHandler).Pass? <==>
            ValidClientConfigs(clientConfigs) && (errorHandler == Undefined || errorHandler.Func?)
    ensures !ValidClientConfigs(clientConfigs) ==>
            OptionsOutcome(clientConfigs, errorHandler) == ClientConfigsOutcome(clientConfigs)
    ensures ValidClientConfigs(clientConfigs) && !(errorHandler == Undefined || errorHandler.Func?) ==>
            OptionsOutcome(clientConfigs, errorHandler) == Fail(ErrorHandlerNotFunction)
  {
    ValidationPassIff(clientConfigs);
  }

  /** The options object of the module, as the setup routine reads and writes it. */
  class ModuleOptions {
    var clientConfigs: JsValue
    var tokenName: JsValue
    var tokenExpires: JsValue
    var authenticationType: JsValue
    var errorHandler: JsValue
    var includeNodeModules: JsValue

    constructor (clientConfigs: JsValue, tokenName: JsValue, tokenExpires: JsValue,
                 authenticationType: JsValue, errorHandler: JsValue, includeNodeModules: JsValue)
      ensures this.clientConfigs == clientConfigs && this.tokenName == tokenName
      ensures this.tokenExpires == tokenExpires && this.authenticationType == authenticationType
      ensures this.errorHandler == errorHandler && this.includeNodeModules == includeNodeModules
    {
      this.clientConfigs := clientConfigs;
      this.tokenName := tokenName;
      this.tokenExpires := tokenExpires;
      this.authenticationType := authenticationType;
      this.errorHandler := errorHandler;
      this.includeNodeModules := includeNodeModules;
    }

    /** Lines 33-35: the three defaults are written in place; no other field changes. */
    method FillDefaults()
      modifies this`tokenName, this`tokenExpires, this`authenticationType
      ensures tokenName == TokenNameDefault(old(tokenName))
      ensures tokenExpires == TokenExpiresDefault(old(tokenExpires))
      ensures authenticationType == AuthenticationTypeDefault(old(authenticationType))
    {
      tokenName := Or(tokenName, DEFAULT_TOKEN_NAME);
      tokenExpires := Or(tokenExpires, DEFAULT_TOKEN_EXPIRES);
      authenticationType := IfUndefined(authenticationType, DEFAULT_AUTHENTICATION_TYPE);
    }
  }
}
