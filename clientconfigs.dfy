/** Validation of the `clientConfigs` option (lib/module.js lines 4 and 12-31):
    the mapping must be non-empty, must have a truthy `default` entry, and
    every entry must be either a module path or a client description. */
module ClientConfigs {
  import opened JsValues

  /** The module's own configuration errors, one per distinct message. */
  datatype ConfigError =
    | NoClientConfigs
    | NoDefaultClientConfig
    | NotObjectOrPath(key: string)
    | NoEndpointOrLink(key: string)
    | ErrorHandlerNotFunction

  /** How a step of the setup ends: it passes, throws one of the module's
      errors, or throws a JavaScript TypeError (reading a property of
      `undefined` or `null`). */
  datatype Outcome = Pass | Fail(error: ConfigError) | TypeError

  const MESSAGE_PREFIX: string := "[Apollo module] "
  const NOT_OBJECT_OR_PATH_TAIL: string := "\" should be an object or a path to an exported Apollo Client config."
  const NO_ENDPOINT_OR_LINK_TAIL: string := "\" must define httpEndpoint or link option."
  const CLIENT_CONFIGURATION: string := "Client configuration \""

  /** The text of the Error the module throws. */
  function Message(e: ConfigError): string {
    MESSAGE_PREFIX + MessageBody(e)
  }

  /** The part of a message after the common prefix. */
  function MessageBody(e: ConfigError): string {
    match e
    case NoClientConfigs => "No clientConfigs found in apollo configuration"
    case NoDefaultClientConfig => "No default client configuration found in apollo configuration"
    case NotObjectOrPath(key) => CLIENT_CONFIGURATION + (key + NOT_OBJECT_OR_PATH_TAIL)
    case NoEndpointOrLink(key) => CLIENT_CONFIGURATION + (key + NO_ENDPOINT_OR_LINK_TAIL)
    case ErrorHandlerNotFunction => "errorHandler must be a function."
  }

  /** `IS_LINK_RE = /^https?:\/\//`, matched as the regular expression reads:
      "http", an optional "s", then "://", all at the start of the string. */
  predicate MatchesLinkRe(s: string) {
    |s| >= 4 && s[..4] == "http" &&
    var rest := if |s| > 4 && s[4] == 's' then s[5..] else s[4..];
    |rest| >= 3 && rest[..3] == "://"
  }

  /** An HTTP(S) URL: one of two prefixes. */
  predicate IsUrl(s: string) {
    (|s| >= 7 && s[..7] == "http://") || (|s| >= 8 && s[..8] == "https://")
  }

  /** The regular expression is exactly the two-prefix test. */
  lemma LinkReIsUrlPrefix(s: string)
    ensures MatchesLinkRe(s) <==> IsUrl(s)
  {
    if |s| >= 7 && s[..7] == "http://" {
      assert s[..4] == s[..7][..4];
      assert s[4] == ':';
      assert s[4..][..3] == s[4..7] == s[..7][4..7];
    }
    if |s| >= 8 && s[..8] == "https://" {
      assert s[..4] == s[..8][..4];
      assert s[5..][..3] == s[5..8] == s[..8][5..8];
    }
    if MatchesLinkRe(s) {
      if |s| > 4 && s[4] == 's' {
        assert s[..8] == s[..4] + [s[4]] + s[5..][..3];
      } else {
        assert s[..7] == s[..4] + s[4..][..3];
      }
    }
  }

  /** An entry that names a module exporting a client configuration. */
  predicate IsModulePath(v: JsValue) {
    v.Str? && !IsUrl(v.s)
  }

  /** A client description: a non-null object with an HTTP(S) `httpEndpoint`
      or with a `link` whose `typeof` is "object" (`null` included). */
  predicate DescribesClient(v: JsValue) {
    (v.Obj? || v.Arr? || v.Regex?) &&
    ((Member(v, "httpEndpoint").Str? && IsUrl(Member(v, "httpEndpoint").s)) ||
     Typeof(Member(v, "link")) == "object")
  }

  /** The shape every entry of `clientConfigs` must have. */
  predicate AcceptedEntry(v: JsValue) {
    IsModulePath(v) || DescribesClient(v)
  }

  /** The check the `forEach` callback makes of one entry (lines 20-30). */
  function EntryOutcome(key: string, v: JsValue): (r: Outcome)
    ensures r.Pass? <==> AcceptedEntry(v)
    ensures r.TypeError? <==> v.Null?
    ensures r.Fail? && Typeof(v) != "object" ==> r.error == NotObjectOrPath(key)
    ensures r.Fail? && Typeof(v) == "object" ==> r.error == NoEndpointOrLink(key)
  {
    if Typeof(v) != "object" then
      if Typeof(v) != "string" || MatchesLinkRe(v.s) then
        LinkReIsUrlPrefix(if v.Str? then v.s else "");
        Fail(NotObjectOrPath(key))
      else
        LinkReIsUrlPrefix(v.s);
        Pass
    else if v.Null? then
      TypeError
    else
      var endpoint := Member(v, "httpEndpoint");
      LinkReIsUrlPrefix(if endpoint.Str? then endpoint.s else "");
      if Typeof(endpoint) != "string" || !MatchesLinkRe(endpoint.s) then
        if Typeof(Member(v, "link")) != "object" then
          Fail(NoEndpointOrLink(key))
        else
          Pass
      else
        Pass
  }

  /** The outcome of the entry named `key` of the object `props`. */
  function KeyOutcome(props: seq<Prop>, key: string): Outcome {
    EntryOutcome(key, Get(props, key))
  }

  /** The `forEach` over `keys`: the first entry that does not pass ends it. */
  function KeysOutcome(props: seq<Prop>, keys: seq<string>): Outcome
    decreases |keys|
  {
    if keys == [] then Pass
    else
      var o := KeyOutcome(props, keys[0]);
      if !o.Pass? then o else KeysOutcome(props, keys[1..])
  }

  /** The whole validation of `clientConfigs` (lines 12-31). `Object.keys`
      throws on `undefined` and `null`; a primitive has no own keys except a
      string's indices, and an array's keys are its indices, none of them "default". */
  function ClientConfigsOutcome(clientConfigs: JsValue): Outcome {
    match clientConfigs
    case Undefined => TypeError
    case Null => TypeError
    case Str(s) => if s == "" then Fail(NoClientConfigs) else Fail(NoDefaultClientConfig)
    case Arr(elems) => if elems == [] then Fail(NoClientConfigs) else Fail(NoDefaultClientConfig)
    case Obj(props) =>
      if |Keys(props)| == 0 then Fail(NoClientConfigs)
      else if !Truthy(Get(props, "default")) then Fail(NoDefaultClientConfig)
      else KeysOutcome(props, Keys(props))
    case _ => Fail(NoClientConfigs)
  }

  /** The invariant the validation establishes: a non-empty object with a
      truthy `default` all of whose entries are accepted. */
  predicate ValidClientConfigs(clientConfigs: JsValue) {
    clientConfigs.Obj? && |clientConfigs.props| > 0 &&
    Truthy(Get(clientConfigs.props, "default")) &&
    forall i :: 0 <= i < |clientConfigs.props| ==>
      AcceptedEntry(Get(clientConfigs.props, clientConfigs.props[i].key))
  }

  /** The loop over the keys, throwing on the first bad entry (lines 13-31). */
  method ValidateClientConfigs(clientConfigs: JsValue) returns (r: Outcome)
    ensures r == ClientConfigsOutcome(clientConfigs)
  {
    if !clientConfigs.Obj? {
      r := ClientConfigsOutcome(clientConfigs);
      return;
    }
    var props := clientConfigs.props;
    var keys := Keys(props);
    if |keys| == 0 {
      return Fail(NoClientConfigs);
    }
    if !Truthy(Get(props, "default")) {
      return Fail(NoDefaultClientConfig);
    }
    var i := 0;
    while i < |keys|
      invariant 0 <= i <= |keys|
      invariant KeysOutcome(props, keys) == KeysOutcome(props, keys[i..])
    {
      var key := keys[i];
      var o := EntryOutcome(key, Get(props, key));
      if !o.Pass? {
        return o;
      }
      i := i + 1;
    }
    r := Pass;
  }

  /** Validation passes iff every key's entry passes. */
  lemma {:induction false} KeysOutcomePassIff(props: seq<Prop>, keys: seq<string>)
    ensures KeysOutcome(props, keys).Pass? <==>
            forall i :: 0 <= i < |keys| ==> KeyOutcome(props, keys[i]).Pass?
    decreases |keys|
  {
    if keys != [] {
      KeysOutcomePassIff(props, keys[1..]);
      assert forall i :: 1 <= i < |keys| ==> keys[i] == keys[1..][i - 1];
    }
  }

  /** Keys are checked in order: the first failing key's outcome is the result. */
  lemma {:induction false} KeysOutcomeIsFirstFailure(props: seq<Prop>, keys: seq<string>, i: nat)
    requires i < |keys|
    requires forall j :: 0 <= j < i ==> KeyOutcome(props, keys[j]).Pass?
    requires !KeyOutcome(props, keys[i]).Pass?
    ensures KeysOutcome(props, keys) == KeyOutcome(props, keys[i])
    decreases i
  {
    if i > 0 {
      assert forall j :: 0 <= j < i - 1 ==> keys[1..][j] == keys[j + 1];
      KeysOutcomeIsFirstFailure(props, keys[1..], i - 1);
    }
  }

  /** A failing validation names a key that is among those checked. */
  lemma {:induction false} KeysOutcomeNamesCheckedKey(props: seq<Prop>, keys: seq<string>)
    requires KeysOutcome(props, keys).Fail?
    ensures KeysOutcome(props, keys).error.NotObjectOrPath? || KeysOutcome(props, keys).error.NoEndpointOrLink?
    ensures KeysOutcome(props, keys).error.key in keys
    decreases |keys|
  {
    if KeyOutcome(props, keys[0]).Pass? {
      KeysOutcomeNamesCheckedKey(props, keys[1..]);
    }
  }

  /** Validation passes exactly on the configurations `ValidClientConfigs` describes. */
  lemma ValidationPassIff(clientConfigs: JsValue)
    ensures ClientConfigsOutcome(clientConfigs).Pass? <==> ValidClientConfigs(clientConfigs)
  {
    if clientConfigs.Obj? {
      var props := clientConfigs.props;
      KeysOutcomePassIff(props, Keys(props));
    }
  }

  /** The emptiness check comes first, then the default check. */
  lemma EmptyAndDefaultChecks(clientConfigs: JsValue)
    requires clientConfigs.Obj?
    ensures clientConfigs.props == [] ==> ClientConfigsOutcome(clientConfigs) == Fail(NoClientConfigs)
    ensures clientConfigs.props != [] && !Truthy(Get(clientConfigs.props, "default")) ==>
            ClientConfigsOutcome(clientConfigs) == Fail(NoDefaultClientConfig)
  {
  }

  /** Equal strings with a common prefix agree after it. */
  lemma DropCommonPrefix(p: string, a: string, b: string)
    requires p + a == p + b
    ensures a == b
  {
    assert a == (p + a)[|p|..];
    assert b == (p + b)[|p|..];
  }

  /** Equal strings with a common suffix agree before it. */
  lemma DropCommonSuffix(a: string, b: string, t: string)
    requires a + t == b + t
    ensures a == b
  {
    assert a == (a + t)[..|a|];
    assert b == (b + t)[..|b|];
  }

  /** The two keyed messages cannot coincide whatever the keys: their
      next-to-last characters differ. */
  lemma KeyedTailsDiffer(a: string, b: string)
    ensures a + NOT_OBJECT_OR_PATH_TAIL != b + NO_ENDPOINT_OR_LINK_TAIL
  {
    var t1, t2 := NOT_OBJECT_OR_PATH_TAIL, NO_ENDPOINT_OR_LINK_TAIL;
    assert t1[|t1| - 2] == 'g' && t2[|t2| - 2] == 'n';
    assert (a + t1)[|a + t1| - 2] == 'g';
    assert (b + t2)[|b + t2| - 2] == 'n';
  }

  /** Different errors have different messages. */
  lemma MessageInjective(e1: ConfigError, e2: ConfigError)
    requires Message(e1) == Message(e2)
    ensures e1 == e2
  {
    DropCommonPrefix(MESSAGE_PREFIX, MessageBody(e1), MessageBody(e2));
    var b1, b2 := MessageBody(e1), MessageBody(e2);
    assert b1[0] == b2[0];
    if e1.NotObjectOrPath? || e1.NoEndpointOrLink? {
      if e2.NotObjectOrPath? || e2.NoEndpointOrLink? {
        DropCommonPrefix(CLIENT_CONFIGURATION, b1[|CLIENT_CONFIGURATION|..], b2[|CLIENT_CONFIGURATION|..]);
        var r1, r2 := b1[|CLIENT_CONFIGURATION|..], b2[|CLIENT_CONFIGURATION|..];
        DropCommonPrefix(CLIENT_CONFIGURATION, r1, r2);
        if e1.NotObjectOrPath? && e2.NotObjectOrPath? {
          DropCommonSuffix(e1.key, e2.key, NOT_OBJECT_OR_PATH_TAIL);
        } else if e1.NoEndpointOrLink? && e2.NoEndpointOrLink? {
          DropCommonSuffix(e1.key, e2.key, NO_ENDPOINT_OR_LINK_TAIL);
        } else if e1.NotObjectOrPath? {
          KeyedTailsDiffer(e1.key, e2.key);
        } else {
          KeyedTailsDiffer(e2.key, e1.key);
        }
      }
    } else if e1.NoClientConfigs? || e1.NoDefaultClientConfig? {
      assert b1[3] == b2[3];
    }
  }
}
