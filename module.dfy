/** The exported setup function of lib/module.js and the `extendBuild`
    callback it registers. The host framework (`this` of the module) is a
    class whose calls into the framework are recorded as events. */
module ApolloModule {
  import opened JsValues
  import opened ClientConfigs
  import opened ApolloOptions
  import opened WebpackBuild

  const PLUGIN_TEMPLATE: string := "./templates/plugin.js"
  const PLUGIN_FILE_NAME: string := "apollo-module.js"
  const VENDOR_PACKAGES: seq<string> := ["vue-apollo", "js-cookie", "cookie"]
  /** `/^vue-cli-plugin-apollo/`, kept as its source text. */
  const APOLLO_MODULE_RE: JsValue := Regex("^vue-cli-plugin-apollo")
  /** What `nodeExternals({ whitelist: [apolloModuleRe] })` returns, as an opaque function. */
  const APOLLO_NODE_EXTERNALS: JsValue := Func("nodeExternals({ whitelist: [/^vue-cli-plugin-apollo/] })")

  datatype Option<T> = None | Some(value: T)

  /** A call the setup routine makes into the host framework. */
  datatype HostEvent =
    | PluginAdded(options: ModuleOptions, src: string, fileName: string)
    | VendorAdded(packages: seq<string>)
    | BuildExtended(options: ModuleOptions, isNuxtVersion2: bool)

  /** The calls a successful setup makes, in order (lines 42-54). */
  function RegistrationEvents(options: ModuleOptions, isNuxtVersion2: bool): (es: seq<HostEvent>)
    ensures |es| == if isNuxtVersion2 then 2 else 3
    ensures es[0] == PluginAdded(options, PLUGIN_TEMPLATE, PLUGIN_FILE_NAME)
    ensures es[|es| - 1] == BuildExtended(options, isNuxtVersion2)
    ensures (exists i :: 0 <= i < |es| && es[i].VendorAdded?) <==> !isNuxtVersion2
    ensures !isNuxtVersion2 ==> es[1] == VendorAdded(VENDOR_PACKAGES)
  {
    var es := [PluginAdded(options, PLUGIN_TEMPLATE, PLUGIN_FILE_NAME)]
      + (if isNuxtVersion2 then [] else [VendorAdded(VENDOR_PACKAGES)])
      + [BuildExtended(options, isNuxtVersion2)];
    assert !isNuxtVersion2 ==> es[1].VendorAdded?;
    assert isNuxtVersion2 ==> !es[0].VendorAdded? && !es[1].VendorAdded?;
    es
  }

  /** The module container of the host framework. */
  class Nuxt {
    /** `this.options.apollo`, `null` when absent. */
    var apollo: ModuleOptions?
    /** `this.options.build.transpile`, present only in Nuxt 2. */
    var transpile: Option<seq<JsValue>>
    /** The calls made into the framework so far. */
    var events: seq<HostEvent>

    constructor (apollo: ModuleOptions?, transpile: Option<seq<JsValue>>)
      ensures this.apollo == apollo && this.transpile == transpile && events == []
    {
      this.apollo := apollo;
      this.transpile := transpile;
      events := [];
    }

    /** Line 10: `this.options.apollo || moduleOptions`. */
    function SourcedOptions(moduleOptions: ModuleOptions?): (o: ModuleOptions?)
      reads this
      ensures apollo != null ==> o == apollo
      ensures apollo == null ==> o == moduleOptions
    {
      if apollo != null then apollo else moduleOptions
    }

    /** The setup routine (lines 7-54). It fails without registering
        anything; once the client configurations pass it has written the
        defaults, even when the error handler then fails. */
    method Setup(moduleOptions: ModuleOptions?) returns (r: Outcome)
      modifies this`events, apollo, moduleOptions
      ensures var options := SourcedOptions(moduleOptions);
        && (options == null ==> r == TypeError && events == old(events))
        && (options != null ==>
            && r == OptionsOutcome(old(options.clientConfigs), old(options.errorHandler))
            && options.clientConfigs == old(options.clientConfigs)
            && options.errorHandler == old(options.errorHandler)
            && options.includeNodeModules == old(options.includeNodeModules)
            && (ClientConfigsOutcome(old(options.clientConfigs)).Pass? ==>
                && options.tokenName == TokenNameDefault(old(options.tokenName))
                && options.tokenExpires == TokenExpiresDefault(old(options.tokenExpires))
                && options.authenticationType == AuthenticationTypeDefault(old(options.authenticationType)))
            && (!ClientConfigsOutcome(old(options.clientConfigs)).Pass? ==>
                && options.tokenName == old(options.tokenName)
                && options.tokenExpires == old(options.tokenExpires)
                && options.authenticationType == old(options.authenticationType))
            && events == if r.Pass? then old(events) + RegistrationEvents(options, old(transpile).Some?)
                         else old(events))
      ensures apollo == old(apollo) && transpile == old(transpile)
      ensures var options := SourcedOptions(moduleOptions);
        forall o: ModuleOptions :: o != options && (o == apollo || o == moduleOptions) ==>
          o.clientConfigs == old(o.clientConfigs) && o.tokenName == old(o.tokenName) &&
          o.tokenExpires == old(o.tokenExpires) && o.authenticationType == old(o.authenticationType) &&
          o.errorHandler == old(o.errorHandler) && o.includeNodeModules == old(o.includeNodeModules)
    {
      var isNuxtVersion2 := transpile.Some?;
      var options := SourcedOptions(moduleOptions);
      if options == null {
        return TypeError;
      }
      r := ValidateClientConfigs(options.clientConfigs);
      if !r.Pass? {
        return;
      }
      options.FillDefaults();
      r := ErrorHandlerOutcome(options.errorHandler);
      if !r.Pass? {
        return;
      }
      events := events + [PluginAdded(options, PLUGIN_TEMPLATE, PLUGIN_FILE_NAME)];
      if !isNuxtVersion2 {
        events := events + [VendorAdded(VENDOR_PACKAGES)];
      }
      events := events + [BuildExtended(options, isNuxtVersion2)];
    }

    /** The `extendBuild` callback (lines 54-98), run by the host once per
        build target with what the setup captured. Extensions and the loader
        rule are added only when missing; on a server target Nuxt 2 gets the
        pattern pushed onto `transpile` on every call, older versions get
        `externals` overwritten. */
    method ExtendBuild(options: ModuleOptions, isNuxtVersion2: bool, config: WebpackConfig, isServer: bool)
      requires isNuxtVersion2 ==> transpile.Some?
      modifies this`transpile, config
      ensures config.extensions == WithGqlExtensions(old(config.extensions))
      ensures config.rules == WithGqlLoader(old(config.rules), options.includeNodeModules)
      ensures transpile == if isServer && isNuxtVersion2 then Some(old(transpile).value + [APOLLO_MODULE_RE])
                           else old(transpile)
      ensures config.externals == if isServer && !isNuxtVersion2 then Arr([APOLLO_NODE_EXTERNALS])
                                  else old(config.externals)
      ensures transpile.Some? == old(transpile).Some?
    {
      config.AddGqlExtensions();
      config.AddGqlLoader(options.includeNodeModules);
      if isServer {
        if isNuxtVersion2 {
          transpile := Some(transpile.value + [APOLLO_MODULE_RE]);
        } else {
          config.externals := Arr([APOLLO_NODE_EXTERNALS]);
        }
      }
    }
  }

  /** Two server builds on Nuxt 2: extensions and loader rule appear once,
      the transpile pattern twice. */
  method ServerBuildTwice(options: ModuleOptions)
  {
    var nuxt := new Nuxt(null, Some([]));
    var config := new WebpackConfig([".js"], [], Undefined);
    WithGqlExtensionsSpec([".js"]);
    WithGqlLoaderSpec([], options.includeNodeModules);
    nuxt.ExtendBuild(options, true, config, true);
    assert config.extensions == [".js", ".graphql", ".gql"];
    assert config.rules == [GqlRule(options.includeNodeModules)];
    assert [] + [APOLLO_MODULE_RE] == [APOLLO_MODULE_RE];
    assert nuxt.transpile == Some([APOLLO_MODULE_RE]);
    WithGqlExtensionsIdempotent([".js"]);
    WithGqlLoaderIdempotent([], options.includeNodeModules, options.includeNodeModules);
    nuxt.ExtendBuild(options, true, config, true);
    assert config.extensions == [".js", ".graphql", ".gql"];
    assert config.rules == [GqlRule(options.includeNodeModules)];
    assert [APOLLO_MODULE_RE] + [APOLLO_MODULE_RE] == [APOLLO_MODULE_RE, APOLLO_MODULE_RE];
    assert nuxt.transpile == Some([APOLLO_MODULE_RE, APOLLO_MODULE_RE]);
    assert config.externals == Undefined;
  }
}
