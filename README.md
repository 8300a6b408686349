# apollo-module setup routine, modelled in Dafny

This project models the setup function of the Nuxt `apollo-module`
(`lib/module.js`). The function does four things in order:

1. It picks the options: `this.options.apollo`, or else the module options.
2. It validates `clientConfigs`. The mapping must be non-empty and must have a
   truthy `default`. Every entry must be a module path or a client
   description. The first bad key, in key order, throws.
3. It writes defaults for `tokenName`, `tokenExpires` and
   `authenticationType`, then refuses an `errorHandler` that is not a function.
4. It registers a plugin, the vendor list (only before Nuxt 2) and an
   `extendBuild` callback. Per build target, the callback adds the GraphQL
   extensions and the `graphql-tag/loader` rule when they are missing. On
   server targets it pushes a pattern onto `transpile` (Nuxt 2) or overwrites
   `externals` (older Nuxt).

Files and modules:

- `jsvalues.dfy` (`JsValues`): JavaScript values. Covers `typeof`,
  truthiness, `Object.keys`, property lookup, `||` and `=== undefined ? :`.
  An object is the list of its own properties in `Object.keys` order.
  Regular expressions and functions are opaque values.
- `clientconfigs.dfy` (`ClientConfigs`): the `clientConfigs` validation. It
  holds the per-entry rule as a function, the key loop as a method proved
  against a specification function, and the invariant `ValidClientConfigs`
  with lemmas tying the two together. It also holds the
  error messages and a proof that different errors have different messages.
  `IS_LINK_RE` is `MatchesLinkRe`, written the way the regular expression
  reads. `LinkReIsUrlPrefix` proves it equal to the two-prefix test.
- `options.dfy` (`ApolloOptions`): the options object as a class that
  `FillDefaults` updates in place, plus the default rules and the
  `errorHandler` check.
- `build.dfy` (`WebpackBuild`): the webpack configuration as a class. The
  source reassigns the extension list and pushes onto the rule list in place;
  both are `seq` fields that the methods reassign. Pure functions give the
  lists afterwards, and lemmas prove idempotence and that only an append
  happens.
- `module.dfy` (`ApolloModule`): the host container (`Nuxt`) with `Setup` and
  the `ExtendBuild` callback. The framework calls are recorded as a sequence
  of `HostEvent`s.

Runtime failures that are not the module's own errors are the `TypeError`
outcome. These are: `Object.keys` of `undefined` or `null`, a `null` entry
whose `httpEndpoint` is read, and options that are absent altogether.

Where the code's behaviour differs from what its messages and option names suggest, the model follows the code:

- The default check tests truthiness, not presence. A `default` of `0` or `''`
  is refused.
- `typeof null` is `"object"`. So `link: null` satisfies the entry rule, and a
  `null` entry throws a TypeError rather than the module's error.
- An object entry whose `httpEndpoint` is not a URL fails unless it has a
  `link` whose `typeof` is `"object"`.
- Only the extension and loader steps are idempotent. On Nuxt 2 server
  targets, the transpile push adds the pattern again on every call.
  `ServerBuildTwice` shows this.

## Model

| member | source | states |
|---|---|---|
| JsValues.Typeof | lib/module.js:22-27 | `typeof` gives one of the six type names of the modelled values, and it is "object" exactly for null, objects, arrays and regular expressions |
| JsValues.Keys | lib/module.js:13 | `Object.keys` of an object lists every property's key, in property order |
| JsValues.Get | lib/module.js:20 | `obj[key]` is `undefined` when no property has that key, and otherwise the value of the first property with that key |
| ClientConfigs.LinkReIsUrlPrefix | lib/module.js:4 | `/^https?:\/\//` matches exactly the strings that start with "http://" or "https://" |
| ClientConfigs.EntryOutcome | lib/module.js:20-30 | an entry passes iff it is a non-URL string or a non-null object with a URL `httpEndpoint` or an object-typed `link`; a null entry is a TypeError; a failing non-object names its key with "should be an object or a path", a failing object with "must define httpEndpoint or link" |
| ClientConfigs.ValidateClientConfigs | lib/module.js:12-31 | the loop over the keys returns the outcome of the specification: the emptiness check, then the default check, then each key in order until the first failure |
| ClientConfigs.KeysOutcomePassIff | lib/module.js:19-31 | the key loop passes iff the entry of every key passes |
| ClientConfigs.KeysOutcomeIsFirstFailure | lib/module.js:19-31 | when all keys before key i pass and key i does not, the loop's outcome is that of key i |
| ClientConfigs.KeysOutcomeNamesCheckedKey | lib/module.js:24-28 | a module error from the key loop is an entry error and names one of the checked keys |
| ClientConfigs.ValidationPassIff | lib/module.js:12-31 | validation passes iff `clientConfigs` is an object with at least one key, a truthy `default` and only accepted entries |
| ClientConfigs.EmptyAndDefaultChecks | lib/module.js:15-16 | an empty object fails with "No clientConfigs found"; a non-empty one without a truthy `default` fails with "No default client configuration" |
| ClientConfigs.MessageInjective | lib/module.js:15-38 | two errors with the same message text are the same error, key included |
| ApolloOptions.TokenNameDefault | lib/module.js:33 | the token name afterwards is the old value when that was truthy and 'apollo-token' otherwise; it is always truthy |
| ApolloOptions.TokenExpiresDefault | lib/module.js:34 | the expiry afterwards is the old value when that was truthy and 7 otherwise (0, NaN and undefined included); it is always truthy |
| ApolloOptions.AuthenticationTypeDefault | lib/module.js:35 | the authentication type afterwards is the old value when that was defined and 'Bearer' when it was undefined |
| ApolloOptions.DefaultsIdempotent | lib/module.js:33-35 | filling the defaults a second time changes none of the three fields |
| ApolloOptions.DefaultsEdgeCases | lib/module.js:33-35 | 0 and NaN expiry and an empty token name are replaced; null and '' authentication types are kept; undefined becomes 'Bearer' |
| ApolloOptions.ErrorHandlerOutcome | lib/module.js:37-39 | the error handler passes iff it is undefined or a function, and otherwise fails with "errorHandler must be a function" |
| ApolloOptions.OptionsOutcomeSpec | lib/module.js:12-39 | the option checks pass iff the client configurations are valid and the error handler is absent or a function; a client-configuration error wins over an error-handler error |
| ApolloOptions.ModuleOptions.FillDefaults | lib/module.js:33-35 | the three defaulted fields take their default rules' values and no other field changes |
| WebpackBuild.HasGqlExt | lib/module.js:57-59 | true iff some extension is ".graphql" or ".gql" |
| WebpackBuild.WithGqlExtensionsSpec | lib/module.js:57-63 | without a GraphQL extension the list becomes the old list followed by ".graphql", ".gql"; with either one it is unchanged; afterwards one is present |
| WebpackBuild.WithGqlExtensionsIdempotent | lib/module.js:57-63 | adding the extensions twice gives the same list as adding them once |
| WebpackBuild.HasGqlLoader | lib/module.js:67-69 | true iff some rule's `use` is "graphql-tag/loader" |
| WebpackBuild.GqlRule | lib/module.js:72-79 | the new rule uses the loader and tests GraphQL files; it has an `exclude` of node_modules iff `includeNodeModules` is falsy |
| WebpackBuild.WithGqlLoaderSpec | lib/module.js:65-82 | the rule list is unchanged when a rule already uses the loader, and otherwise gains one loader rule at its end; afterwards the loader is present |
| WebpackBuild.WithGqlLoaderIdempotent | lib/module.js:65-82 | a second pass adds no rule, whatever `includeNodeModules` is then |
| WebpackBuild.ExactlyOneLoaderAdded | lib/module.js:65-82 | from a list without a loader rule, the step yields exactly one loader rule |
| WebpackBuild.WebpackConfig.AddGqlExtensions | lib/module.js:57-63 | `resolve.extensions` becomes the list the extension rule gives, and nothing else changes |
| WebpackBuild.WebpackConfig.AddGqlLoader | lib/module.js:65-82 | `module.rules` becomes the list the loader rule gives, and nothing else changes |
| ApolloModule.RegistrationEvents | lib/module.js:42-54 | a successful setup registers the plugin first and the build callback last; a vendor registration occurs iff the host is not Nuxt 2, and then it is the second call and names exactly 'vue-apollo', 'js-cookie' and 'cookie' |
| ApolloModule.Nuxt.SourcedOptions | lib/module.js:10 | the host's apollo options when present, otherwise the module options |
| ApolloModule.Nuxt.Setup | lib/module.js:7-54 | with no options, a TypeError; otherwise the outcome of the option checks. Defaults are written once validation passes, even if the error handler then fails. The client configurations and all other fields are kept. Framework calls are recorded only on success |
| ApolloModule.Nuxt.ExtendBuild | lib/module.js:54-98 | extensions and rules follow their add-when-missing rules; a server target on Nuxt 2 appends the pattern to `transpile` on every call; another server target replaces `externals` with one element; a client target changes neither |

## Left out

- `addPlugin`, `addVendor` and `extendBuild` are the host framework's own calls. They are recorded as `HostEvent`s, and what the framework does with them is not modelled.
- `path.join(__dirname, ...)` is not modelled. The plugin event carries the relative template path.
- `webpack-node-externals` is a foreign library. Its result is the opaque function value `APOLLO_NODE_EXTERNALS`.
- The regular expressions in the loader rule and `apolloModuleRe` are opaque values that keep their source text. Only `IS_LINK_RE` is given its meaning.
- Nuxt 2 is detected by whether `build.transpile` is present: an array is always truthy. A `transpile` that is present but not an array is not modelled.
- `ExtendBuild` receives the options object and the Nuxt 2 flag as parameters. These are the values the callback closes over at setup.
- When the host aliases the options object or the configuration objects across calls, that is not modelled.
- JavaScript numbers are `real`. NaN is a separate value, and floating-point rounding is not modelled.
- `Object.keys` order: an object's property list is taken to already be in that order. JavaScript puts integer-like keys first, and that reordering is not modelled.
- The prototype chain is not modelled. Arrays, regular expressions and functions have none of the properties the module reads.
- JsValues.Get: on a malformed property list with repeated keys, the first property wins. A JavaScript object cannot have repeated keys.
- Webpack rules are always objects. A rule that is `null` or `undefined`, on which `rule.use` would throw, is not modelled. Neither is a configuration without `resolve` or `module`: the module does not handle these.
- WebpackBuild.WebpackConfig.AddGqlLoader: `rules.push(gqlRules)` changes the rules array in place; the model reassigns the `rules` field, so another holder of the same array is not seen to change.
- ApolloModule.Nuxt.ExtendBuild: `transpile.push(apolloModuleRe)` changes the host's array in place; the model reassigns the `transpile` field, so another holder of the same array is not seen to change. Its rule step inherits the same reduction from `AddGqlLoader`.
- JsValues.Typeof: JavaScript has eight `typeof` results; symbols and bigints are not modelled, so "symbol" and "bigint" never occur.
- ApolloModule.Nuxt.SourcedOptions: `this.options.apollo || moduleOptions` is modelled as a null test on an options object. A falsy primitive `apollo` (`false`, `''`, `0`), which would also fall back to the module options, and a truthy primitive `apollo` cannot be expressed.
