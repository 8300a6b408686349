/** The webpack configuration the `extendBuild` callback augments
    (lib/module.js lines 5 and 55-82): GraphQL file extensions and the
    `graphql-tag/loader` rule, each added only when missing. */
module WebpackBuild {
  import opened JsValues

  /** `ALLOW_GQL_FILES` */
  const ALLOW_GQL_FILES: seq<string> := [".graphql", ".gql"]
  const GQL_LOADER: string := "graphql-tag/loader"
  /** The regular expressions of the rule, kept as their source text only. */
  const GQL_FILES_RE: JsValue := Regex("\\.(graphql|gql)$")
  const NODE_MODULES_RE: JsValue := Regex("(node_modules)")

  /** A webpack rule: a plain object given by its properties. */
  datatype Rule = Rule(props: seq<Prop>)

  /** `resolve.extensions.some(ext => ALLOW_GQL_FILES.includes(ext))` */
  function HasGqlExt(extensions: seq<string>): (r: bool)
    ensures r <==> exists i :: 0 <= i < |extensions| && extensions[i] in ALLOW_GQL_FILES
  {
    if extensions == [] then false
    else extensions[0] in ALLOW_GQL_FILES || HasGqlExt(extensions[1..])
  }

  /** Lines 57-63: the extensions afterwards. */
  function WithGqlExtensions(extensions: seq<string>): seq<string> {
    if HasGqlExt(extensions) then extensions else extensions + ALLOW_GQL_FILES
  }

  /** Without a GraphQL extension both are appended after the old list;
      with either one the list is kept as it is (so `.gql` alone does not
      get `.graphql`); afterwards a GraphQL extension is always present. */
  lemma WithGqlExtensionsSpec(extensions: seq<string>)
    ensures !HasGqlExt(extensions) ==> WithGqlExtensions(extensions) == extensions + [".graphql", ".gql"]
    ensures HasGqlExt(extensions) ==> WithGqlExtensions(extensions) == extensions
    ensures HasGqlExt(WithGqlExtensions(extensions))
  {
    if !HasGqlExt(extensions) {
      var r := extensions + ALLOW_GQL_FILES;
      assert r[|extensions|] == ".graphql";
    }
  }

  /** Adding the extensions twice gives the list of adding them once. */
  lemma WithGqlExtensionsIdempotent(extensions: seq<string>)
    ensures WithGqlExtensions(WithGqlExtensions(extensions)) == WithGqlExtensions(extensions)
  {
    WithGqlExtensionsSpec(extensions);
  }

  /** `rule.use === 'graphql-tag/loader'` */
  predicate UsesGqlLoader(rule: Rule) {
    Get(rule.props, "use") == Str(GQL_LOADER)
  }

  /** `rules.some(rule => rule.use === 'graphql-tag/loader')` */
  function HasGqlLoader(rules: seq<Rule>): (r: bool)
    ensures r <==> exists i :: 0 <= i < |rules| && UsesGqlLoader(rules[i])
  {
    if rules == [] then false
    else UsesGqlLoader(rules[0]) || HasGqlLoader(rules[1..])
  }

  /** Whether a rule carries an `exclude` property. */
  predicate HasExclude(rule: Rule) {
    exists i :: 0 <= i < |rule.props| && rule.props[i].key == "exclude"
  }

  /** Lines 72-79: the rule `{test, use}` with `exclude` added when
      `includeNodeModules` is falsy. */
  function GqlRule(includeNodeModules: JsValue): (r: Rule)
    ensures UsesGqlLoader(r)
    ensures Get(r.props, "test") == GQL_FILES_RE
    ensures HasExclude(r) <==> !Truthy(includeNodeModules)
    ensures HasExclude(r) ==> Get(r.props, "exclude") == NODE_MODULES_RE
  {
    var base := [Prop("test", GQL_FILES_RE), Prop("use", Str(GQL_LOADER))];
    if Truthy(includeNodeModules) then
      assert forall i :: 0 <= i < |base| ==> base[i].key in {"test", "use"};
      Rule(base)
    else
      var props := base + [Prop("exclude", NODE_MODULES_RE)];
      assert props[2].key == "exclude";
      assert props[1..][1..] == [Prop("exclude", NODE_MODULES_RE)];
      assert Get(props, "exclude") == Get(props[1..], "exclude") == Get(props[1..][1..], "exclude");
      Rule(props)
  }

  /** Lines 65-82: the rules afterwards. */
  function WithGqlLoader(rules: seq<Rule>, includeNodeModules: JsValue): seq<Rule> {
    if HasGqlLoader(rules) then rules else rules + [GqlRule(includeNodeModules)]
  }

  /** The rule list gains exactly one loader rule at its end, and only when
      no rule uses the loader yet; existing rules are untouched. */
  lemma WithGqlLoaderSpec(rules: seq<Rule>, includeNodeModules: JsValue)
    ensures HasGqlLoader(rules) ==> WithGqlLoader(rules, includeNodeModules) == rules
    ensures !HasGqlLoader(rules) ==> WithGqlLoader(rules, includeNodeModules) == rules + [GqlRule(includeNodeModules)]
    ensures HasGqlLoader(WithGqlLoader(rules, includeNodeModules))
  {
    if !HasGqlLoader(rules) {
      var r := rules + [GqlRule(includeNodeModules)];
      assert UsesGqlLoader(r[|rules|]);
    }
  }

  /** A second pass adds nothing, whatever `includeNodeModules` is then. */
  lemma WithGqlLoaderIdempotent(rules: seq<Rule>, inc1: JsValue, inc2: JsValue)
    ensures WithGqlLoader(WithGqlLoader(rules, inc1), inc2) == WithGqlLoader(rules, inc1)
  {
    WithGqlLoaderSpec(rules, inc1);
  }

  /** The number of rules that use the loader. */
  function CountGqlLoaders(rules: seq<Rule>): nat {
    if rules == [] then 0
    else (if UsesGqlLoader(rules[0]) then 1 else 0) + CountGqlLoaders(rules[1..])
  }

  lemma {:induction false} CountGqlLoadersAppend(rules: seq<Rule>, rule: Rule)
    ensures CountGqlLoaders(rules + [rule]) == CountGqlLoaders(rules) + (if UsesGqlLoader(rule) then 1 else 0)
  {
    if rules != [] {
      assert (rules + [rule])[1..] == rules[1..] + [rule];
      CountGqlLoadersAppend(rules[1..], rule);
    }
  }

  lemma {:induction false} NoLoaderCountsZero(rules: seq<Rule>)
    requires !HasGqlLoader(rules)
    ensures CountGqlLoaders(rules) == 0
  {
    if rules != [] {
      NoLoaderCountsZero(rules[1..]);
    }
  }

  /** Starting from no loader rule, one pass leaves exactly one loader rule
      (and by `WithGqlLoaderIdempotent` later passes keep it that way). */
  lemma ExactlyOneLoaderAdded(rules: seq<Rule>, includeNodeModules: JsValue)
    requires !HasGqlLoader(rules)
    ensures CountGqlLoaders(WithGqlLoader(rules, includeNodeModules)) == 1
  {
    NoLoaderCountsZero(rules);
    CountGqlLoadersAppend(rules, GqlRule(includeNodeModules));
  }

  /** The bundler configuration of one build target. */
  class WebpackConfig {
    /** `config.resolve.extensions` */
    var extensions: seq<string>
    /** `config.module.rules` */
    var rules: seq<Rule>
    /** `config.externals` */
    var externals: JsValue

    constructor (extensions: seq<string>, rules: seq<Rule>, externals: JsValue)
      ensures this.extensions == extensions && this.rules == rules && this.externals == externals
    {
      this.extensions := extensions;
      this.rules := rules;
      this.externals := externals;
    }

    /** Lines 57-63: reassign the extensions when neither GraphQL extension is present. */
    method AddGqlExtensions()
      modifies this`extensions
      ensures extensions == WithGqlExtensions(old(extensions))
    {
      var hasGqlExt := HasGqlExt(extensions);
      if !hasGqlExt {
        extensions := extensions + ALLOW_GQL_FILES;
      }
    }

    /** Lines 65-82: push the loader rule when no rule uses the loader. */
    method AddGqlLoader(includeNodeModules: JsValue)
      modifies this`rules
      ensures rules == WithGqlLoader(old(rules), includeNodeModules)
    {
      var hasGqlLoader := HasGqlLoader(rules);
      if !hasGqlLoader {
        var base := [Prop("test", GQL_FILES_RE), Prop("use", Str(GQL_LOADER))];
        var gqlRule := Rule(base);
        if !Truthy(includeNodeModules) {
          gqlRule := Rule(gqlRule.props + [Prop("exclude", NODE_MODULES_RE)]);
        }
        rules := rules + [gqlRule];
      }
    }
  }
}
