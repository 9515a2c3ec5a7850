/**
 * Configuration of one plugin run: the template environment with its
 * filter and extension registries, the caller's options, and the
 * `--fail` command-line flag.
 */
module Registry {
  import opened Wrappers
  import opened JsValues
  import opened Filters

  /** A registered filter: one of the plugin's own, or a function the caller supplied. */
  datatype Filter<F> = Builtin(kind: BuiltinFilter) | Custom(fn: F)

  /** The five filters the plugin registers before the caller's. */
  function BuiltinTable<F>(): map<string, Filter<F>> {
    map[
      "attributes" := Builtin(AttributesKind),
      "body" := Builtin(BodyKind),
      "render" := Builtin(RenderKind),
      "markdown" := Builtin(MarkdownKind),
      "date" := Builtin(DateKind)]
  }

  /** Merging the built-in table is the same as adding its five entries one after another. */
  lemma BuiltinTableMerged<F>(m: map<string, Filter<F>>)
    ensures m + BuiltinTable() == m["attributes" := Builtin(AttributesKind)]["body" := Builtin(BodyKind)]
                                   ["render" := Builtin(RenderKind)]["markdown" := Builtin(MarkdownKind)]
                                   ["date" := Builtin(DateKind)]
  {
    var e: map<string, Filter<F>> := map[];
    assert m + e == m;
    MergeUpdate(m, e, "attributes", Builtin(AttributesKind));
    var e1 := e["attributes" := Builtin(AttributesKind)];
    MergeUpdate(m, e1, "body", Builtin(BodyKind));
    var e2 := e1["body" := Builtin(BodyKind)];
    MergeUpdate(m, e2, "render", Builtin(RenderKind));
    var e3 := e2["render" := Builtin(RenderKind)];
    MergeUpdate(m, e3, "markdown", Builtin(MarkdownKind));
    var e4 := e3["markdown" := Builtin(MarkdownKind)];
    MergeUpdate(m, e4, "date", Builtin(DateKind));
  }

  lemma MergeUpdate<K, V>(m: map<K, V>, n: map<K, V>, k: K, v: V)
    ensures m + n[k := v] == (m + n)[k := v]
  {
  }

  /** Every caller filter under its own name. */
  function CallerEntries<F>(callers: map<string, F>): map<string, Filter<F>> {
    map k | k in callers :: Custom(callers[k])
  }

  /**
   * The filter registry of a configured run: the built-ins, then the caller
   * filters, so that on a name clash the caller's registration wins.
   */
  function FilterTable<F>(callers: map<string, F>): (t: map<string, Filter<F>>)
    ensures t.Keys == BuiltinTable<F>().Keys + callers.Keys
    ensures forall k :: k in callers ==> t[k] == Custom(callers[k])
    ensures forall k :: k in BuiltinTable<F>() && k !in callers ==> t[k] == BuiltinTable<F>()[k]
  {
    BuiltinTable() + CallerEntries(callers)
  }

  /** The caller may override a built-in, e.g. `render`, by supplying a filter of that name. */
  lemma CallerOverridesBuiltin<F>(callers: map<string, F>, name: string)
    requires name in BuiltinTable<F>() && name in callers
    ensures FilterTable(callers)[name] == Custom(callers[name])
    ensures FilterTable(callers)[name] != BuiltinTable<F>()[name]
  {
  }

  /** `--fail` only counts after the first three arguments (node, gulp, the task name). */
  predicate FailFlagGiven(argv: seq<string>) {
    exists i :: 3 <= i < |argv| && argv[i] == "--fail"
  }

  /** Whatever the first three arguments are, the flag is given exactly when it is among the rest. */
  lemma FailFlagAfterLeadingThree(lead: seq<string>, rest: seq<string>)
    requires |lead| == 3
    ensures FailFlagGiven(lead + rest) <==> "--fail" in rest
  {
    var argv := lead + rest;
    if "--fail" in rest {
      var j :| 0 <= j < |rest| && rest[j] == "--fail";
      assert argv[j + 3] == "--fail";
    }
    if FailFlagGiven(argv) {
      var i :| 3 <= i < |argv| && argv[i] == "--fail";
      assert rest[i - 3] == "--fail";
    }
  }

  /** The template environment (`nunjucks.configure(paths, {noCache: true})`) and its registries. */
  class Environment<F, X> {
    var paths: seq<string>
    var noCache: bool
    var filters: map<string, Filter<F>>
    var extensions: map<string, X>

    constructor Configure(searchPaths: seq<string>)
      ensures paths == searchPaths && noCache
      ensures filters == map[] && extensions == map[]
    {
      paths := searchPaths;
      noCache := true;
      filters := map[];
      extensions := map[];
    }

    /** `addFilter(name, f)`: a later registration under the same name replaces the earlier one. */
    method AddFilter(name: string, f: Filter<F>)
      modifies this`filters
      ensures filters == old(filters)[name := f]
    {
      filters := filters[name := f];
    }

    /** `addExtension(name, x)`. */
    method AddExtension(name: string, x: X)
      modifies this`extensions
      ensures extensions == old(extensions)[name := x]
    {
      extensions := extensions[name := x];
    }

    /** The five `addFilter` calls for the plugin's own filters. */
    method AddBuiltinFilters()
      modifies this`filters
      ensures filters == old(filters) + BuiltinTable()
    {
      BuiltinTableMerged(filters);
      AddFilter("attributes", Builtin(AttributesKind));
      AddFilter("body", Builtin(BodyKind));
      AddFilter("render", Builtin(RenderKind));
      AddFilter("markdown", Builtin(MarkdownKind));
      AddFilter("date", Builtin(DateKind));
    }

    /** `Object.keys(callers).forEach(k => addFilter(k, callers[k]))`, in any key order. */
    method AddCallerFilters(callers: map<string, F>)
      modifies this`filters
      ensures filters == old(filters) + CallerEntries(callers)
    {
      var pending := callers.Keys;
      while pending != {}
        invariant pending <= callers.Keys
        invariant filters == old(filters) + map k | k in callers.Keys - pending :: Custom(callers[k])
        decreases pending
      {
        var k :| k in pending;
        AddFilter(k, Custom(callers[k]));
        pending := pending - {k};
      }
    }

    /** `Object.keys(tags).forEach(k => addExtension(k, tags[k]))`, in any key order. */
    method AddCallerTags(tags: map<string, X>)
      modifies this`extensions
      ensures extensions == old(extensions) + tags
    {
      var pending := tags.Keys;
      while pending != {}
        invariant pending <= tags.Keys
        invariant extensions == old(extensions) + map k | k in tags.Keys - pending :: tags[k]
        decreases pending
      {
        var k :| k in pending;
        AddExtension(k, tags[k]);
        pending := pending - {k};
      }
    }
  }

  /** The options object the caller passes; absent `filters` or `tags` are `None`. */
  class Options<F, X> {
    var paths: seq<string>
    var filters: Option<map<string, F>>
    var tags: Option<map<string, X>>
    var variables: Value
    var failOnError: bool

    constructor (paths: seq<string>, filters: Option<map<string, F>>, tags: Option<map<string, X>>,
                 variables: Value, failOnError: bool)
      ensures this.paths == paths && this.filters == filters && this.tags == tags
      ensures this.variables == variables && this.failOnError == failOnError
    {
      this.paths := paths;
      this.filters := filters;
      this.tags := tags;
      this.variables := variables;
      this.failOnError := failOnError;
    }

    /** The `process.argv.forEach` loop: `--fail` at index 3 or later sets `failOnError`. */
    method ReadCommandLine(argv: seq<string>)
      modifies this`failOnError
      ensures failOnError == (old(failOnError) || FailFlagGiven(argv))
    {
      var i := 0;
      while i < |argv|
        invariant 0 <= i <= |argv|
        invariant failOnError == (old(failOnError) || exists j :: 3 <= j < i && argv[j] == "--fail")
      {
        if i >= 3 && argv[i] == "--fail" {
          failOnError := true;
        }
        i := i + 1;
      }
    }
  }

  /**
   * The set-up part of the plugin factory: configure the environment,
   * register the built-in filters, the caller filters and the caller tags,
   * then read the command line. `Object.keys` throws on absent filters or
   * tags; `thrown` reports that, and the steps after it do not happen.
   */
  method Setup<F, X>(options: Options<F, X>, argv: seq<string>) returns (env: Environment<F, X>, thrown: bool)
    modifies options`failOnError
    ensures fresh(env)
    ensures thrown <==> options.filters.None? || options.tags.None?
    ensures env.paths == options.paths && env.noCache
    ensures env.filters == if options.filters.None? then BuiltinTable() else FilterTable(options.filters.value)
    ensures env.extensions == if thrown then map[] else options.tags.value
    ensures options.failOnError == if thrown then old(options.failOnError)
                                   else old(options.failOnError) || FailFlagGiven(argv)
  {
    env := new Environment.Configure(options.paths);
    env.AddBuiltinFilters();
    if options.filters.None? {
      return env, true;
    }
    env.AddCallerFilters(options.filters.value);
    if options.tags.None? {
      return env, true;
    }
    env.AddCallerTags(options.tags.value);
    options.ReadCommandLine(argv);
    thrown := false;
  }
}
