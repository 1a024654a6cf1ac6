/** `expand_macro`: resolve the attribute, relocate the function, synthesize
    the wrapper, hand it to the wasm-bindgen expander and emit the renamed
    function followed by a module holding the exported wrapper. */
module Event {
  import opened Wrappers
  import opened Handler
  import opened Attributes
  import opened Relocation
  import opened Synthesis

  /** A `use` declaration: a root path and the names it brings in. */
  datatype UsePath = UsePath(root: string, names: seq<string>)

  /** The private module that imports the relocated function and holds the
      wrapper as the wasm-bindgen expander exported it. */
  datatype WorkerModule = WorkerModule(name: string, uses: seq<UsePath>, exported: Wrapper)

  /** What the wasm-bindgen expander does with a wrapper: export it as it
      is, or fail with an error whose debug text is `detail`. */
  datatype Expansion = Exported | ExpandError(detail: string)

  /** An item of the emitted token stream. */
  datatype Item = FnItem(f: ItemFn) | ModItem(m: WorkerModule)

  function ModuleName(kind: HandlerKind): string {
    match kind
    case Fetch => "_worker_fetch"
    case Scheduled => "_worker_scheduled"
  }

  const BindgenImports := UsePath("::worker", ["wasm_bindgen", "wasm_bindgen_futures"])

  /** The emitted items for a relocated function and its wrapper. */
  function Assemble(renamed: ItemFn, kind: HandlerKind, w: Wrapper): seq<Item> {
    [FnItem(renamed),
     ModItem(WorkerModule(ModuleName(kind), [BindgenImports, UsePath("super", [renamed.sig.ident])], w))]
  }

  /** The whole expansion. `bindgen` stands for the wasm-bindgen expander: it
      either accepts the wrapper, which is then exported as it is, or fails,
      which aborts the expansion with the expander's error. */
  function Expand(attrs: seq<string>, f: ItemFn, bindgen: Wrapper -> Expansion): Result<seq<Item>, Diag> {
    match Resolve(attrs)
    case Err(d) => Err(d)
    case Ok(cfg) =>
      var renamed := Renamed(f, cfg.kind);
      var w := Synthesize(cfg, renamed.sig.ident);
      match bindgen(w)
      case Exported => Ok(Assemble(renamed, cfg.kind, w))
      case ExpandError(detail) => Err(BindgenFailed(detail))
  }

  /** The macro entry point as the source runs it: the attribute loop, then
      the in-place rename of the user's function, then the wrapper. A bad
      attribute aborts before the function is touched. */
  method ExpandMacro(attrs: seq<string>, input: SourceFunction, bindgen: Wrapper -> Expansion)
    returns (r: Result<seq<Item>, Diag>)
    modifies input
    ensures r == Expand(attrs, old(input.Value()), bindgen)
    ensures Resolve(attrs).Err? ==> input.Value() == old(input.Value())
    ensures Resolve(attrs).Ok? ==> input.Value() == Renamed(old(input.Value()), Resolve(attrs).value.kind)
  {
    var config := ResolveAttributes(attrs);
    if config.Err? {
      return Err(config.error);
    }
    var cfg := config.value;
    var glue := input.Relocate(cfg.kind);
    var wrapper := Synthesize(cfg, glue);
    var expansion := bindgen(wrapper);
    if expansion.ExpandError? {
      return Err(BindgenFailed(expansion.detail));
    }
    r := Ok(Assemble(input.Value(), cfg.kind, wrapper));
  }

  /** Expansion fails with the resolution diagnostic when resolution fails,
      and otherwise exactly when the wasm-bindgen expander rejects the
      wrapper, carrying the expander's error. */
  lemma ExpandFailures(attrs: seq<string>, f: ItemFn, bindgen: Wrapper -> Expansion)
    ensures Resolve(attrs).Err? ==> Expand(attrs, f, bindgen) == Err(Resolve(attrs).error)
    ensures Resolve(attrs).Ok? ==>
      var cfg := Resolve(attrs).value;
      var expansion := bindgen(Synthesize(cfg, GlueIdent(f.sig.ident, cfg.kind)));
      (Expand(attrs, f, bindgen).Err? <==> expansion.ExpandError?)
      && (Expand(attrs, f, bindgen).Err? ==> Expand(attrs, f, bindgen).error == BindgenFailed(expansion.detail))
  {
  }

  /** A successful expansion emits two items: first the user's function,
      renamed to its glue identifier and otherwise unchanged, then the kind's
      module, which imports exactly that identifier from `super` and exports
      the wrapper synthesized for the resolved configuration, so that every
      property of `Synthesize` (name, callee, parameters, error action) holds
      of the emitted wrapper. */
  lemma ExpandOutputShape(attrs: seq<string>, f: ItemFn, bindgen: Wrapper -> Expansion)
    requires Expand(attrs, f, bindgen).Ok?
    ensures
      var out, cfg := Expand(attrs, f, bindgen).value, Resolve(attrs).value;
      var kind := cfg.kind;
      var glue := GlueIdent(f.sig.ident, kind);
      && |out| == 2
      && out[0] == FnItem(Renamed(f, kind))
      && out[1].ModItem?
      && out[1].m.name == ModuleName(kind)
      && out[1].m.uses == [BindgenImports, UsePath("super", [glue])]
      && out[1].m.exported == Synthesize(cfg, glue)
      && out[1].m.exported.name == ExportName(kind)
      && out[1].m.exported.callee == glue
  {
  }

  /** No stale references: the identifier the wrapper calls, the one the
      module imports and the renamed function's are one and the same, and it
      differs from both the exported name and the user's original name. */
  lemma ExpandReferencesAreConsistent(attrs: seq<string>, f: ItemFn, bindgen: Wrapper -> Expansion)
    requires Expand(attrs, f, bindgen).Ok?
    ensures
      var out := Expand(attrs, f, bindgen).value;
      && |out| == 2 && out[0].FnItem? && out[1].ModItem?
      && out[1].m.exported.callee == out[0].f.sig.ident
      && UsePath("super", [out[0].f.sig.ident]) in out[1].m.uses
      && out[0].f.sig.ident != out[1].m.exported.name
      && out[0].f.sig.ident != f.sig.ident
  {
  }

  /** The exported name and the module name depend on the attribute alone,
      never on the user's function. */
  lemma ExpandNamesIgnoreFunction(attrs: seq<string>, f1: ItemFn, f2: ItemFn, bindgen: Wrapper -> Expansion)
    requires Expand(attrs, f1, bindgen).Ok? && Expand(attrs, f2, bindgen).Ok?
    ensures
      var o1, o2 := Expand(attrs, f1, bindgen).value, Expand(attrs, f2, bindgen).value;
      && o1[1].ModItem? && o2[1].ModItem?
      && o1[1].m.name == o2[1].m.name
      && o1[1].m.exported.name == o2[1].m.exported.name
  {
  }

  /** `#[event(fetch, respond_with_errors)]`: a handler failing with "boom"
      is logged and answered with status 500 and body "boom". */
  lemma FetchRespondsWithErrors(f: ItemFn, bindgen: Wrapper -> Expansion)
    requires bindgen(Synthesize(HandlerConfig(Fetch, true), GlueIdent(f.sig.ident, Fetch))).Exported?
    ensures Expand(["fetch", "respond_with_errors"], f, bindgen).Ok?
    ensures
      var out := Expand(["fetch", "respond_with_errors"], f, bindgen).value;
      out[1].ModItem? && out[1].m.exported.name == "fetch"
      && Run(out[1].m.exported, Failed("boom")) == Effect(["boom"], ErrorResponse(500, "boom"))
  {
    KindThenFlagResolves(["fetch", "respond_with_errors"], HandlerConfig(Fetch, true));
  }

  /** `#[event(fetch)]`: a handler failing with "boom" is logged and the
      invocation panics with "boom"; no response is produced. */
  lemma FetchPanicsOnError(f: ItemFn, bindgen: Wrapper -> Expansion)
    requires bindgen(Synthesize(HandlerConfig(Fetch, false), GlueIdent(f.sig.ident, Fetch))).Exported?
    ensures Expand(["fetch"], f, bindgen).Ok?
    ensures
      var out := Expand(["fetch"], f, bindgen).value;
      out[1].ModItem? && Run(out[1].m.exported, Failed("boom")) == Effect(["boom"], Panicked("boom"))
  {
  }

  /** `#[event(scheduled, respond_with_errors)]` is accepted, and the
      failure still passes through unconverted. */
  lemma ScheduledPassesFailureThrough(f: ItemFn, bindgen: Wrapper -> Expansion)
    requires bindgen(Synthesize(HandlerConfig(Scheduled, true), GlueIdent(f.sig.ident, Scheduled))).Exported?
    ensures Expand(["scheduled", "respond_with_errors"], f, bindgen).Ok?
    ensures
      var out := Expand(["scheduled", "respond_with_errors"], f, bindgen).value;
      out[1].ModItem? && out[1].m.name == "_worker_scheduled"
      && Run(out[1].m.exported, Failed("boom")) == Effect([], PassedThrough(Failed("boom")))
  {
    KindThenFlagResolves(["scheduled", "respond_with_errors"], HandlerConfig(Scheduled, true));
  }

  /** A two-token list of a kind followed by the flag resolves to that kind
      with the flag set. */
  lemma KindThenFlagResolves(ts: seq<string>, cfg: HandlerConfig)
    requires |ts| == 2 && IsKindToken(ts[0]) && ts[1] == RespondWithErrorsToken
    requires cfg == HandlerConfig(KindOf(ts[0]), true)
    ensures Resolve(ts) == Ok(cfg)
  {
    assert ts == [ts[0], ts[1]];
    ResolveSucceedsIff(ts);
    ResolveKindIsLastKindToken(ts);
    ResolveFlagIffPresent(ts);
  }

  /** Concrete attribute lists: a later kind wins, the first unknown token is
      named even before a kind, and a list without a kind is refused. */
  lemma ResolveExamples()
    ensures Resolve(["fetch", "scheduled"]) == Ok(HandlerConfig(Scheduled, false))
    ensures Resolve(["respond_with_errors", "scheduled", "fetch"]) == Ok(HandlerConfig(Fetch, true))
    ensures Resolve(["respond", "fetch", "bogus"]) == Err(InvalidAttribute("respond"))
    ensures Resolve(["respond_with_errors"]) == Err(MissingKind)
    ensures Resolve([]) == Err(MissingKind)
  {
    LaterKindOverrides(["fetch"], "scheduled");
    assert ["fetch"] + ["scheduled"] == ["fetch", "scheduled"];
    LaterKindOverrides(["respond_with_errors", "scheduled"], "fetch");
    assert ["respond_with_errors", "scheduled"] + ["fetch"] == ["respond_with_errors", "scheduled", "fetch"];
    var bad := ["respond", "fetch", "bogus"];
    ResolveInvalidIsFirstUnknown(bad, "respond");
    assert bad[0] == "respond" && !IsAttribute("respond");
  }
}
