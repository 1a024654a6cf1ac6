# `#[event(...)]` expansion, modelled in Dafny

This project models `expand_macro` in `worker-macros/src/event.rs` of
workers-rs. That procedural macro turns a user's async handler into the
entry point that the Workers runtime calls. It works in four steps:

1. **Attribute resolution.** The identifiers inside `#[event(...)]` are
   scanned left to right. The scan sets a handler kind (`fetch` or
   `scheduled`) and the `respond_with_errors` flag. The first unknown
   identifier aborts the expansion with `Invalid attribute: <token>`. If
   no kind was given, the expansion aborts with a fixed message.
2. **Function relocation.** The user's function keeps its signature and
   body. Its identifier is overwritten in place with `<name>_fetch_glue`
   or `<name>_scheduled_glue`.
3. **Wrapper synthesis.** A `pub async fn` is generated. It is named
   exactly `fetch` or `scheduled`, takes the host's low-level arguments,
   converts them, and awaits the relocated function. For fetch, an `Err`
   is always logged first. Then, if the flag is set, the wrapper answers
   with status 500 and the error's text. Otherwise it panics with that text.
4. **Emission.** The wrapper goes to the wasm-bindgen expander. The
   output is the renamed function, followed by a module `_worker_fetch` or
   `_worker_scheduled`. That module imports the renamed function from
   `super` and holds the exported wrapper.

Files:

- `wrappers.dfy`: `Option` and `Result`.
- `handler.dfy`: `HandlerKind`, `HandlerConfig`, the diagnostics `Diag`
  and their exact messages.
- `attributes.dfy`: the specification fold `Scan`/`Resolve`. It also has
  `ResolveAttributes`, the source's `for` loop over two mutable locals,
  proved equal to `Resolve`. The lemmas here describe the result without
  using the fold.
- `relocation.dfy`: the function as a value (`ItemFn`) and the pure
  `Renamed`. The class `SourceFunction` has a `Relocate` method that
  assigns the new identifier in place.
- `synthesis.dfy`: the generated wrapper as data, built by `Synthesize`.
  `Run` is an abstract reading of the wrapper: which terminal action it
  selects for a given handler result, and what it logs first.
- `expand.dfy`: the emitted items, the pure `Expand`, and the method
  `ExpandMacro`, which runs the steps in the source's order.

Macro-time panics (`panic!` and `.expect`) are modelled as `Err(Diag)`.
No output is produced in that case. The wasm-bindgen expander is a
parameter `bindgen: Wrapper -> Expansion`. It either exports the wrapper
unchanged, or fails with an error. On failure, `Result::expect` panics with
`wasm_bindgen macro failed to expand: ` followed by the debug text of that
error.

The missing-kind message (`must have either 'fetch' or 'scheduled'`)
implies one kind per attribute, but the code does not enforce it. When
several kinds are given, the last one wins. With `scheduled`, the flag is
accepted and ignored. `ResolveKindIsLastKindToken`, `LaterKindOverrides`
and `ScheduledIgnoresFlag` state that behaviour.

## Model

| member | source | states |
|---|---|---|
| `Handler.Message` | worker-macros/src/event.rs:25-78 | an unknown-attribute message is `Invalid attribute: ` followed by the offending token; the missing-kind message is the fixed text of line 29; a bindgen failure is the fixed text of line 78, then `: `, then the expander's error |
| `Handler.MessageInjective` | worker-macros/src/event.rs:25-78 | different diagnostics never print the same message |
| `Attributes.ResolveAttributes` | worker-macros/src/event.rs:15-29 | the attribute loop over `handler_type` and `respond_with_errors`, with the final `expect`, returns exactly `Resolve(attrs)` |
| `Attributes.ScanErrorIsFinal` | worker-macros/src/event.rs:25 | once a token has aborted the scan, later tokens do not change the outcome |
| `Attributes.ScanMeaning` | worker-macros/src/event.rs:18-27 | the scan succeeds iff every token is known; the flag is set iff its token occurs; no kind iff no kind token; the kind is that of the last kind token; a failure names the first unknown token |
| `Attributes.ResolveSucceedsIff` | worker-macros/src/event.rs:18-29 | resolution succeeds iff every token is one of the three known ones and `fetch` or `scheduled` occurs |
| `Attributes.ResolveKindIsLastKindToken` | worker-macros/src/event.rs:20-21 | the resolved kind is that of the last `fetch`/`scheduled` token; no kind token follows it |
| `Attributes.ResolveFlagIffPresent` | worker-macros/src/event.rs:22-24 | `respondWithErrors` is true iff `respond_with_errors` occurs anywhere in the list |
| `Attributes.ResolveFlagIgnoresOrder` | worker-macros/src/event.rs:16-24 | permuting the tokens changes neither success nor the flag |
| `Attributes.ResolveInvalidIsFirstUnknown` | worker-macros/src/event.rs:18-27 | resolution fails with `InvalidAttribute(t)` iff `t` is the first unknown token in list order, whatever follows it |
| `Attributes.ResolveMissingKindIff` | worker-macros/src/event.rs:28-29 | the missing-kind error occurs iff all tokens are known and none is a kind, so an unknown token takes precedence |
| `Attributes.LaterKindOverrides` | worker-macros/src/event.rs:18-24 | a kind token appended to known tokens always determines the kind and keeps the flag of the earlier tokens |
| `Relocation.Renamed` | worker-macros/src/event.rs:38-44 | the renamed identifier is the original followed by the kind's suffix; attributes, visibility, the rest of the signature and the body are unchanged |
| `Relocation.GlueIdentInjective` | worker-macros/src/event.rs:38-44 | equal glue identifiers come from equal originals and the same kind |
| `Relocation.GlueIdentIsFresh` | worker-macros/src/event.rs:38-44 | a glue identifier is never `fetch`, `scheduled` or the original identifier |
| `Relocation.SourceFunction.Relocate` | worker-macros/src/event.rs:94-100 | assigns the glue identifier to the signature in place and returns it; the function's new value is `Renamed` of its old value |
| `Synthesis.Synthesize` | worker-macros/src/event.rs:42-107 | the wrapper is named after the kind alone and calls exactly the glue identifier; it takes a low-level event, the environment and a low-level context, and passes them in that order, converting the first and the third; a fetch wrapper returns a low-level response, converts a success, logs a failure and then answers 500 with the error text (flag set) or panics with it (flag unset); a scheduled wrapper has no return type and passes every result through |
| `Synthesis.ScheduledIgnoresFlag` | worker-macros/src/event.rs:102-107 | both flag settings produce the same scheduled wrapper |
| `Synthesis.FetchFlagChangesOnlyTerminalAction` | worker-macros/src/event.rs:46-72 | for fetch, the flag changes only the error branch's terminal action; the log entry `[t]` comes first either way |
| `Synthesis.WrapperShapeDependsOnKindOnly` | worker-macros/src/event.rs:59-67 | the parameters, the arguments and the return type depend only on the kind, never on the flag or the callee |
| `Synthesis.ExportNameIsFixed` | worker-macros/src/event.rs:42-98 | the exported name depends only on the kind and is `fetch` or `scheduled` |
| `Event.ExpandMacro` | worker-macros/src/event.rs:15-122 | the macro's sequence of steps returns exactly `Expand` of the old function; a failed resolution leaves the function untouched, otherwise it is renamed in place |
| `Event.ExpandFailures` | worker-macros/src/event.rs:76-78 | a resolution error is returned as it is; otherwise expansion fails exactly when the expander rejects the wrapper, with `BindgenFailed` carrying the expander's error |
| `Event.ExpandOutputShape` | worker-macros/src/event.rs:80-88 | the output is the renamed function, then the kind's module, which uses `::worker::{wasm_bindgen, wasm_bindgen_futures}` and `super::<glue>` and exports exactly the wrapper `Synthesize` builds for the resolved configuration, named after the kind and calling `<glue>` |
| `Event.ExpandReferencesAreConsistent` | worker-macros/src/event.rs:112-120 | the wrapper's callee, the `super` import and the renamed function's identifier coincide and differ from the exported and original names |
| `Event.ExpandNamesIgnoreFunction` | worker-macros/src/event.rs:112-120 | module and exported names are the same for any two user functions |
| `Event.FetchRespondsWithErrors` | worker-macros/src/event.rs:46-51 | with `fetch, respond_with_errors`, the expansion succeeds whenever the expander accepts the wrapper, and a failure "boom" is logged and answered with status 500 and body "boom" |
| `Event.FetchPanicsOnError` | worker-macros/src/event.rs:52-72 | with `fetch` alone, the expansion succeeds whenever the expander accepts the wrapper, and a failure "boom" is logged and the invocation panics with "boom" |
| `Event.ScheduledPassesFailureThrough` | worker-macros/src/event.rs:102-106 | with `scheduled, respond_with_errors`, the expansion succeeds whenever the expander accepts the wrapper (the flag is not rejected), and a failure passes through unconverted |
| `Event.KindThenFlagResolves` | worker-macros/src/event.rs:18-29 | a kind token followed by `respond_with_errors` resolves to that kind with the flag set |
| `Event.ResolveExamples` | worker-macros/src/event.rs:18-29 | concrete lists: the later kind wins, the first unknown token is named even before a kind, and a list with no kind is refused |

## Left out

- Parsing with `syn` (lines 6-7 and 32) is not modelled. The attribute is a list of identifier strings, and the function is an `ItemFn` value. The compile error that `parse_macro_input!` returns for malformed input is not modelled.
- The `quote!` token generation and the `TokenStream` conversions are not modelled. The wrapper and the module are datatypes, not Rust text. Their parameter and type paths are kept as strings.
- `Synthesis.ErrorAction`: the 500 action does not keep the path of the type it names. Line 49 writes `Response::error(e.to_string(), 500)` with `Response` unqualified. The code is placed inside the module of lines 83-87, which imports only `::worker::{wasm_bindgen, wasm_bindgen_futures}` and `super::<glue>`, so nothing in that module brings `Response` into scope. The model records only which action is selected (a 500 response carrying the error text). The model does not say whether that path resolves.
- Identifiers are plain names. Raw identifiers are not modelled. For a function such as `r#type`, the source builds `Ident::new("r#type_fetch_glue", ..)` at lines 38-41 and 94-97, and `Ident::new` panics on that name. The model renames it and succeeds.
- Source spans (`ident.span()`) are not modelled. They only carry diagnostic positions.
- The internals of `wasm_bindgen_macro_support::expand` are not modelled. It is a parameter that passes the wrapper through or makes the expansion fail.
- The run-time execution of the generated adapter is not modelled: `await`, `console_log!`, `Response::error(..).unwrap()`, and the `From` conversions between `worker_sys` and `worker` types. `Run` records only which action the wrapper selects and what it logs first. The `unwrap` on `Response::error` is assumed to succeed.
