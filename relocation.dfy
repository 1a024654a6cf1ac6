/** Function relocation: the annotated function keeps everything but its
    name, which becomes `<name>_fetch_glue` or `<name>_scheduled_glue`, so that
    the generated entry point can be exported under the protocol name. */
module Relocation {
  import opened Handler

  /** The parts of a function signature the macro carries through unread. */
  datatype Signature = Signature(ident: string, isAsync: bool, inputs: seq<string>, output: string)

  /** The annotated function: outer attributes, visibility, signature, body. */
  datatype ItemFn = ItemFn(attrs: seq<string>, vis: string, sig: Signature, block: string)

  function GlueSuffix(kind: HandlerKind): string {
    match kind
    case Fetch => "_fetch_glue"
    case Scheduled => "_scheduled_glue"
  }

  /** The name the annotated function is moved to. */
  function GlueIdent(ident: string, kind: HandlerKind): string {
    ident + GlueSuffix(kind)
  }

  /** The annotated function after relocation: the identifier gains the kind's
      suffix and nothing else about the function changes. */
  function Renamed(f: ItemFn, kind: HandlerKind): (g: ItemFn)
    ensures |g.sig.ident| == |f.sig.ident| + |GlueSuffix(kind)|
    ensures g.sig.ident[..|f.sig.ident|] == f.sig.ident
    ensures g.sig.ident[|f.sig.ident|..] == GlueSuffix(kind)
    ensures g.attrs == f.attrs && g.vis == f.vis && g.block == f.block
    ensures g.sig.isAsync == f.sig.isAsync && g.sig.inputs == f.sig.inputs && g.sig.output == f.sig.output
  {
    f.(sig := f.sig.(ident := GlueIdent(f.sig.ident, kind)))
  }

  /** Relocation loses nothing: two functions that relocate to the same
      identifier had the same identifier, and the two kinds never share a
      glue identifier. */
  lemma GlueIdentInjective(a: string, ka: HandlerKind, b: string, kb: HandlerKind)
    requires GlueIdent(a, ka) == GlueIdent(b, kb)
    ensures a == b && ka == kb
  {
    var g := GlueIdent(a, ka);
    // the suffixes end in `h_glue` and `d_glue`
    assert g[|g| - 6] == GlueSuffix(ka)[|GlueSuffix(ka)| - 6];
    assert g[|g| - 6] == GlueSuffix(kb)[|GlueSuffix(kb)| - 6];
    assert ka == kb;
    assert a == g[..|a|] && b == g[..|b|];
  }

  /** A glue identifier is longer than either exported name, so the renamed
      function never clashes with the wrapper that takes the public slot,
      and it is never the function's original name. */
  lemma GlueIdentIsFresh(ident: string, kind: HandlerKind)
    ensures GlueIdent(ident, kind) != "fetch" && GlueIdent(ident, kind) != "scheduled"
    ensures GlueIdent(ident, kind) != ident
  {
  }

  /** The annotated function as the macro holds it: a value whose signature
      identifier is overwritten in place. */
  class SourceFunction {
    var attrs: seq<string>
    var vis: string
    var sig: Signature
    var block: string

    function Value(): ItemFn
      reads this
    {
      ItemFn(attrs, vis, sig, block)
    }

    constructor (f: ItemFn)
      ensures Value() == f
    {
      attrs, vis, sig, block := f.attrs, f.vis, f.sig, f.block;
    }

    /** Builds the glue identifier and assigns it to the signature. */
    method Relocate(kind: HandlerKind) returns (glue: string)
      modifies this`sig
      ensures glue == GlueIdent(old(sig.ident), kind)
      ensures Value() == Renamed(old(Value()), kind)
      ensures sig.ident == glue
    {
      glue := sig.ident + GlueSuffix(kind);
      sig := sig.(ident := glue);
    }
  }
}
