/** Attribute resolution: the arguments of `#[event(...)]`, one identifier
    each, are scanned left to right into a handler kind and the
    `respond_with_errors` flag. */
module Attributes {
  import opened Wrappers
  import opened Handler

  const FetchToken := "fetch"
  const ScheduledToken := "scheduled"
  const RespondWithErrorsToken := "respond_with_errors"

  predicate IsKindToken(t: string) {
    t == FetchToken || t == ScheduledToken
  }

  /** The three arguments the macro accepts. */
  predicate IsAttribute(t: string) {
    IsKindToken(t) || t == RespondWithErrorsToken
  }

  function KindOf(t: string): HandlerKind
    requires IsKindToken(t)
  {
    if t == FetchToken then Fetch else Scheduled
  }

  predicate AllAttributes(ts: seq<string>) {
    forall t :: t in ts ==> IsAttribute(t)
  }

  predicate HasKindToken(ts: seq<string>) {
    FetchToken in ts || ScheduledToken in ts
  }

  /** The two mutable locals of the scan: the kind seen so far and the flag. */
  datatype ScanState = ScanState(kind: Option<HandlerKind>, respondWithErrors: bool)

  const Initial := ScanState(None, false)

  /** One iteration of the scan: a kind token overwrites the kind, the flag
      token sets the flag, anything else aborts and names the token. */
  function Step(s: ScanState, t: string): Result<ScanState, Diag> {
    if t == FetchToken then Ok(s.(kind := Some(Fetch)))
    else if t == ScheduledToken then Ok(s.(kind := Some(Scheduled)))
    else if t == RespondWithErrorsToken then Ok(s.(respondWithErrors := true))
    else Err(InvalidAttribute(t))
  }

  /** The state after scanning `ts`, or the diagnostic of the token that aborted it. */
  function Scan(ts: seq<string>): Result<ScanState, Diag>
    decreases |ts|
  {
    if ts == [] then Ok(Initial)
    else
      match Scan(ts[..|ts| - 1])
      case Err(d) => Err(d)
      case Ok(s) => Step(s, ts[|ts| - 1])
  }

  /** The scan, followed by the check that a kind was selected. */
  function Resolve(ts: seq<string>): Result<HandlerConfig, Diag> {
    match Scan(ts)
    case Err(d) => Err(d)
    case Ok(s) =>
      if s.kind.None? then Err(MissingKind)
      else Ok(HandlerConfig(s.kind.value, s.respondWithErrors))
  }

  /** The attribute loop of `expand_macro`, with its two mutable locals. */
  method ResolveAttributes(attrs: seq<string>) returns (r: Result<HandlerConfig, Diag>)
    ensures r == Resolve(attrs)
  {
    var handlerType: Option<HandlerKind> := None;
    var respondWithErrors := false;
    for i := 0 to |attrs|
      invariant Scan(attrs[..i]) == Ok(ScanState(handlerType, respondWithErrors))
    {
      var attr := attrs[i];
      assert attrs[..i + 1][..i] == attrs[..i];
      if attr == FetchToken {
        handlerType := Some(Fetch);
      } else if attr == ScheduledToken {
        handlerType := Some(Scheduled);
      } else if attr == RespondWithErrorsToken {
        respondWithErrors := true;
      } else {
        r := Err(InvalidAttribute(attr));
        ScanErrorIsFinal(attrs, i + 1);
        return;
      }
    }
    assert attrs[..|attrs|] == attrs;
    if handlerType.None? {
      r := Err(MissingKind);
    } else {
      r := Ok(HandlerConfig(handlerType.value, respondWithErrors));
    }
  }

  /** Once a prefix has aborted the scan, no later token changes the outcome. */
  lemma {:induction false} ScanErrorIsFinal(ts: seq<string>, k: nat)
    requires k <= |ts| && Scan(ts[..k]).Err?
    ensures Scan(ts) == Scan(ts[..k])
    decreases |ts| - k
  {
    if k < |ts| {
      assert ts[..k + 1][..k] == ts[..k];
      ScanErrorIsFinal(ts, k + 1);
    } else {
      assert ts[..k] == ts;
    }
  }

  /** What the scan computes, stated without the scan: it succeeds exactly on
      lists of known attributes; the flag is set exactly when its token occurs;
      no kind is selected exactly when no kind token occurs, and a selected kind
      is that of the last kind token; a failure names the first unknown token. */
  lemma {:induction false} ScanMeaning(ts: seq<string>)
    ensures Scan(ts).Ok? <==> AllAttributes(ts)
    ensures Scan(ts).Ok? ==>
      (Scan(ts).value.respondWithErrors <==> RespondWithErrorsToken in ts)
    ensures Scan(ts).Ok? ==> (Scan(ts).value.kind.None? <==> !HasKindToken(ts))
    ensures Scan(ts).Ok? && Scan(ts).value.kind.Some? ==>
      exists i :: 0 <= i < |ts| && IsKindToken(ts[i]) && KindOf(ts[i]) == Scan(ts).value.kind.value
        && forall j :: i < j < |ts| ==> !IsKindToken(ts[j])
    ensures Scan(ts).Err? ==>
      exists i :: 0 <= i < |ts| && !IsAttribute(ts[i]) && Scan(ts).error == InvalidAttribute(ts[i])
        && forall j :: 0 <= j < i ==> IsAttribute(ts[j])
    decreases |ts|
  {
    if ts != [] {
      var n := |ts|;
      var p, last := ts[..n - 1], ts[n - 1];
      assert ts == p + [last];
      assert forall t :: t in ts <==> t in p || t == last;
      ScanMeaning(p);
      match Scan(p)
      case Err(d) =>
        var i :| 0 <= i < |p| && !IsAttribute(p[i]) && d == InvalidAttribute(p[i])
          && forall j :: 0 <= j < i ==> IsAttribute(p[j]);
        assert ts[i] == p[i];
      case Ok(s) =>
        if !IsAttribute(last) {
          assert forall j :: 0 <= j < n - 1 ==> ts[j] in p;
        } else if IsKindToken(last) {
          assert IsKindToken(ts[n - 1]);
        } else if s.kind.Some? {
          var i :| 0 <= i < |p| && IsKindToken(p[i]) && KindOf(p[i]) == s.kind.value
            && forall j :: i < j < |p| ==> !IsKindToken(p[j]);
          assert ts[i] == p[i];
        }
    }
  }

  /** Resolution succeeds exactly when every argument is known and one of
      them selects a kind. */
  lemma ResolveSucceedsIff(ts: seq<string>)
    ensures Resolve(ts).Ok? <==> AllAttributes(ts) && HasKindToken(ts)
  {
    ScanMeaning(ts);
  }

  /** The selected kind is that of the last `fetch` or `scheduled` argument:
      a later kind overrides an earlier one. */
  lemma ResolveKindIsLastKindToken(ts: seq<string>)
    requires Resolve(ts).Ok?
    ensures
      exists i :: 0 <= i < |ts| && IsKindToken(ts[i]) && KindOf(ts[i]) == Resolve(ts).value.kind
        && forall j :: i < j < |ts| ==> !IsKindToken(ts[j])
  {
    ScanMeaning(ts);
  }

  /** The flag is set exactly when `respond_with_errors` occurs anywhere. */
  lemma ResolveFlagIffPresent(ts: seq<string>)
    requires Resolve(ts).Ok?
    ensures Resolve(ts).value.respondWithErrors <==> RespondWithErrorsToken in ts
  {
    ScanMeaning(ts);
  }

  /** Reordering the arguments changes neither whether resolution succeeds
      nor the flag; only the kind can change. */
  lemma ResolveFlagIgnoresOrder(ts: seq<string>, us: seq<string>)
    requires multiset(ts) == multiset(us)
    ensures Resolve(ts).Ok? <==> Resolve(us).Ok?
    ensures Resolve(ts).Ok? ==> Resolve(ts).value.respondWithErrors == Resolve(us).value.respondWithErrors
  {
    ScanMeaning(ts);
    ScanMeaning(us);
    assert forall t :: t in ts <==> t in multiset(ts);
    assert forall t :: t in us <==> t in multiset(us);
  }

  /** An unknown argument aborts with the diagnostic naming it exactly when it
      is the first unknown argument in list order, whatever follows it,
      including a kind token. */
  lemma ResolveInvalidIsFirstUnknown(ts: seq<string>, t: string)
    ensures Resolve(ts) == Err(InvalidAttribute(t)) <==>
      exists i :: 0 <= i < |ts| && ts[i] == t && !IsAttribute(t)
        && forall j :: 0 <= j < i ==> IsAttribute(ts[j])
  {
    ScanMeaning(ts);
    if exists i :: 0 <= i < |ts| && ts[i] == t && !IsAttribute(t) && forall j :: 0 <= j < i ==> IsAttribute(ts[j]) {
      var i :| 0 <= i < |ts| && ts[i] == t && !IsAttribute(t) && forall j :: 0 <= j < i ==> IsAttribute(ts[j]);
      assert Scan(ts).Err?;
      var k :| 0 <= k < |ts| && !IsAttribute(ts[k]) && Scan(ts).error == InvalidAttribute(ts[k])
        && forall j :: 0 <= j < k ==> IsAttribute(ts[j]);
      assert !(i < k) && !(k < i);
    }
  }

  /** The missing-kind diagnostic is reported exactly when every argument is
      known and none selects a kind: an unknown argument takes precedence. */
  lemma ResolveMissingKindIff(ts: seq<string>)
    ensures Resolve(ts) == Err(MissingKind) <==> AllAttributes(ts) && !HasKindToken(ts)
  {
    ScanMeaning(ts);
  }

  /** Appending a kind token to a list of known arguments always resolves to
      that kind and keeps the flag the earlier arguments set. */
  lemma LaterKindOverrides(ts: seq<string>, t: string)
    requires AllAttributes(ts) && IsKindToken(t)
    ensures Resolve(ts + [t]) == Ok(HandlerConfig(KindOf(t), RespondWithErrorsToken in ts))
  {
    ScanMeaning(ts);
    assert (ts + [t])[..|ts|] == ts;
  }
}
