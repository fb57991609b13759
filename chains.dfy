/**
 * A chain of fluent calls after one `id(...)`, such as
 * `id("x").version("1.0").apply(true)`, as a pure function of the mode of
 * the handle and the builder state it starts from. The chain stops at the
 * first call that throws; the builder keeps the effect of the calls before it.
 */
module Chains {
  import opened Wrappers
  import opened PluginRequests

  /** One fluent call on a request handle. */
  datatype Call = VersionCall(version: string) | ApplyCall(flag: bool)

  /** The builder's state after a chain, and the error that stopped it, if any. */
  datatype Outcome = Outcome(state: BuilderState, error: Option<Error>)

  /** One call through a handle of the given mode. */
  function Step(mode: AllowApplyFalse, s: BuilderState, c: Call): Result<BuilderState, Error> {
    match c
    case VersionCall(v) => WithVersion(s, v)
    case ApplyCall(flag) => WithApply(mode, s, flag)
  }

  /** The calls, in order, until one of them throws. */
  function Chain(mode: AllowApplyFalse, s: BuilderState, calls: seq<Call>): Outcome
    decreases |calls|
  {
    if calls == [] then Outcome(s, None)
    else match Step(mode, s, calls[0])
      case Failure(e) => Outcome(s, Some(e))
      case Success(t) => Chain(mode, t, calls[1..])
  }

  /** A call that throws whatever state it meets. */
  predicate Rejected(mode: AllowApplyFalse, c: Call) {
    match c
    case VersionCall(v) => v == []
    case ApplyCall(flag) => mode == Forbidden && !flag
  }

  /** The error a rejected call throws. */
  function Rejection(c: Call): Error {
    match c
    case VersionCall(v) => InvalidPluginVersion(v, EmptyValue)
    case ApplyCall(_) => IllegalPluginApplyFalse
  }

  /** The version named by the last `version` call, or `initial` when there is none. */
  function LastVersion(calls: seq<Call>, initial: Option<string>): Option<string>
    decreases |calls|
  {
    if calls == [] then initial
    else match calls[|calls| - 1]
      case VersionCall(v) => Some(v)
      case ApplyCall(_) => LastVersion(calls[..|calls| - 1], initial)
  }

  /** The flag of the last `apply` call, or `initial` when there is none. */
  function LastApply(calls: seq<Call>, initial: bool): bool
    decreases |calls|
  {
    if calls == [] then initial
    else match calls[|calls| - 1]
      case ApplyCall(flag) => flag
      case VersionCall(_) => LastApply(calls[..|calls| - 1], initial)
  }

  /** Running two chains one after the other is running their concatenation. */
  lemma {:induction false} ChainAppend(mode: AllowApplyFalse, s: BuilderState, a: seq<Call>, b: seq<Call>)
    ensures Chain(mode, s, a + b) ==
      (var o := Chain(mode, s, a); if o.error.Some? then o else Chain(mode, o.state, b))
    decreases |a|
  {
    if a != [] {
      assert (a + b)[0] == a[0] && (a + b)[1..] == a[1..] + b;
      match Step(mode, s, a[0])
      case Failure(_) =>
      case Success(t) => ChainAppend(mode, t, a[1..], b);
    } else {
      assert a + b == b;
    }
  }

  /** A chain throws exactly at its first rejected call, leaving the state the calls before it produced. */
  lemma {:induction false} ChainStopsAtFirstRejected(mode: AllowApplyFalse, s: BuilderState, calls: seq<Call>, k: nat)
    requires k < |calls| && Rejected(mode, calls[k])
    requires forall l :: 0 <= l < k ==> !Rejected(mode, calls[l])
    ensures Chain(mode, s, calls) == Outcome(Chain(mode, s, calls[..k]).state, Some(Rejection(calls[k])))
    decreases k
  {
    if k == 0 {
      assert calls[..0] == [];
    } else {
      assert !Rejected(mode, calls[0]);
      var t := Step(mode, s, calls[0]).value;
      ChainStopsAtFirstRejected(mode, t, calls[1..], k - 1);
      assert calls[1..][..k - 1] == calls[..k][1..];
    }
  }

  /** A chain with no rejected call never throws. */
  lemma {:induction false} ChainSucceeds(mode: AllowApplyFalse, s: BuilderState, calls: seq<Call>)
    requires forall l :: 0 <= l < |calls| ==> !Rejected(mode, calls[l])
    ensures Chain(mode, s, calls).error.None?
    decreases |calls|
  {
    if calls != [] {
      assert !Rejected(mode, calls[0]);
      ChainSucceeds(mode, Step(mode, s, calls[0]).value, calls[1..]);
    }
  }

  /** A chain throws if and only if one of its calls is rejected. */
  lemma ChainFailsIff(mode: AllowApplyFalse, s: BuilderState, calls: seq<Call>)
    ensures Chain(mode, s, calls).error.Some? <==> exists k :: 0 <= k < |calls| && Rejected(mode, calls[k])
  {
    if exists k :: 0 <= k < |calls| && Rejected(mode, calls[k]) {
      var k := FirstRejected(mode, calls);
      ChainStopsAtFirstRejected(mode, s, calls, k);
    } else {
      ChainSucceeds(mode, s, calls);
    }
  }

  /** The position of the first rejected call. */
  lemma {:induction false} FirstRejected(mode: AllowApplyFalse, calls: seq<Call>) returns (k: nat)
    requires exists k :: 0 <= k < |calls| && Rejected(mode, calls[k])
    ensures k < |calls| && Rejected(mode, calls[k])
    ensures forall l :: 0 <= l < k ==> !Rejected(mode, calls[l])
  {
    if Rejected(mode, calls[0]) {
      k := 0;
    } else {
      var k' := FirstRejected(mode, calls[1..]);
      k := k' + 1;
    }
  }

  /**
   * A chain that does not throw leaves the last version and the last flag it
   * named (last write wins), and never touches the id or the line.
   */
  lemma {:induction false} ChainFinalState(mode: AllowApplyFalse, s: BuilderState, calls: seq<Call>)
    requires Chain(mode, s, calls).error.None?
    ensures Chain(mode, s, calls).state ==
      BuilderState(s.id, LastVersion(calls, s.version), LastApply(calls, s.apply), s.lineNumber)
    decreases |calls|
  {
    if calls != [] {
      var init, last := calls[..|calls| - 1], calls[|calls| - 1];
      assert calls == init + [last];
      ChainAppend(mode, s, init, [last]);
      ChainFinalState(mode, s, init);
    }
  }

  /** Whatever a chain does, a builder keeps its id and line, and stays valid. */
  lemma {:induction false} ChainKeepsIdentity(mode: AllowApplyFalse, s: BuilderState, calls: seq<Call>)
    requires ValidState(s)
    ensures var t := Chain(mode, s, calls).state;
      t.id == s.id && t.lineNumber == s.lineNumber && ValidState(t)
    decreases |calls|
  {
    if calls != [] {
      match Step(mode, s, calls[0])
      case Failure(_) =>
      case Success(t) => ChainKeepsIdentity(mode, t, calls[1..]);
    }
  }

  /**
   * Under a restricted handle `apply(false)` throws however the chain began,
   * and changes nothing: the state is the one the earlier calls left.
   */
  lemma ForbiddenRejectsApplyFalse(s: BuilderState, calls: seq<Call>)
    ensures var before := Chain(Forbidden, s, calls);
      var after := Chain(Forbidden, s, calls + [ApplyCall(false)]);
      after.error.Some? && after.state == before.state &&
      (before.error.None? ==> after.error == Some(IllegalPluginApplyFalse))
  {
    ChainAppend(Forbidden, s, calls, [ApplyCall(false)]);
  }

  /** Without `apply(false)`, a restricted handle behaves exactly like an unrestricted one. */
  lemma {:induction false} ForbiddenAgreesWithAllowed(s: BuilderState, calls: seq<Call>)
    requires forall k :: 0 <= k < |calls| ==> calls[k] != ApplyCall(false)
    ensures Chain(Forbidden, s, calls) == Chain(Allowed, s, calls)
    decreases |calls|
  {
    if calls != [] {
      assert calls[0] != ApplyCall(false);
      match Step(Forbidden, s, calls[0])
      case Failure(_) =>
      case Success(t) => ForbiddenAgreesWithAllowed(t, calls[1..]);
    }
  }

  /** Every builder in the list is to be applied. */
  predicate AllApplied(ss: seq<BuilderState>) {
    forall i :: 0 <= i < |ss| ==> ss[i].apply
  }

  /** Under a restricted handle a builder that is to be applied stays so. */
  lemma {:induction false} ForbiddenKeepsApply(s: BuilderState, calls: seq<Call>)
    requires s.apply
    ensures Chain(Forbidden, s, calls).state.apply
    decreases |calls|
  {
    if calls != [] {
      match Step(Forbidden, s, calls[0])
      case Failure(_) =>
      case Success(t) => ForbiddenKeepsApply(t, calls[1..]);
    }
  }
}
