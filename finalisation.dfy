/**
 * Finalisation of the plugins {} block: the builders, in declaration order,
 * become immutable requests, which are grouped by plugin id; the first group
 * with more than one member aborts the whole collection.
 *
 * The grouping map's key order is not part of this model: keys are visited
 * in the order in which their first request was declared.
 */
module Finalisation {
  import opened Wrappers
  import opened PluginRequests

  /** The requests for a sequence of builder states: one per builder, in order, each copying its builder's fields. */
  function Requests(bs: seq<BuilderState>, source: ScriptSource): (rs: seq<Request>)
    ensures |rs| == |bs|
    ensures forall i :: 0 <= i < |bs| ==>
      rs[i].id == bs[i].id && rs[i].version == bs[i].version && rs[i].apply == bs[i].apply &&
      rs[i].lineNumber == bs[i].lineNumber && rs[i].scriptSource == source
  {
    seq(|bs|, i requires 0 <= i < |bs| => ToRequest(bs[i], source))
  }

  /** The group of requests with the given id, in declaration order. */
  function Group(rs: seq<Request>, id: string): (g: seq<Request>)
    ensures |g| <= |rs|
    ensures forall k :: 0 <= k < |g| ==> g[k].id == id
  {
    if rs == [] then []
    else (if rs[0].id == id then [rs[0]] else []) + Group(rs[1..], id)
  }

  /** Request `i` is the first one with its id, i.e. its id is a key of the grouping. */
  predicate FirstOccurrence(rs: seq<Request>, i: nat)
    requires i < |rs|
  {
    forall k :: 0 <= k < i ==> rs[k].id != rs[i].id
  }

  /** The duplicate check: visit the keys from position `i` on and report the first group of more than one request. */
  function FirstDuplicate(rs: seq<Request>, i: nat): (d: Option<Error>)
    decreases |rs| - i
    ensures d.Some? ==> d.value.DuplicateRequest?
  {
    if i >= |rs| then None
    else if FirstOccurrence(rs, i) && |Group(rs, rs[i].id)| > 1 then
      var g := Group(rs, rs[i].id);
      Some(DuplicateRequest(rs[i].id, g[0].lineNumber, g[1]))
    else FirstDuplicate(rs, i + 1)
  }

  /** `listPluginRequests`: the requests in declaration order, or the first duplicate found. */
  function ListPluginRequests(bs: seq<BuilderState>, source: ScriptSource): (r: Result<seq<Request>, Error>)
    ensures r.Success? ==> |r.value| == |bs|
    ensures r.Success? ==> forall i :: 0 <= i < |bs| ==>
      r.value[i] == Request(bs[i].id, bs[i].version, bs[i].apply, bs[i].lineNumber, source)
    ensures r.Failure? ==> r.error.DuplicateRequest?
  {
    var rs := Requests(bs, source);
    match FirstDuplicate(rs, 0)
    case None => Success(rs)
    case Some(e) => Failure(e)
  }

  /** `getPluginRequests`: the shared empty result when nothing was declared, the full check otherwise. */
  function GetPluginRequests(bs: seq<BuilderState>, source: ScriptSource): (r: Result<seq<Request>, Error>)
    ensures bs == [] ==> r == Success([])
    ensures r == ListPluginRequests(bs, source)
  {
    if bs == [] then Success([]) else ListPluginRequests(bs, source)
  }

  /** No plugin id is declared twice. */
  predicate DistinctIds(bs: seq<BuilderState>) {
    forall i, j :: 0 <= i < j < |bs| ==> bs[i].id != bs[j].id
  }

  // ---------------------------------------------------------------------------
  // Groups

  /** A group starts at the first request with its id. */
  lemma {:induction false} GroupFrom(rs: seq<Request>, id: string, i: nat)
    requires i < |rs| && rs[i].id == id
    requires forall k :: 0 <= k < i ==> rs[k].id != id
    ensures Group(rs, id) == [rs[i]] + Group(rs[i + 1..], id)
  {
    if i > 0 {
      GroupFrom(rs[1..], id, i - 1);
      assert rs[1..][i..] == rs[i + 1..];
    }
  }

  /** A group is empty when no request has its id. */
  lemma {:induction false} GroupNone(rs: seq<Request>, id: string)
    requires forall k :: 0 <= k < |rs| ==> rs[k].id != id
    ensures Group(rs, id) == []
  {
    if rs != [] {
      GroupNone(rs[1..], id);
    }
  }

  /** A non-empty group has a first request with its id, and that request heads the group. */
  lemma {:induction false} FirstOfGroup(rs: seq<Request>, id: string) returns (k: nat)
    requires Group(rs, id) != []
    ensures k < |rs| && rs[k].id == id
    ensures forall l :: 0 <= l < k ==> rs[l].id != id
  {
    if rs[0].id == id {
      k := 0;
    } else {
      var k' := FirstOfGroup(rs[1..], id);
      k := k' + 1;
    }
  }

  /** The first request with a given id at or before index `a`. */
  lemma {:induction false} EarliestWithId(rs: seq<Request>, a: nat) returns (f: nat)
    requires a < |rs|
    ensures f <= a && rs[f].id == rs[a].id
    ensures forall k :: 0 <= k < f ==> rs[k].id != rs[a].id
  {
    if forall k :: 0 <= k < a ==> rs[k].id != rs[a].id {
      f := a;
    } else {
      var b :| 0 <= b < a && rs[b].id == rs[a].id;
      f := EarliestWithId(rs, b);
    }
  }

  /** When the first request with an id is at `i` and the next one is at `j`, they are the group's first two. */
  lemma GroupFirstTwo(rs: seq<Request>, id: string, i: nat, j: nat)
    requires i < j < |rs| && rs[i].id == id && rs[j].id == id
    requires forall k :: 0 <= k < j && k != i ==> rs[k].id != id
    ensures |Group(rs, id)| >= 2 && Group(rs, id)[0] == rs[i] && Group(rs, id)[1] == rs[j]
  {
    GroupFrom(rs, id, i);
    var tail := rs[i + 1..];
    assert forall k :: 0 <= k < j - i - 1 ==> tail[k] == rs[i + 1 + k];
    GroupFrom(tail, id, j - i - 1);
  }

  /** A group of more than one request, headed at `i`, yields the next declaration `j` with that id. */
  lemma SecondOfGroup(rs: seq<Request>, i: nat) returns (j: nat)
    requires i < |rs| && FirstOccurrence(rs, i) && |Group(rs, rs[i].id)| > 1
    ensures i < j < |rs| && rs[j].id == rs[i].id
    ensures forall k :: 0 <= k < j && k != i ==> rs[k].id != rs[i].id
    ensures Group(rs, rs[i].id)[0] == rs[i] && Group(rs, rs[i].id)[1] == rs[j]
  {
    var id := rs[i].id;
    GroupFrom(rs, id, i);
    var tail := rs[i + 1..];
    var t := FirstOfGroup(tail, id);
    j := i + 1 + t;
    GroupFirstTwo(rs, id, i, j);
  }

  /** Two declarations of the same id, at `a` and later, head a group of more than one request no later than `a`. */
  lemma DuplicateHeadsGroup(rs: seq<Request>, a: nat, b: nat) returns (f: nat)
    requires a < b < |rs| && rs[a].id == rs[b].id
    ensures f <= a && rs[f].id == rs[a].id
    ensures FirstOccurrence(rs, f) && |Group(rs, rs[f].id)| > 1
  {
    f := EarliestWithId(rs, a);
    var next := if a == f then b else a;
    var tail := rs[f + 1..];
    assert tail[next - f - 1] == rs[next];
    var g := EarliestWithId(tail, next - f - 1);
    assert forall k :: 0 <= k < g ==> tail[k] == rs[f + 1 + k];
    GroupFirstTwo(rs, rs[f].id, f, f + 1 + g);
  }

  /** Two declarations of the same id make a duplicate visible to the scan from any earlier position. */
  lemma {:induction false} ScanFinds(rs: seq<Request>, m: nat, f: nat)
    requires m <= f < |rs| && FirstOccurrence(rs, f) && |Group(rs, rs[f].id)| > 1
    ensures FirstDuplicate(rs, m).Some?
    decreases f - m
  {
    if m < f && !(FirstOccurrence(rs, m) && |Group(rs, rs[m].id)| > 1) {
      ScanFinds(rs, m + 1, f);
    }
  }

  /** With all ids distinct, every group holds exactly one request and the scan finds nothing. */
  lemma {:induction false} ScanFindsNothing(rs: seq<Request>, m: nat)
    requires forall i, j :: 0 <= i < j < |rs| ==> rs[i].id != rs[j].id
    ensures FirstDuplicate(rs, m).None?
    decreases |rs| - m
  {
    if m < |rs| {
      var id := rs[m].id;
      GroupFrom(rs, id, m);
      var tail := rs[m + 1..];
      assert forall k :: 0 <= k < |tail| ==> tail[k] == rs[m + 1 + k];
      GroupNone(tail, id);
      ScanFindsNothing(rs, m + 1);
    }
  }

  /** What a report found by the scan from position `m` is made of. */
  lemma {:induction false} ScanReport(rs: seq<Request>, m: nat) returns (i: nat, j: nat)
    requires FirstDuplicate(rs, m).Some?
    ensures m <= i < j < |rs| && rs[i].id == rs[j].id
    ensures FirstOccurrence(rs, i)
    ensures forall k :: i < k < j ==> rs[k].id != rs[i].id
    ensures forall k :: m <= k < i ==> !(FirstOccurrence(rs, k) && |Group(rs, rs[k].id)| > 1)
    ensures FirstDuplicate(rs, m) == Some(DuplicateRequest(rs[i].id, rs[i].lineNumber, rs[j]))
    decreases |rs| - m
  {
    if FirstOccurrence(rs, m) && |Group(rs, rs[m].id)| > 1 {
      i := m;
      j := SecondOfGroup(rs, m);
    } else {
      i, j := ScanReport(rs, m + 1);
    }
  }

  // ---------------------------------------------------------------------------
  // Properties of finalisation

  /** Finalisation succeeds exactly when no plugin id is declared twice. */
  lemma ListSucceedsIffDistinct(bs: seq<BuilderState>, source: ScriptSource)
    ensures ListPluginRequests(bs, source).Success? <==> DistinctIds(bs)
  {
    var rs := Requests(bs, source);
    if DistinctIds(bs) {
      ScanFindsNothing(rs, 0);
    } else {
      var a, b :| 0 <= a < b < |bs| && bs[a].id == bs[b].id;
      var f := DuplicateHeadsGroup(rs, a, b);
      ScanFinds(rs, 0, f);
    }
  }

  /**
   * A failed finalisation names a duplicated id: `i` is its earliest
   * declaration, whose line the error carries, and `j` the next one, the
   * request the error is located at. No declaration before `i` has a later
   * duplicate, so the id reported is the earliest-declared duplicated one.
   */
  lemma ListReportsDuplicate(bs: seq<BuilderState>, source: ScriptSource) returns (i: nat, j: nat)
    requires ListPluginRequests(bs, source).Failure?
    ensures i < j < |bs| && bs[i].id == bs[j].id
    ensures forall k :: 0 <= k < j && k != i ==> bs[k].id != bs[i].id
    ensures forall k, l :: 0 <= k < i && k < l < |bs| ==> bs[k].id != bs[l].id
    ensures ListPluginRequests(bs, source).error ==
      DuplicateRequest(bs[i].id, bs[i].lineNumber, ToRequest(bs[j], source))
  {
    var rs := Requests(bs, source);
    i, j := ScanReport(rs, 0);
    forall k, l | 0 <= k < i && k < l < |bs|
      ensures bs[k].id != bs[l].id
    {
      if bs[k].id == bs[l].id {
        var f := DuplicateHeadsGroup(rs, k, l);
        assert false;
      }
    }
  }
}
