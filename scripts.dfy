/**
 * The script side of a plugins {} block: one declaration `id(name)`
 * followed by a fluent chain of calls, and a few blocks written out.
 */
module Scripts {
  import opened Wrappers
  import opened PluginRequests
  import opened Chains
  import opened RequestCollector
  import Finalisation

  /** One fluent call on a handle; it acts on the handle's builder as the chain semantics says one step does. */
  method Perform(h: SpecHandle, call: Call) returns (r: Result<SpecHandle, Error>)
    modifies h.Target()
    ensures match Step(h.Mode(), old(h.Target().State()), call)
      case Failure(e) => r == Failure(e) && h.Target().State() == old(h.Target().State())
      case Success(s) => r.Success? && r.value.Target() == h.Target() && r.value.Mode() == h.Mode() && h.Target().State() == s
    ensures old(h.Target().Valid()) ==> h.Target().Valid()
  {
    match call {
      case VersionCall(v) => r := h.Version(v);
      case ApplyCall(flag) => r := h.Apply(flag);
    }
  }

  /**
   * A fluent chain of calls on one handle, each made on the handle the
   * previous one returned, stopping at the first call that throws. Only the
   * handle's builder changes, exactly as the pure chain semantics says.
   */
  method RunChain(h: SpecHandle, calls: seq<Call>) returns (r: Result<SpecHandle, Error>)
    modifies h.Target()
    ensures var o := Chain(h.Mode(), old(h.Target().State()), calls);
      h.Target().State() == o.state &&
      if o.error.Some? then r == Failure(o.error.value)
      else r.Success? && r.value.Target() == h.Target() && r.value.Mode() == h.Mode()
  {
    ghost var s := h.Target().State();
    var cur := h;
    var k := 0;
    while k < |calls|
      invariant 0 <= k <= |calls|
      invariant cur.Target() == h.Target() && cur.Mode() == h.Mode()
      invariant Chain(h.Mode(), s, calls[..k]) == Outcome(h.Target().State(), None)
    {
      ChainAppend(h.Mode(), s, calls[..k], [calls[k]]);
      assert calls[..k + 1] == calls[..k] + [calls[k]];
      var next := Perform(cur, calls[k]);
      if next.Failure? {
        ChainAppend(h.Mode(), s, calls[..k + 1], calls[k + 1..]);
        assert calls[..k + 1] + calls[k + 1..] == calls;
        return next;
      }
      cur := next.value;
      k := k + 1;
    }
    assert calls[..k] == calls;
    r := Success(cur);
  }

  /**
   * `id(name)` followed by a chain of calls on the handle it returns. The
   * builder stays registered even when a later call throws, holding what the
   * calls before it set; builders stay valid throughout, and in a block that
   * forbids `apply(false)` every builder stays applied.
   */
  method Declare(d: DependenciesSpec, id: string, calls: seq<Call>) returns (r: Result<SpecHandle, Error>)
    requires d.collector.Valid()
    modifies d.collector
    ensures d.collector.Valid()
    ensures match NewBuilder(id, d.blockLineNumber)
      case Failure(e) => r == Failure(e) && d.collector.States() == old(d.collector.States())
      case Success(s) =>
        var o := Chain(d.collector.allowApplyFalse, s, calls);
        d.collector.States() == old(d.collector.States()) + [o.state] &&
        (if o.error.Some? then r == Failure(o.error.value)
         else (r.Success? && r.value.Target() == d.collector.specs[|d.collector.specs| - 1] &&
               r.value.Mode() == d.collector.allowApplyFalse))
    ensures d.collector.allowApplyFalse == Forbidden && AllApplied(old(d.collector.States())) ==>
      AllApplied(d.collector.States())
  {
    var c := d.collector;
    ghost var before := c.States();
    var registered := d.Id(id);
    if registered.Failure? {
      return registered;
    }
    var h := registered.value;
    ghost var s := h.Target().State();
    r := RunChain(h, calls);
    ChainKeepsIdentity(h.Mode(), s, calls);
    if c.allowApplyFalse == Forbidden {
      ForbiddenKeepsApply(s, calls);
    }
    assert c.specs[..|c.specs| - 1] == old(c.specs);
  }

  /** Two declarations at the block's line; the second sets a version. */
  method TwoDeclarations(source: ScriptSource) {
    var c := new Collector(source, Allowed);
    var d := c.CreateSpec(7);
    var a := Declare(d, "a", []);
    assert c.States() == [BuilderState("a", None, true, 7)];
    var b := Declare(d, "b", [VersionCall("2.0")]);
    assert c.States() == [BuilderState("a", None, true, 7), BuilderState("b", Some("2.0"), true, 7)];
    var r := c.GetPluginRequests();
    TwoRequests(source);
    assert r == Success([Request("a", None, true, 7, source), Request("b", Some("2.0"), true, 7, source)]);
  }

  /** Finalising the two declarations above keeps both, in order. */
  lemma TwoRequests(source: ScriptSource)
    ensures Finalisation.GetPluginRequests([BuilderState("a", None, true, 7), BuilderState("b", Some("2.0"), true, 7)], source)
      == Success([Request("a", None, true, 7, source), Request("b", Some("2.0"), true, 7, source)])
  {
    var states := [BuilderState("a", None, true, 7), BuilderState("b", Some("2.0"), true, 7)];
    assert "a"[0] != "b"[0];
    Finalisation.ListSucceedsIffDistinct(states, source);
    var r := Finalisation.GetPluginRequests(states, source);
    assert r.value == [Request("a", None, true, 7, source), Request("b", Some("2.0"), true, 7, source)];
  }

  /** The same id declared at lines 10 and 12: the error carries line 10 and is located at line 12. */
  method DuplicateDeclaration(source: ScriptSource) {
    var c := new Collector(source, Allowed);
    var d := c.CreateSpec(1);
    var a := d.IdAt("a", 10);
    var b := d.IdAt("a", 12);
    var r := c.GetPluginRequests();
    ghost var states := c.States();
    assert states == [BuilderState("a", None, true, 10), BuilderState("a", None, true, 12)];
    assert states[0].id == states[1].id;
    assert !Finalisation.DistinctIds(states);
    Finalisation.ListSucceedsIffDistinct(states, source);
    ghost var i, j := Finalisation.ListReportsDuplicate(states, source);
    assert i == 0 && j == 1;
    assert r == Failure(DuplicateRequest("a", 10, Request("a", None, true, 12, source)));
  }

  /** Empty names and versions throw; an empty block finalises to nothing, on every call. */
  method InvalidDeclarations(source: ScriptSource) {
    var c := new Collector(source, Allowed);
    var d := c.CreateSpec(3);
    var a := d.Id("");
    assert a == Failure(InvalidPluginId("", EmptyValue)) && c.specs == [];
    var r1 := c.GetPluginRequests();
    var r2 := c.GetPluginRequests();
    assert r1 == r2 == Success([]);
    var b := Declare(d, "x", [VersionCall("")]);
    assert b == Failure(InvalidPluginVersion("", EmptyValue));
    assert c.States() == [BuilderState("x", None, true, 3)];
  }

  /** In a restricted block `apply(false)` throws after any chain and leaves the builder as it was. */
  method RestrictedDeclaration(source: ScriptSource) {
    var c := new Collector(source, Forbidden);
    var d := c.CreateSpec(5);
    var x := d.Id("x");
    var h1 := x.value.Version("1.0");
    var h2 := h1.value.Apply(true);
    var h3 := h2.value.Apply(false);
    assert h3 == Failure(IllegalPluginApplyFalse);
    assert c.States() == [BuilderState("x", Some("1.0"), true, 5)];
  }
}
