/**
 * The delegate behind the plugins {} block: a collector that owns an
 * insertion-ordered list of mutable request builders, the entry point whose
 * `id` calls append to that list, the builders' fluent `version`/`apply`
 * calls, and the decorator that forbids `apply(false)`.
 */
module RequestCollector {
  import opened Wrappers
  import opened PluginRequests
  import Finalisation

  /** The mutable builder made by one `id(...)` call. */
  class Builder {
    const id: string
    var version: Option<string>
    var apply: bool
    const lineNumber: int

    /** The builder's fields as a value. */
    function State(): BuilderState
      reads this
    {
      BuilderState(id, version, apply, lineNumber)
    }

    ghost predicate Valid()
      reads this
    {
      ValidState(State())
    }

    /** Sets the fields; the id has already been checked by `Create`, its only caller. */
    constructor (id: string, lineNumber: int)
      requires id != []
      ensures State() == BuilderState(id, None, true, lineNumber)
      ensures Valid()
    {
      this.id := id;
      this.version := None;
      this.apply := true;
      this.lineNumber := lineNumber;
    }

    /** The builder's construction: an empty id throws, otherwise a fresh builder that applies and has no version. */
    static method Create(id: string, lineNumber: int) returns (r: Result<Builder, Error>)
      ensures match NewBuilder(id, lineNumber)
        case Failure(e) => r == Failure(e)
        case Success(s) => r.Success? && fresh(r.value) && r.value.State() == s && r.value.Valid()
    {
      if id == [] {
        return Failure(InvalidPluginId(id, EmptyValue));
      }
      var b := new Builder(id, lineNumber);
      return Success(b);
    }

    /** `version(v)`: an empty version throws and changes nothing; otherwise it is stored and the same builder returned. */
    method Version(v: string) returns (r: Result<Builder, Error>)
      modifies this
      ensures match WithVersion(old(State()), v)
        case Failure(e) => r == Failure(e) && State() == old(State())
        case Success(s) => r == Success(this) && State() == s
      ensures old(Valid()) ==> Valid()
    {
      if v == [] {
        return Failure(InvalidPluginVersion(v, EmptyValue));
      }
      version := Some(v);
      return Success(this);
    }

    /** `apply(flag)`: never throws; stores the flag and returns the same builder. */
    method Apply(flag: bool) returns (r: Result<Builder, Error>)
      modifies this
      ensures r == Success(this)
      ensures State() == old(State()).(apply := flag)
      ensures old(Valid()) ==> Valid()
    {
      apply := flag;
      return Success(this);
    }
  }

  /** The decorator used when the collector forbids `apply(false)`. */
  class RestrictedBuilder {
    const decorated: Builder

    constructor (decorated: Builder)
      ensures this.decorated == decorated
    {
      this.decorated := decorated;
    }

    /** `version(v)`: delegates, then wraps the returned builder in a new decorator. */
    method Version(v: string) returns (r: Result<RestrictedBuilder, Error>)
      modifies decorated
      ensures match WithVersion(old(decorated.State()), v)
        case Failure(e) => r == Failure(e) && decorated.State() == old(decorated.State())
        case Success(s) => r.Success? && fresh(r.value) && r.value.decorated == decorated && decorated.State() == s
      ensures old(decorated.Valid()) ==> decorated.Valid()
    {
      var inner := decorated.Version(v);
      match inner {
        case Failure(e) =>
          return Failure(e);
        case Success(b) =>
          var w := new RestrictedBuilder(b);
          return Success(w);
      }
    }

    /** `apply(flag)`: `false` throws before anything changes; `true` delegates and wraps the result. */
    method Apply(flag: bool) returns (r: Result<RestrictedBuilder, Error>)
      modifies decorated
      ensures match WithApply(Forbidden, old(decorated.State()), flag)
        case Failure(e) => r == Failure(e) && decorated.State() == old(decorated.State())
        case Success(s) => r.Success? && fresh(r.value) && r.value.decorated == decorated && decorated.State() == s
      ensures old(decorated.Valid()) ==> decorated.Valid()
    {
      if !flag {
        return Failure(IllegalPluginApplyFalse);
      }
      var inner := decorated.Apply(flag);
      var w := new RestrictedBuilder(inner.value);
      return Success(w);
    }
  }

  /** What `id(...)` hands to the script: the builder itself, or the decorator around it. */
  datatype SpecHandle = Plain(builder: Builder) | Restricted(restricted: RestrictedBuilder)
  {
    /** The builder every call on this handle acts on. */
    function Target(): Builder {
      match this
      case Plain(b) => b
      case Restricted(w) => w.decorated
    }

    /** Whether this handle lets `apply(false)` through. */
    function Mode(): AllowApplyFalse {
      if Plain? then Allowed else Forbidden
    }

    /** `version(v)` through the handle: the same builder and the same kind of handle come back. */
    method Version(v: string) returns (r: Result<SpecHandle, Error>)
      modifies Target()
      ensures match WithVersion(old(Target().State()), v)
        case Failure(e) => r == Failure(e) && Target().State() == old(Target().State())
        case Success(s) => r.Success? && r.value.Target() == Target() && r.value.Mode() == Mode() && Target().State() == s
      ensures old(Target().Valid()) ==> Target().Valid()
    {
      match this {
        case Plain(b) =>
          var x := b.Version(v);
          r := if x.Success? then Success(Plain(x.value)) else Failure(x.error);
        case Restricted(w) =>
          var x := w.Version(v);
          r := if x.Success? then Success(Restricted(x.value)) else Failure(x.error);
      }
    }

    /** `apply(flag)` through the handle: only a restricted handle refuses, and only `false`. */
    method Apply(flag: bool) returns (r: Result<SpecHandle, Error>)
      modifies Target()
      ensures match WithApply(Mode(), old(Target().State()), flag)
        case Failure(e) => r == Failure(e) && Target().State() == old(Target().State())
        case Success(s) => r.Success? && r.value.Target() == Target() && r.value.Mode() == Mode() && Target().State() == s
      ensures old(Target().Valid()) ==> Target().Valid()
    {
      match this {
        case Plain(b) =>
          var x := b.Apply(flag);
          r := Success(Plain(x.value));
        case Restricted(w) =>
          var x := w.Apply(flag);
          r := if x.Success? then Success(Restricted(x.value)) else Failure(x.error);
      }
    }
  }

  /** The states of a list of builders, in order. */
  function StatesOf(bs: seq<Builder>): (r: seq<BuilderState>)
    reads bs
    ensures |r| == |bs|
    ensures forall i :: 0 <= i < |bs| ==> r[i] == bs[i].State()
  {
    if bs == [] then [] else StatesOf(bs[..|bs| - 1]) + [bs[|bs| - 1].State()]
  }

  /** The collector: the script it serves, its policy on `apply(false)`, and the builders in declaration order. */
  class Collector {
    const scriptSource: ScriptSource
    const allowApplyFalse: AllowApplyFalse
    var specs: seq<Builder>

    /** Every builder has a non-empty id and, once set, a non-empty version. */
    ghost predicate Valid()
      reads this, specs
    {
      forall i :: 0 <= i < |specs| ==> specs[i].Valid()
    }

    /** The current states of the builders, in declaration order. */
    function States(): seq<BuilderState>
      reads this, specs
    {
      StatesOf(specs)
    }

    constructor (scriptSource: ScriptSource, allowApplyFalse: AllowApplyFalse)
      ensures Valid()
      ensures this.scriptSource == scriptSource && this.allowApplyFalse == allowApplyFalse
      ensures specs == []
    {
      this.scriptSource := scriptSource;
      this.allowApplyFalse := allowApplyFalse;
      specs := [];
    }

    /** `createSpec(line)`: a fresh entry point bound to this collector and to the block's line. */
    method CreateSpec(pluginsBlockLineNumber: int) returns (d: DependenciesSpec)
      ensures fresh(d) && d.collector == this && d.blockLineNumber == pluginsBlockLineNumber
    {
      d := new DependenciesSpec(this, pluginsBlockLineNumber);
    }

    /** `getPluginRequests`: finalises the current builders without changing them. */
    method GetPluginRequests() returns (r: Result<seq<Request>, Error>)
      ensures r == Finalisation.GetPluginRequests(States(), scriptSource)
      ensures specs == [] ==> r == Success([])
    {
      if specs == [] {
        return Success([]);
      }
      r := ListPluginRequests();
    }

    /** `listPluginRequests`: the requests in declaration order, or the duplicate that aborts them. */
    method ListPluginRequests() returns (r: Result<seq<Request>, Error>)
      ensures r == Finalisation.ListPluginRequests(States(), scriptSource)
    {
      r := Finalisation.ListPluginRequests(States(), scriptSource);
    }
  }

  /** The entry point of one plugins {} block: `id(...)` registers a builder with the collector. */
  class DependenciesSpec {
    const collector: Collector
    const blockLineNumber: int

    constructor (collector: Collector, blockLineNumber: int)
      ensures this.collector == collector && this.blockLineNumber == blockLineNumber
    {
      this.collector := collector;
      this.blockLineNumber := blockLineNumber;
    }

    /** `id(name)`: a declaration at the block's own line. */
    method Id(id: string) returns (r: Result<SpecHandle, Error>)
      requires collector.Valid()
      modifies collector
      ensures collector.Valid()
      ensures match NewBuilder(id, blockLineNumber)
        case Failure(e) => r == Failure(e) && collector.specs == old(collector.specs)
        case Success(s) =>
          r.Success? && fresh(r.value.Target()) && r.value.Target().State() == s &&
          collector.specs == old(collector.specs) + [r.value.Target()] &&
          r.value.Mode() == collector.allowApplyFalse && (r.value.Restricted? ==> fresh(r.value.restricted))
      ensures collector.States() ==
        if r.Success? then old(collector.States()) + [NewBuilder(id, blockLineNumber).value] else old(collector.States())
    {
      r := IdAt(id, blockLineNumber);
    }

    /**
     * `id(name, line)`: an empty name throws before anything is registered;
     * otherwise exactly one builder is appended and a handle to it returned,
     * wrapped in the decorator when the collector forbids `apply(false)`.
     */
    method IdAt(id: string, requestLineNumber: int) returns (r: Result<SpecHandle, Error>)
      requires collector.Valid()
      modifies collector
      ensures collector.Valid()
      ensures match NewBuilder(id, requestLineNumber)
        case Failure(e) => r == Failure(e) && collector.specs == old(collector.specs)
        case Success(s) =>
          r.Success? && fresh(r.value.Target()) && r.value.Target().State() == s &&
          collector.specs == old(collector.specs) + [r.value.Target()] &&
          r.value.Mode() == collector.allowApplyFalse && (r.value.Restricted? ==> fresh(r.value.restricted))
      ensures collector.States() ==
        if r.Success? then old(collector.States()) + [NewBuilder(id, requestLineNumber).value] else old(collector.States())
    {
      var created := Builder.Create(id, requestLineNumber);
      if created.Failure? {
        return Failure(created.error);
      }
      var spec := created.value;
      collector.specs := collector.specs + [spec];
      if collector.allowApplyFalse == Forbidden {
        var w := new RestrictedBuilder(spec);
        r := Success(Restricted(w));
      } else {
        r := Success(Plain(spec));
      }
      assert collector.States() == old(collector.States()) + [spec.State()];
    }
  }
}
