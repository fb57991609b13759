/**
 * The values of the plugins {} block: the immutable plugin request, the state
 * of one request builder, the errors the block can raise, and the rules each
 * fluent call follows on a builder's state.
 */
module PluginRequests {
  import opened Wrappers

  /** The reason carried by both "null or empty" validation errors. */
  const EmptyValue: string := "cannot be null or empty"

  /** Whether a script may declare `apply false`. */
  datatype AllowApplyFalse = Allowed | Forbidden

  /** The script being evaluated; used only to attribute errors, never inspected. */
  datatype ScriptSource = ScriptSource(displayName: string)

  /** One finalised plugin request, as handed to the host. */
  datatype Request = Request(
    id: string,
    version: Option<string>,
    apply: bool,
    lineNumber: int,
    scriptSource: ScriptSource)

  /**
   * The failures of the block. A duplicate carries the id, the line of the
   * earliest declaration and the later request it is located at.
   */
  datatype Error =
    | InvalidPluginId(id: string, reason: string)
    | InvalidPluginVersion(version: string, reason: string)
    | IllegalPluginApplyFalse
    | DuplicateRequest(id: string, firstLineNumber: int, request: Request)

  /** The fields of one request builder at some moment; `version == None` is Java's null. */
  datatype BuilderState = BuilderState(
    id: string,
    version: Option<string>,
    apply: bool,
    lineNumber: int)

  /** A builder's id is never empty, nor is its version once set. */
  predicate ValidState(s: BuilderState) {
    s.id != [] && (s.version.Some? ==> s.version.value != [])
  }

  /** Construction of a builder: an empty id fails, otherwise apply defaults to true and no version is set. */
  function NewBuilder(id: string, lineNumber: int): (r: Result<BuilderState, Error>)
    ensures r.Success? <==> id != []
    ensures r.Failure? ==> r.error == InvalidPluginId(id, EmptyValue)
    ensures r.Success? ==> ValidState(r.value) && r.value.id == id && r.value.lineNumber == lineNumber
    ensures r.Success? ==> r.value.version.None? && r.value.apply
  {
    if id == [] then Failure(InvalidPluginId(id, EmptyValue))
    else Success(BuilderState(id, None, true, lineNumber))
  }

  /** `version(v)` on a builder: an empty version fails, otherwise it overwrites the version. */
  function WithVersion(s: BuilderState, v: string): (r: Result<BuilderState, Error>)
    ensures r.Success? <==> v != []
    ensures r.Failure? ==> r.error == InvalidPluginVersion(v, EmptyValue)
    ensures r.Success? ==> r.value.version == Some(v)
    ensures r.Success? ==> r.value.id == s.id && r.value.apply == s.apply && r.value.lineNumber == s.lineNumber
    ensures r.Success? && ValidState(s) ==> ValidState(r.value)
  {
    if v == [] then Failure(InvalidPluginVersion(v, EmptyValue))
    else Success(s.(version := Some(v)))
  }

  /**
   * `apply(flag)` seen through a handle of the given mode: only the restricted
   * decorator refuses, and only `false`; otherwise the flag is stored.
   */
  function WithApply(mode: AllowApplyFalse, s: BuilderState, flag: bool): (r: Result<BuilderState, Error>)
    ensures r.Failure? <==> mode == Forbidden && !flag
    ensures r.Failure? ==> r.error == IllegalPluginApplyFalse
    ensures r.Success? ==> r.value.apply == flag
    ensures r.Success? ==> r.value.id == s.id && r.value.version == s.version && r.value.lineNumber == s.lineNumber
    ensures r.Success? && ValidState(s) ==> ValidState(r.value)
  {
    if mode == Forbidden && !flag then Failure(IllegalPluginApplyFalse)
    else Success(s.(apply := flag))
  }

  /** The immutable request made from a builder's final state: it carries the state's fields unchanged, and the source. */
  function ToRequest(s: BuilderState, source: ScriptSource): (r: Request)
    ensures BuilderState(r.id, r.version, r.apply, r.lineNumber) == s
    ensures r.scriptSource == source
  {
    Request(s.id, s.version, s.apply, s.lineNumber, source)
  }
}
