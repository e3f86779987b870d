/**
 * The parser side of the WebAssembly integration: it lists a module's export names
 * and registers one dependency per import, classifying each import as usable through
 * the bundler's name-based linkage or as "direct-only".
 */
module WasmParser {
  import opened Collections
  import opened WasmAst

  predicate IsMemoryImport(imp: Import) {
    imp.descr.MemoryDescr?
  }

  predicate IsTableImport(imp: Import) {
    imp.descr.TableDescr?
  }

  /** The value types that cross the JavaScript boundary faithfully. */
  const JS_COMPAT_TYPES: set<ValType> := {"i32", "f32", "f64"}

  /** The index of the first type outside JS_COMPAT_TYPES, or |types| when there is none. */
  function FirstIncompatibleIndex(types: seq<ValType>): (k: nat)
    ensures k <= |types|
    ensures forall j | 0 <= j < k :: types[j] in JS_COMPAT_TYPES
    ensures k < |types| ==> types[k] !in JS_COMPAT_TYPES
  {
    if types == [] then 0
    else if types[0] !in JS_COMPAT_TYPES then 0
    else 1 + FirstIncompatibleIndex(types[1..])
  }

  /**
   * Why a function import cannot be called from JavaScript: the first offending
   * parameter, or else the first offending result; None for any other import.
   */
  function JsIncompatibleType(imp: Import): (r: Option<string>)
    ensures !IsFuncImport(imp) ==> r == None
    ensures IsFuncImport(imp) ==>
      (r == None <==> (forall t | t in imp.descr.params :: t in JS_COMPAT_TYPES) &&
                      (forall t | t in imp.descr.results :: t in JS_COMPAT_TYPES))
  {
    match imp.descr
    case FuncDescr(params, results) =>
      var p := FirstIncompatibleIndex(params);
      if p < |params| then Some(params[p] + " as parameter")
      else
        var q := FirstIncompatibleIndex(results);
        if q < |results| then Some(results[q] + " as result") else None
    case _ => None
  }

  /** The source's two early-return loops, parameters first, then results. */
  method GetJsIncompatibleType(imp: Import) returns (r: Option<string>)
    ensures r == JsIncompatibleType(imp)
  {
    if !IsFuncImport(imp) {
      return None;
    }
    var params, results := imp.descr.params, imp.descr.results;
    for k := 0 to |params|
      invariant forall j | 0 <= j < k :: params[j] in JS_COMPAT_TYPES
    {
      if params[k] !in JS_COMPAT_TYPES {
        return Some(params[k] + " as parameter");
      }
    }
    for k := 0 to |results|
      invariant forall j | 0 <= j < k :: results[j] in JS_COMPAT_TYPES
    {
      if results[k] !in JS_COMPAT_TYPES {
        return Some(results[k] + " as result");
      }
    }
    return None;
  }

  /** A 64-bit integer anywhere in a function signature always yields a reason. */
  lemma I64IsNeverCompatible(imp: Import)
    requires IsFuncImport(imp)
    requires "i64" in imp.descr.params || "i64" in imp.descr.results
    ensures JsIncompatibleType(imp).Some?
  {
  }

  /**
   * The reason names the first offending parameter, or, when all parameters are
   * compatible, the first offending result.
   */
  lemma ReasonNamesFirstOffender(imp: Import, reason: string)
    requires IsFuncImport(imp)
    requires JsIncompatibleType(imp) == Some(reason)
    ensures
      (exists k | 0 <= k < |imp.descr.params| ::
         (forall j | 0 <= j < k :: imp.descr.params[j] in JS_COMPAT_TYPES) &&
         imp.descr.params[k] !in JS_COMPAT_TYPES &&
         reason == imp.descr.params[k] + " as parameter") ||
      ((forall t | t in imp.descr.params :: t in JS_COMPAT_TYPES) &&
       exists k | 0 <= k < |imp.descr.results| ::
         (forall j | 0 <= j < k :: imp.descr.results[j] in JS_COMPAT_TYPES) &&
         imp.descr.results[k] !in JS_COMPAT_TYPES &&
         reason == imp.descr.results[k] + " as result")
  {
  }

  /** The direct-only reason of an import, or None when name-based linkage works. */
  function OnlyDirectImport(imp: Import): (r: Option<string>)
  {
    if IsMemoryImport(imp) then Some("Memory")
    else if IsTableImport(imp) then Some("Table")
    else
      match JsIncompatibleType(imp)
      case Some(incompatibleType) => Some("Non-JS-compatible Func Sigurature (" + incompatibleType + ")")
      case None => None
  }

  /** The classification: memory, table and incompatible functions are direct-only; nothing else is. */
  lemma DirectOnlyClassification(imp: Import)
    ensures IsMemoryImport(imp) ==> OnlyDirectImport(imp) == Some("Memory")
    ensures IsTableImport(imp) ==> OnlyDirectImport(imp) == Some("Table")
    ensures IsGlobalImport(imp) ==> OnlyDirectImport(imp) == None
    ensures IsFuncImport(imp) ==>
      (OnlyDirectImport(imp) == None <==> (forall t | t in imp.descr.params :: t in JS_COMPAT_TYPES) &&
                                          (forall t | t in imp.descr.results :: t in JS_COMPAT_TYPES))
    ensures IsFuncImport(imp) && JsIncompatibleType(imp).Some? ==>
      OnlyDirectImport(imp) == Some("Non-JS-compatible Func Sigurature (" + JsIncompatibleType(imp).value + ")")
  {
  }

  /** The dependency registered for one import. */
  function ToDependency(imp: Import): (dep: ImportDependency)
  {
    ImportDependency(imp.moduleName, imp.name, imp.descr, OnlyDirectImport(imp))
  }

  function ImportDependencies(imports: seq<Import>): (deps: seq<ImportDependency>)
  {
    seq(|imports|, i requires 0 <= i < |imports| => ToDependency(imports[i]))
  }

  function ExportNames(exports: seq<Export>): (names: seq<string>)
  {
    seq(|exports|, i requires 0 <= i < |exports| => exports[i].name)
  }

  /** The build information of the module being parsed. */
  class BuildMeta {
    var exportsType: string
    var providedExports: seq<string>

    constructor ()
      ensures exportsType == "" && providedExports == []
    {
      exportsType := "";
      providedExports := [];
    }
  }

  /** The bundler's module record that parsing updates in place. */
  class WasmModule {
    const buildMeta: BuildMeta
    var dependencies: seq<ImportDependency>

    constructor (buildMeta: BuildMeta)
      ensures this.buildMeta == buildMeta && dependencies == []
    {
      this.buildMeta := buildMeta;
      dependencies := [];
    }
  }

  class ParserState {
    const module_: WasmModule

    constructor (m: WasmModule)
      ensures module_ == m
    {
      module_ := m;
    }
  }

  /**
   * Flags the module as a namespace, replaces its provided exports by the export
   * names, adds one dependency per import, and gives back the state it was given.
   */
  method Parse(binary: Module, state: ParserState) returns (r: ParserState)
    modifies state.module_, state.module_.buildMeta
    ensures r == state
    ensures state.module_.buildMeta.exportsType == "namespace"
    ensures state.module_.buildMeta.providedExports == ExportNames(binary.exports)
    ensures state.module_.dependencies == old(state.module_.dependencies) + ImportDependencies(binary.imports)
  {
    var m := state.module_;
    m.buildMeta.exportsType := "namespace";
    m.buildMeta.providedExports := [];
    ghost var before := m.dependencies;
    for i := 0 to |binary.imports|
      invariant m.buildMeta.exportsType == "namespace" && m.buildMeta.providedExports == []
      invariant m.dependencies == before + ImportDependencies(binary.imports[..i])
    {
      var imp := binary.imports[i];
      var onlyDirectImport: Option<string> := None;
      if IsMemoryImport(imp) {
        onlyDirectImport := Some("Memory");
      } else if IsTableImport(imp) {
        onlyDirectImport := Some("Table");
      } else {
        var incompatibleType := GetJsIncompatibleType(imp);
        if incompatibleType.Some? {
          onlyDirectImport := Some("Non-JS-compatible Func Sigurature (" + incompatibleType.value + ")");
        }
      }
      m.dependencies := m.dependencies + [ImportDependency(imp.moduleName, imp.name, imp.descr, onlyDirectImport)];
      assert ImportDependencies(binary.imports[..i + 1]) == ImportDependencies(binary.imports[..i]) + [ToDependency(imp)];
    }
    assert binary.imports[..|binary.imports|] == binary.imports;
    for i := 0 to |binary.exports|
      invariant m.buildMeta.exportsType == "namespace"
      invariant m.buildMeta.providedExports == ExportNames(binary.exports[..i])
      invariant m.dependencies == before + ImportDependencies(binary.imports)
    {
      m.buildMeta.providedExports := m.buildMeta.providedExports + [binary.exports[i].name];
      assert ExportNames(binary.exports[..i + 1]) == ExportNames(binary.exports[..i]) + [binary.exports[i].name];
    }
    assert binary.exports[..|binary.exports|] == binary.exports;
    return state;
  }
}
