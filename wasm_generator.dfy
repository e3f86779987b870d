/**
 * The generator side of the WebAssembly integration: five transforms, composed in a
 * fixed order, that rename or prune exports, drop the start section, turn imported
 * globals into local mutable ones, mangle or prune imports, and add an exported init
 * function that fills the globals and then runs the old start function.
 *
 * The toolkit's `add` is taken to append each new entry at the end of its section.
 */
module WasmGenerator {
  import opened Collections
  import opened WasmAst

  // ---------------------------------------------------------------------------
  // Composition of transforms

  /** The `reduce` inside `compose`: each step wraps the accumulated function in the next one. */
  function Reduce<T>(acc: T -> T, fns: seq<T -> T>): T -> T
  {
    if fns == [] then acc
    else
      var nextFn := fns[0];
      Reduce((v: T) => nextFn(acc(v)), fns[1..])
  }

  /** `compose(f1, ..., fn)`: the reduce started from the identity. */
  function Compose<T>(fns: seq<T -> T>): T -> T
  {
    Reduce((v: T) => v, fns)
  }

  /** Applies `fns[0]` first, then `fns[1]`, and so on. */
  function ApplyInOrder<T>(fns: seq<T -> T>, v: T): T
  {
    if fns == [] then v else ApplyInOrder(fns[1..], fns[0](v))
  }

  lemma {:induction false} ReduceApplies<T>(acc: T -> T, fns: seq<T -> T>, v: T)
    ensures Reduce(acc, fns)(v) == ApplyInOrder(fns, acc(v))
  {
    if fns != [] {
      var nextFn := fns[0];
      var acc' := (w: T) => nextFn(acc(w));
      assert Reduce(acc, fns) == Reduce(acc', fns[1..]);
      ReduceApplies(acc', fns[1..], v);
    }
  }

  /** The composition applies its arguments left to right; with no argument it is the identity. */
  lemma {:induction false} ComposeAppliesLeftToRight<T>(fns: seq<T -> T>, v: T)
    ensures Compose(fns)(v) == ApplyInOrder(fns, v)
    ensures |fns| == 0 ==> Compose(fns)(v) == v
  {
    ReduceApplies((w: T) => w, fns, v);
  }

  // ---------------------------------------------------------------------------
  // Scans of the decoded module

  /** The traversal that pushes every global import, in declaration order. */
  method GetImportedGlobals(ast: Module) returns (importedGlobals: seq<Import>)
    ensures importedGlobals == Filter(IsGlobalImport, ast.imports)
    ensures forall imp | imp in importedGlobals :: IsGlobalImport(imp)
    ensures forall imp | imp in ast.imports && IsGlobalImport(imp) :: imp in importedGlobals
  {
    importedGlobals := [];
    for i := 0 to |ast.imports|
      invariant importedGlobals == Filter(IsGlobalImport, ast.imports[..i])
    {
      FilterAppend(IsGlobalImport, ast.imports[..i], [ast.imports[i]]);
      assert ast.imports[..i + 1] == ast.imports[..i] + [ast.imports[i]];
      if IsGlobalImport(ast.imports[i]) {
        importedGlobals := importedGlobals + [ast.imports[i]];
      }
    }
    assert ast.imports[..|ast.imports|] == ast.imports;
  }

  /** The traversal that counts function imports. */
  method GetCountImportedFunc(ast: Module) returns (count: nat)
    ensures count == |Filter(IsFuncImport, ast.imports)|
    ensures count <= |ast.imports|
  {
    count := 0;
    for i := 0 to |ast.imports|
      invariant count == |Filter(IsFuncImport, ast.imports[..i])|
    {
      FilterAppend(IsFuncImport, ast.imports[..i], [ast.imports[i]]);
      assert ast.imports[..i + 1] == ast.imports[..i] + [ast.imports[i]];
      if IsFuncImport(ast.imports[i]) {
        count := count + 1;
      }
    }
    assert ast.imports[..|ast.imports|] == ast.imports;
  }

  /** The index the start section names, if there is one. */
  function GetStartFuncIndex(ast: Module): Option<nat>
  {
    ast.start
  }

  /** The type index a new type entry receives: the type section's size, 0 without one. */
  function GetNextTypeIndex(ast: Ast): (r: nat)
    ensures ast.typeSection.None? ==> r == 0
    ensures MetadataConsistent(ast) ==> r == |ast.wasm.types|
  {
    match ast.typeSection
    case None => 0
    case Some(md) => md.vectorOfSize
  }

  /**
   * The function index a new function receives: imported functions come first in the
   * function index space, so the func section's size is shifted by their count.
   */
  function GetNextFuncIndex(ast: Ast, countImportedFunc: nat): (r: nat)
    ensures ast.funcSection.None? ==> r == countImportedFunc
    ensures MetadataConsistent(ast) ==> r == |ast.wasm.funcs| + countImportedFunc
  {
    match ast.funcSection
    case None => 0 + countImportedFunc
    case Some(md) => md.vectorOfSize + countImportedFunc
  }

  // ---------------------------------------------------------------------------
  // Transform 1: export rename or prune

  /** JavaScript truthiness of what the usage query answers: a non-empty name. */
  predicate IsTruthyName(usedName: Option<string>) {
    usedName.Some? && usedName.value != ""
  }

  function RenameExport(isUsed: string -> Option<string>, e: Export): Option<Export>
  {
    var usedName := isUsed(e.name);
    if IsTruthyName(usedName) then Some(e.(name := usedName.value)) else None
  }

  function ExportRenamer(isUsed: string -> Option<string>): Export -> Option<Export>
  {
    e => RenameExport(isUsed, e)
  }

  /** The surviving exports, renamed to their used names. */
  function RenameExports(isUsed: string -> Option<string>, exports: seq<Export>): (r: seq<Export>)
    ensures |r| <= |exports|
    ensures forall e' | e' in r :: exists e | e in exports ::
      IsTruthyName(isUsed(e.name)) && e' == e.(name := isUsed(e.name).value)
    ensures forall e | e in exports && IsTruthyName(isUsed(e.name)) :: e.(name := isUsed(e.name).value) in r
  {
    forall e' | e' in FilterMap(ExportRenamer(isUsed), exports)
      ensures exists e | e in exports :: IsTruthyName(isUsed(e.name)) && e' == e.(name := isUsed(e.name).value)
    {
      FilterMapMember(ExportRenamer(isUsed), exports, e');
    }
    forall e | e in exports && IsTruthyName(isUsed(e.name))
      ensures e.(name := isUsed(e.name).value) in FilterMap(ExportRenamer(isUsed), exports)
    {
      FilterMapMember(ExportRenamer(isUsed), exports, e.(name := isUsed(e.name).value));
    }
    FilterMap(ExportRenamer(isUsed), exports)
  }

  /** Survivors keep their order: renaming a concatenation renames each part. */
  lemma RenameExportsKeepsOrder(isUsed: string -> Option<string>, a: seq<Export>, b: seq<Export>)
    ensures RenameExports(isUsed, a + b) == RenameExports(isUsed, a) + RenameExports(isUsed, b)
  {
    FilterMapAppend(ExportRenamer(isUsed), a, b);
  }

  /** The first transform; everything but the export section is left alone. */
  function RewriteExportNames(isUsed: string -> Option<string>, m: Module): (r: Module)
    ensures r.exports == RenameExports(isUsed, m.exports)
    ensures r.(exports := m.exports) == m
  {
    m.(exports := RenameExports(isUsed, m.exports))
  }

  // ---------------------------------------------------------------------------
  // Transform 2: start removal

  function RemoveStartFunc(m: Module): (r: Module)
    ensures r.start == None
    ensures r.(start := m.start) == m
  {
    m.(start := None)
  }

  // ---------------------------------------------------------------------------
  // Transform 3: imported globals become local mutable globals

  /** The local global that replaces an imported one: same type, mutable, set to i32.const 0. */
  function InternalisedGlobal(valtype: ValType): Global
  {
    Global(GlobalType(valtype, MutVar), [ConstInstr("i32", 0)])
  }

  /** What the traversal pushes for one import. */
  function NewGlobalFor(imp: Import): Option<Global>
  {
    match imp.descr
    case GlobalDescr(globalType) => Some(InternalisedGlobal(globalType.valtype))
    case _ => None
  }

  /** One new global per imported global, in the same order and of the same value type. */
  lemma {:induction false} NewGlobalsFollowImportedGlobals(imports: seq<Import>)
    ensures |FilterMap(NewGlobalFor, imports)| == |Filter(IsGlobalImport, imports)|
    ensures forall k | 0 <= k < |Filter(IsGlobalImport, imports)| ::
      FilterMap(NewGlobalFor, imports)[k] == InternalisedGlobal(GlobalValType(Filter(IsGlobalImport, imports)[k]))
  {
    if imports != [] {
      NewGlobalsFollowImportedGlobals(imports[1..]);
    }
  }

  function RewriteImportedGlobals(m: Module): (r: Module)
    ensures forall imp | imp in r.imports :: !IsGlobalImport(imp)
    ensures r.imports == Filter(IsNotGlobalImport, m.imports)
    ensures |r.imports| + |Filter(IsGlobalImport, m.imports)| == |m.imports|
    ensures |r.globals| == |m.globals| + |Filter(IsGlobalImport, m.imports)|
    ensures r.globals[..|m.globals|] == m.globals
    ensures forall k | 0 <= k < |Filter(IsGlobalImport, m.imports)| ::
      r.globals[|m.globals| + k] == InternalisedGlobal(GlobalValType(Filter(IsGlobalImport, m.imports)[k]))
    ensures r.(imports := m.imports, globals := m.globals) == m
  {
    NewGlobalsFollowImportedGlobals(m.imports);
    FilterPartition(IsGlobalImport, IsNotGlobalImport, m.imports);
    m.(imports := Filter(IsNotGlobalImport, m.imports),
       globals := m.globals + FilterMap(NewGlobalFor, m.imports))
  }

  /**
   * The replacement global for the k-th imported global lands at global index
   * |globals| + k; it keeps index k, as the body of the init function assumes, exactly
   * when the module declares no globals of its own.
   */
  lemma InternalisedGlobalIndex(m: Module, k: nat)
    requires k < |Filter(IsGlobalImport, m.imports)|
    ensures RewriteImportedGlobals(m).globals[|m.globals| + k] ==
            InternalisedGlobal(GlobalValType(Filter(IsGlobalImport, m.imports)[k]))
    ensures |m.globals| == 0 ==>
            RewriteImportedGlobals(m).globals[k] == InternalisedGlobal(GlobalValType(Filter(IsGlobalImport, m.imports)[k]))
  {
  }

  // ---------------------------------------------------------------------------
  // Transform 4: import mangling or pruning

  /** The key the mangling map is looked up by: `module:name`. */
  function ImportKey(imp: Import): string
  {
    imp.moduleName + ":" + imp.name
  }

  /** The key a used dependency is stored under: `request:name`. */
  function DependencyKey(used: UsedDependency): string
  {
    used.dependency.request + ":" + used.dependency.name
  }

  /** The key is not injective: a ':' inside a namespace or a name lets two imports share it. */
  lemma ImportKeyIsAmbiguous()
    ensures ImportKey(Import("a:b", "c", MemoryDescr(Limits(0, None)))) ==
            ImportKey(Import("a", "b:c", MemoryDescr(Limits(0, None))))
  {
  }

  function MangleImport(usedDependencyMap: map<string, UsedDependency>, mangledModule: string, imp: Import): Option<Import>
  {
    var key := ImportKey(imp);
    if key in usedDependencyMap
    then Some(imp.(moduleName := mangledModule, name := usedDependencyMap[key].name))
    else None
  }

  function ImportMangler(usedDependencyMap: map<string, UsedDependency>, mangledModule: string): Import -> Option<Import>
  {
    imp => MangleImport(usedDependencyMap, mangledModule, imp)
  }

  /** The surviving imports, moved to the mangled namespace under their mangled names. */
  function MangleImports(usedDependencyMap: map<string, UsedDependency>, mangledModule: string, imports: seq<Import>): (r: seq<Import>)
    ensures |r| <= |imports|
    ensures forall imp' | imp' in r :: imp'.moduleName == mangledModule
    ensures forall imp' | imp' in r :: exists imp | imp in imports ::
      ImportKey(imp) in usedDependencyMap &&
      imp' == imp.(moduleName := mangledModule, name := usedDependencyMap[ImportKey(imp)].name)
    ensures forall imp | imp in imports && ImportKey(imp) in usedDependencyMap ::
      imp.(moduleName := mangledModule, name := usedDependencyMap[ImportKey(imp)].name) in r
  {
    var f := ImportMangler(usedDependencyMap, mangledModule);
    forall imp' | imp' in FilterMap(f, imports)
      ensures imp'.moduleName == mangledModule
      ensures exists imp | imp in imports ::
        ImportKey(imp) in usedDependencyMap &&
        imp' == imp.(moduleName := mangledModule, name := usedDependencyMap[ImportKey(imp)].name)
    {
      FilterMapMember(f, imports, imp');
    }
    forall imp | imp in imports && ImportKey(imp) in usedDependencyMap
      ensures imp.(moduleName := mangledModule, name := usedDependencyMap[ImportKey(imp)].name) in FilterMap(f, imports)
    {
      FilterMapMember(f, imports, imp.(moduleName := mangledModule, name := usedDependencyMap[ImportKey(imp)].name));
    }
    FilterMap(f, imports)
  }

  /** Survivors keep their order: mangling a concatenation mangles each part. */
  lemma MangleImportsKeepsOrder(usedDependencyMap: map<string, UsedDependency>, mangledModule: string, a: seq<Import>, b: seq<Import>)
    ensures MangleImports(usedDependencyMap, mangledModule, a + b) ==
            MangleImports(usedDependencyMap, mangledModule, a) + MangleImports(usedDependencyMap, mangledModule, b)
  {
    FilterMapAppend(ImportMangler(usedDependencyMap, mangledModule), a, b);
  }

  /** The fourth transform; everything but the import section is left alone. */
  function RewriteImports(usedDependencyMap: map<string, UsedDependency>, mangledModule: string, m: Module): (r: Module)
    ensures r.imports == MangleImports(usedDependencyMap, mangledModule, m.imports)
    ensures r.(imports := m.imports) == m
  {
    m.(imports := MangleImports(usedDependencyMap, mangledModule, m.imports))
  }

  /** `j` is the last position before `n` whose dependency has the key of position `j`. */
  predicate IsLastWithKey(usedDependencies: seq<UsedDependency>, j: int, n: int)
  {
    0 <= j < n <= |usedDependencies| &&
    forall l | j < l < n :: DependencyKey(usedDependencies[l]) != DependencyKey(usedDependencies[j])
  }

  /**
   * The mangling map of the used dependencies: keyed by `request:name`, each entry set in
   * turn, so that when two dependencies share a key the later one wins.
   */
  function UsedDependencyMapOf(usedDependencies: seq<UsedDependency>): map<string, UsedDependency>
  {
    if usedDependencies == [] then map[]
    else
      var n := |usedDependencies| - 1;
      UsedDependencyMapOf(usedDependencies[..n])[DependencyKey(usedDependencies[n]) := usedDependencies[n]]
  }

  /** The map's keys are exactly the keys of the used dependencies. */
  lemma {:induction false} UsedDependencyMapKeys(usedDependencies: seq<UsedDependency>, key: string)
    ensures key in UsedDependencyMapOf(usedDependencies) <==>
      exists i | 0 <= i < |usedDependencies| :: DependencyKey(usedDependencies[i]) == key
  {
    if usedDependencies != [] {
      var n := |usedDependencies| - 1;
      var init := usedDependencies[..n];
      UsedDependencyMapKeys(init, key);
      if key in UsedDependencyMapOf(init) {
        var i :| 0 <= i < n && DependencyKey(init[i]) == key;
        assert DependencyKey(usedDependencies[i]) == key;
      }
      if exists i | 0 <= i < |usedDependencies| :: DependencyKey(usedDependencies[i]) == key {
        var i :| 0 <= i < |usedDependencies| && DependencyKey(usedDependencies[i]) == key;
        if i < n {
          assert DependencyKey(init[i]) == key;
        }
      }
    }
  }

  /** Each key maps to the last used dependency that has it. */
  lemma {:induction false} UsedDependencyMapLastWins(usedDependencies: seq<UsedDependency>, i: nat)
    requires IsLastWithKey(usedDependencies, i, |usedDependencies|)
    ensures DependencyKey(usedDependencies[i]) in UsedDependencyMapOf(usedDependencies)
    ensures UsedDependencyMapOf(usedDependencies)[DependencyKey(usedDependencies[i])] == usedDependencies[i]
  {
    var n := |usedDependencies| - 1;
    if i < n {
      var init := usedDependencies[..n];
      assert IsLastWithKey(init, i, n) by {
        forall l | i < l < n ensures DependencyKey(init[l]) != DependencyKey(init[i]) {
          assert init[l] == usedDependencies[l] && init[i] == usedDependencies[i];
        }
      }
      UsedDependencyMapLastWins(init, i);
      assert init[i] == usedDependencies[i];
    }
  }

  /** The source's loop over the used dependencies, setting one map entry per dependency. */
  method GetUsedDependencyMap(usedDependencies: seq<UsedDependency>) returns (usedDependencyMap: map<string, UsedDependency>)
    ensures usedDependencyMap == UsedDependencyMapOf(usedDependencies)
  {
    usedDependencyMap := map[];
    for i := 0 to |usedDependencies|
      invariant usedDependencyMap == UsedDependencyMapOf(usedDependencies[..i])
    {
      var usedDep := usedDependencies[i];
      usedDependencyMap := usedDependencyMap[DependencyKey(usedDep) := usedDep];
      assert usedDependencies[..i + 1][..i] == usedDependencies[..i];
    }
    assert usedDependencies[..|usedDependencies|] == usedDependencies;
  }

  // ---------------------------------------------------------------------------
  // Transform 5: the init function

  /** What the init function is built from, all computed before the first transform runs. */
  datatype InitFunctionState = InitFunctionState(
    initFuncId: string,
    startAtFuncIndex: Option<nat>,
    importedGlobals: seq<Import>,
    nextFuncIndex: nat,
    nextTypeIndex: nat)

  predicate ValidInitState(st: InitFunctionState) {
    forall imp | imp in st.importedGlobals :: IsGlobalImport(imp)
  }

  /** One parameter per imported global, typed like it, named `module.name` for debugging. */
  function InitParams(importedGlobals: seq<Import>): (params: seq<FuncParam>)
    requires forall imp | imp in importedGlobals :: IsGlobalImport(imp)
  {
    seq(|importedGlobals|, i requires 0 <= i < |importedGlobals| =>
      FuncParam(GlobalValType(importedGlobals[i]), importedGlobals[i].moduleName + "." + importedGlobals[i].name))
  }

  function ParamTypes(params: seq<FuncParam>): (types: seq<ValType>)
  {
    seq(|params|, i requires 0 <= i < |params| => params[i].valtype)
  }

  /** The reduce over the imported globals: `get_local i; set_global i` for each index i. */
  function CopyGlobalsBody(count: nat): (body: seq<Instr>)
    ensures |body| == 2 * count
    ensures forall j | 0 <= j < |body| ::
      body[j] == if j % 2 == 0 then GetLocal(j / 2) else SetGlobal(j / 2)
  {
    if count == 0 then []
    else CopyGlobalsBody(count - 1) + [GetLocal(count - 1), SetGlobal(count - 1)]
  }

  /** The copying code, then a call to the old start function when there was one. */
  function InitBody(count: nat, startAtFuncIndex: Option<nat>): seq<Instr>
  {
    CopyGlobalsBody(count) + match startAtFuncIndex
      case Some(s) => [CallInstr(s)]
      case None => []
  }

  /**
   * Adds the init function: its code, an export of kind Func named after it at
   * `nextFuncIndex`, a func entry pointing at `nextTypeIndex`, and its type entry.
   */
  function AddInitFunction(st: InitFunctionState, m: Module): (r: Module)
    requires ValidInitState(st)
    ensures r.types == m.types + [FuncType(ParamTypes(InitParams(st.importedGlobals)), [])]
    ensures r.funcs == m.funcs + [st.nextTypeIndex]
    ensures r.exports == m.exports + [Export(st.initFuncId, FuncExport, st.nextFuncIndex)]
    ensures r.code == m.code + [Func(st.initFuncId, InitParams(st.importedGlobals), [],
                                     InitBody(|st.importedGlobals|, st.startAtFuncIndex))]
    ensures r.imports == m.imports && r.globals == m.globals && r.start == m.start
  {
    var funcParams := InitParams(st.importedGlobals);
    var funcBody := InitBody(|st.importedGlobals|, st.startAtFuncIndex);
    var func := Func(st.initFuncId, funcParams, [], funcBody);
    var functype := FuncType(ParamTypes(func.params), func.results);
    var moduleExport := Export(st.initFuncId, FuncExport, st.nextFuncIndex);
    m.(types := m.types + [functype],
       funcs := m.funcs + [st.nextTypeIndex],
       exports := m.exports + [moduleExport],
       code := m.code + [func])
  }

  /** The init function takes one parameter per imported global, typed like it, in order. */
  lemma InitParamsShape(importedGlobals: seq<Import>)
    requires forall g | g in importedGlobals :: IsGlobalImport(g)
    ensures var params := InitParams(importedGlobals);
      |params| == |importedGlobals| &&
      forall i | 0 <= i < |params| :: params[i].valtype == GlobalValType(importedGlobals[i])
  {
  }

  /**
   * The init body for K imported globals: `get_local i; set_global i` for each i < K,
   * then `call start` exactly when a start index exists; it is empty when there is neither.
   */
  lemma InitBodyShape(k: nat, startAtFuncIndex: Option<nat>)
    ensures var body := InitBody(k, startAtFuncIndex);
      |body| == (if startAtFuncIndex.Some? then 2 * k + 1 else 2 * k) &&
      (forall i | 0 <= i < k :: body[2 * i] == GetLocal(i) && body[2 * i + 1] == SetGlobal(i)) &&
      (startAtFuncIndex.Some? ==> body[2 * k] == CallInstr(startAtFuncIndex.value)) &&
      (body == [] <==> k == 0 && startAtFuncIndex.None?)
  {
    var copy := CopyGlobalsBody(k);
    var body := InitBody(k, startAtFuncIndex);
    forall i | 0 <= i < k
      ensures body[2 * i] == GetLocal(i) && body[2 * i + 1] == SetGlobal(i)
    {
      assert body[2 * i] == copy[2 * i] && body[2 * i + 1] == copy[2 * i + 1];
      assert (2 * i) % 2 == 0 && (2 * i) / 2 == i;
      assert (2 * i + 1) % 2 == 1 && (2 * i + 1) / 2 == i;
    }
  }

  // ---------------------------------------------------------------------------
  // The pipeline

  function ExportStep(isUsed: string -> Option<string>): Module -> Module
  {
    m => RewriteExportNames(isUsed, m)
  }

  function ImportStep(usedDependencyMap: map<string, UsedDependency>, mangledModule: string): Module -> Module
  {
    m => RewriteImports(usedDependencyMap, mangledModule, m)
  }

  function InitStep(st: InitFunctionState): Module -> Module
    requires ValidInitState(st)
  {
    m => AddInitFunction(st, m)
  }

  /** The init function's state, taken from the original module before any transform runs. */
  function InitStateOf(ast: Ast, initFuncId: string): (st: InitFunctionState)
    ensures ValidInitState(st)
  {
    InitFunctionState(
      initFuncId,
      GetStartFuncIndex(ast.wasm),
      Filter(IsGlobalImport, ast.wasm.imports),
      GetNextFuncIndex(ast, |Filter(IsFuncImport, ast.wasm.imports)|),
      GetNextTypeIndex(ast))
  }

  /** The five transforms in the order the generator composes them. */
  function Transforms(ast: Ast, initFuncId: string, isUsed: string -> Option<string>,
                      usedDependencyMap: map<string, UsedDependency>, mangledModule: string): seq<Module -> Module>
  {
    [ExportStep(isUsed),
     RemoveStartFunc,
     RewriteImportedGlobals,
     ImportStep(usedDependencyMap, mangledModule),
     InitStep(InitStateOf(ast, initFuncId))]
  }

  function Pipeline(ast: Ast, initFuncId: string, isUsed: string -> Option<string>,
                    usedDependencyMap: map<string, UsedDependency>, mangledModule: string): Module
  {
    Compose(Transforms(ast, initFuncId, isUsed, usedDependencyMap, mangledModule))(ast.wasm)
  }

  /** The pipeline is export, start, globals, imports, init, applied in that order. */
  lemma {:induction false} PipelineOrder(ast: Ast, initFuncId: string, isUsed: string -> Option<string>,
                                         usedDependencyMap: map<string, UsedDependency>, mangledModule: string)
    ensures Pipeline(ast, initFuncId, isUsed, usedDependencyMap, mangledModule) ==
      AddInitFunction(InitStateOf(ast, initFuncId),
        RewriteImports(usedDependencyMap, mangledModule,
          RewriteImportedGlobals(
            RemoveStartFunc(
              RewriteExportNames(isUsed, ast.wasm)))))
  {
    var fns := Transforms(ast, initFuncId, isUsed, usedDependencyMap, mangledModule);
    ComposeAppliesLeftToRight(fns, ast.wasm);
    var m1 := fns[0](ast.wasm);
    var m2 := fns[1](m1);
    var m3 := fns[2](m2);
    var m4 := fns[3](m3);
    assert fns[1..][1..][1..][1..][1..] == [];
    calc {
      ApplyInOrder(fns, ast.wasm);
      ApplyInOrder(fns[1..], m1);
      ApplyInOrder(fns[1..][1..], m2);
      ApplyInOrder(fns[1..][1..][1..], m3);
      ApplyInOrder(fns[1..][1..][1..][1..], m4);
      ApplyInOrder(fns[1..][1..][1..][1..][1..], fns[4](m4));
    }
  }

  /**
   * What the rewritten module holds: no start section, no global import, every import
   * in the mangled namespace, the imported globals appended as local globals, and the
   * init function's type, func, export and code entries appended last.
   */
  lemma PipelineResult(ast: Ast, initFuncId: string, isUsed: string -> Option<string>,
                       usedDependencyMap: map<string, UsedDependency>, mangledModule: string)
    ensures var r, m := Pipeline(ast, initFuncId, isUsed, usedDependencyMap, mangledModule), ast.wasm;
      var importedGlobals := Filter(IsGlobalImport, m.imports);
      r.start == None &&
      (forall imp | imp in r.imports :: !IsGlobalImport(imp) && imp.moduleName == mangledModule) &&
      r.imports == MangleImports(usedDependencyMap, mangledModule, Filter(IsNotGlobalImport, m.imports)) &&
      r.globals == m.globals + FilterMap(NewGlobalFor, m.imports) &&
      r.exports == RenameExports(isUsed, m.exports) +
                   [Export(initFuncId, FuncExport, GetNextFuncIndex(ast, |Filter(IsFuncImport, m.imports)|))] &&
      r.types == m.types + [FuncType(ParamTypes(InitParams(importedGlobals)), [])] &&
      r.funcs == m.funcs + [GetNextTypeIndex(ast)] &&
      r.code == m.code + [Func(initFuncId, InitParams(importedGlobals), [], InitBody(|importedGlobals|, m.start))]
  {
    PipelineOrder(ast, initFuncId, isUsed, usedDependencyMap, mangledModule);
    var m3 := RewriteImportedGlobals(RemoveStartFunc(RewriteExportNames(isUsed, ast.wasm)));
    var m4 := RewriteImports(usedDependencyMap, mangledModule, m3);
    assert forall imp | imp in m4.imports :: imp.moduleName == mangledModule;
    assert forall imp | imp in m4.imports :: !IsGlobalImport(imp) by {
      forall imp' | imp' in m4.imports ensures !IsGlobalImport(imp') {
        var imp :| imp in m3.imports && ImportKey(imp) in usedDependencyMap && imp' == imp.(moduleName := mangledModule, name := usedDependencyMap[ImportKey(imp)].name);
      }
    }
  }

  /**
   * Function imports the rewrite keeps: those whose key the mangling map holds.
   * Mangling keeps descriptors, so these are the function imports left afterwards.
   */
  function KeptFuncImport(usedDependencyMap: map<string, UsedDependency>): Import -> bool
  {
    imp => IsFuncImport(imp) && ImportKey(imp) in usedDependencyMap
  }

  lemma {:induction false} FuncImportsAfterRewrite(usedDependencyMap: map<string, UsedDependency>, mangledModule: string, imports: seq<Import>)
    ensures |Filter(IsFuncImport, MangleImports(usedDependencyMap, mangledModule, Filter(IsNotGlobalImport, imports)))| ==
            |Filter(KeptFuncImport(usedDependencyMap), imports)|
  {
    if imports != [] {
      var x, rest := imports[0], imports[1..];
      FuncImportsAfterRewrite(usedDependencyMap, mangledModule, rest);
      var head := if IsNotGlobalImport(x) then [x] else [];
      assert Filter(IsNotGlobalImport, imports) == head + Filter(IsNotGlobalImport, rest);
      MangleImportsKeepsOrder(usedDependencyMap, mangledModule, head, Filter(IsNotGlobalImport, rest));
      var mangledHead := MangleImports(usedDependencyMap, mangledModule, head);
      FilterAppend(IsFuncImport, mangledHead, MangleImports(usedDependencyMap, mangledModule, Filter(IsNotGlobalImport, rest)));
      assert |Filter(IsFuncImport, mangledHead)| == if KeptFuncImport(usedDependencyMap)(x) then 1 else 0 by {
        if head == [x] {
          assert FilterMap(ImportMangler(usedDependencyMap, mangledModule), [x][1..]) == [];
        }
      }
    }
  }

  /**
   * The init export's index is computed before imports are pruned: it is |funcs| plus
   * the original number of function imports, and it is the init function's actual
   * index in the rewritten module exactly when every function import is kept.
   */
  lemma InitExportIndexAfterPruning(ast: Ast, initFuncId: string, isUsed: string -> Option<string>,
                                    usedDependencyMap: map<string, UsedDependency>, mangledModule: string)
    requires MetadataConsistent(ast)
    ensures var r, m := Pipeline(ast, initFuncId, isUsed, usedDependencyMap, mangledModule), ast.wasm;
      |r.exports| > 0 &&
      var initIndex := r.exports[|r.exports| - 1].index;
      initIndex == |m.funcs| + |Filter(IsFuncImport, m.imports)| &&
      (initIndex == |Filter(IsFuncImport, r.imports)| + |r.funcs| - 1 <==>
       forall imp | imp in m.imports && IsFuncImport(imp) :: ImportKey(imp) in usedDependencyMap)
  {
    PipelineResult(ast, initFuncId, isUsed, usedDependencyMap, mangledModule);
    FuncImportsAfterRewrite(usedDependencyMap, mangledModule, ast.wasm.imports);
    FilterStronger(IsFuncImport, KeptFuncImport(usedDependencyMap), ast.wasm.imports);
  }

  /*
   * A worked example: a module importing the mutable i32 global `env.base` and the
   * function `env.log(i32)`, declaring two functions, starting at function 2 and
   * exporting `run`. Only `env:log` is used, under the mangled name "a".
   */
  const EXAMPLE_BASE := Import("env", "base", GlobalDescr(GlobalType("i32", MutVar)))
  const EXAMPLE_LOG := Import("env", "log", FuncDescr(["i32"], []))
  const EXAMPLE_RUN := Export("run", FuncExport, 1)
  const EXAMPLE_MODULE := Module([FuncType(["i32"], []), FuncType([], [])], [EXAMPLE_BASE, EXAMPLE_LOG],
                                 [1, 1], [], [EXAMPLE_RUN], Some(2), [])
  const EXAMPLE_AST := Ast(EXAMPLE_MODULE, Some(SectionMetadata(2)), Some(SectionMetadata(2)))
  const EXAMPLE_USED_MAP := map["env:log" := UsedDependency(ImportDependency("env", "log", FuncDescr(["i32"], []), None), "a")]

  /** The pieces of the worked example, each computed on its own. */
  lemma WorkedExampleSections(isUsed: string -> Option<string>)
    requires isUsed("run") == Some("run")
    ensures Filter(IsGlobalImport, EXAMPLE_MODULE.imports) == [EXAMPLE_BASE]
    ensures Filter(IsFuncImport, EXAMPLE_MODULE.imports) == [EXAMPLE_LOG]
    ensures Filter(IsNotGlobalImport, EXAMPLE_MODULE.imports) == [EXAMPLE_LOG]
    ensures FilterMap(NewGlobalFor, EXAMPLE_MODULE.imports) == [InternalisedGlobal("i32")]
    ensures MangleImports(EXAMPLE_USED_MAP, "m", [EXAMPLE_LOG]) == [Import("m", "a", FuncDescr(["i32"], []))]
    ensures RenameExports(isUsed, [EXAMPLE_RUN]) == [EXAMPLE_RUN]
    ensures InitParams([EXAMPLE_BASE]) == [FuncParam("i32", "env.base")]
    ensures ParamTypes(InitParams([EXAMPLE_BASE])) == ["i32"]
    ensures CopyGlobalsBody(1) == [GetLocal(0), SetGlobal(0)]
  {
    assert ImportKey(EXAMPLE_LOG) == "env:log";
    assert EXAMPLE_BASE.moduleName + "." + EXAMPLE_BASE.name == "env.base";
    assert [EXAMPLE_BASE, EXAMPLE_LOG][1..] == [EXAMPLE_LOG] && [EXAMPLE_LOG][1..] == [];
    assert FilterMap(ImportMangler(EXAMPLE_USED_MAP, "m"), [EXAMPLE_LOG][1..]) == [];
    assert ExportRenamer(isUsed)(EXAMPLE_RUN) == Some(EXAMPLE_RUN);
    assert [EXAMPLE_RUN][1..] == [];
  }

  /**
   * The rewrite of the worked example: the global import becomes a local mutable
   * global set to 0, `env.log` moves to the mangled namespace, `run` stays exported,
   * and the init function takes one i32, stores it into global 0 and calls function 2.
   */
  lemma WorkedExample(isUsed: string -> Option<string>)
    requires isUsed("run") == Some("run")
    ensures var r := Pipeline(EXAMPLE_AST, "init", isUsed, EXAMPLE_USED_MAP, "m");
      r.start == None &&
      r.imports == [Import("m", "a", FuncDescr(["i32"], []))] &&
      r.globals == [Global(GlobalType("i32", MutVar), [ConstInstr("i32", 0)])] &&
      r.exports == [Export("run", FuncExport, 1), Export("init", FuncExport, 3)] &&
      r.types == EXAMPLE_MODULE.types + [FuncType(["i32"], [])] &&
      r.funcs == [1, 1, 2] &&
      r.code == [Func("init", [FuncParam("i32", "env.base")], [], [GetLocal(0), SetGlobal(0), CallInstr(2)])]
  {
    WorkedExampleSections(isUsed);
    PipelineResult(EXAMPLE_AST, "init", isUsed, EXAMPLE_USED_MAP, "m");
    var r := Pipeline(EXAMPLE_AST, "init", isUsed, EXAMPLE_USED_MAP, "m");
    assert r.start == None;
    assert r.imports == [Import("m", "a", FuncDescr(["i32"], []))];
    assert r.globals == [Global(GlobalType("i32", MutVar), [ConstInstr("i32", 0)])];
    assert r.exports == [Export("run", FuncExport, 1), Export("init", FuncExport, 3)];
    assert r.types == EXAMPLE_MODULE.types + [FuncType(["i32"], [])];
    assert r.funcs == [1, 1, 2];
    assert InitBody(1, Some(2)) == [GetLocal(0), SetGlobal(0), CallInstr(2)];
    assert r.code == [Func("init", [FuncParam("i32", "env.base")], [], [GetLocal(0), SetGlobal(0), CallInstr(2)])];
  }

  // ---------------------------------------------------------------------------
  // The generator

  /** The init function's name: derived from the count of used exports when that is a list. */
  function InitFuncId(usedExports: Option<seq<string>>, numberToIdentifier: nat -> string): string
  {
    match usedExports
    case Some(names) => numberToIdentifier(|names|)
    case None => "__webpack_init__"
  }

  /**
   * Computes the scans on the original module, builds the mangling map, and runs the
   * five transforms in order. `isUsed`, `usedDependencies`, `numberToIdentifier` and
   * `mangledModule` stand for the bundle graph's queries and naming policy.
   */
  method Generate(ast: Ast, usedExports: Option<seq<string>>, numberToIdentifier: nat -> string,
                  isUsed: string -> Option<string>, usedDependencies: seq<UsedDependency>, mangledModule: string)
    returns (r: Module)
    ensures r == Pipeline(ast, InitFuncId(usedExports, numberToIdentifier), isUsed,
                          UsedDependencyMapOf(usedDependencies), mangledModule)
    ensures r.start == None
    ensures forall imp | imp in r.imports :: !IsGlobalImport(imp) && imp.moduleName == mangledModule
    ensures forall imp | imp in r.imports ::
      exists used | used in usedDependencies :: imp.name == used.name
    ensures r.globals == ast.wasm.globals + FilterMap(NewGlobalFor, ast.wasm.imports)
    ensures r.imports ==
      MangleImports(UsedDependencyMapOf(usedDependencies), mangledModule, Filter(IsNotGlobalImport, ast.wasm.imports))
    ensures r.exports == RenameExports(isUsed, ast.wasm.exports) +
      [Export(InitFuncId(usedExports, numberToIdentifier), FuncExport,
              GetNextFuncIndex(ast, |Filter(IsFuncImport, ast.wasm.imports)|))]
    ensures r.funcs == ast.wasm.funcs + [GetNextTypeIndex(ast)]
    ensures r.types == ast.wasm.types + [FuncType(ParamTypes(InitParams(Filter(IsGlobalImport, ast.wasm.imports))), [])]
    ensures r.code == ast.wasm.code +
      [Func(InitFuncId(usedExports, numberToIdentifier), InitParams(Filter(IsGlobalImport, ast.wasm.imports)), [],
            InitBody(|Filter(IsGlobalImport, ast.wasm.imports)|, ast.wasm.start))]
  {
    var initFuncId := InitFuncId(usedExports, numberToIdentifier);
    var importedGlobals := GetImportedGlobals(ast.wasm);
    var countImportedFunc := GetCountImportedFunc(ast.wasm);
    var startAtFuncIndex := GetStartFuncIndex(ast.wasm);
    var nextFuncIndex := GetNextFuncIndex(ast, countImportedFunc);
    var nextTypeIndex := GetNextTypeIndex(ast);

    var usedDependencyMap := GetUsedDependencyMap(usedDependencies);

    var transform := Compose([
      ExportStep(isUsed),
      RemoveStartFunc,
      RewriteImportedGlobals,
      ImportStep(usedDependencyMap, mangledModule),
      InitStep(InitFunctionState(initFuncId, startAtFuncIndex, importedGlobals, nextFuncIndex, nextTypeIndex))]);

    r := transform(ast.wasm);

    assert InitFunctionState(initFuncId, startAtFuncIndex, importedGlobals, nextFuncIndex, nextTypeIndex) ==
           InitStateOf(ast, initFuncId);
    assert r == Pipeline(ast, initFuncId, isUsed, usedDependencyMap, mangledModule);
    PipelineResult(ast, initFuncId, isUsed, usedDependencyMap, mangledModule);
    forall imp' | imp' in r.imports
      ensures exists used | used in usedDependencies :: imp'.name == used.name
    {
      var imp :| imp in Filter(IsNotGlobalImport, ast.wasm.imports) && ImportKey(imp) in usedDependencyMap &&
        imp' == imp.(moduleName := mangledModule, name := usedDependencyMap[ImportKey(imp)].name);
      UsedDependencyMapKeys(usedDependencies, ImportKey(imp));
      var i :| 0 <= i < |usedDependencies| && DependencyKey(usedDependencies[i]) == ImportKey(imp);
      ghost var last := LastIndexWithKey(usedDependencies, i);
      UsedDependencyMapLastWins(usedDependencies, last);
      assert usedDependencies[last] in usedDependencies;
    }
  }

  /** The last position holding the key of position i. */
  ghost function LastIndexWithKey(usedDependencies: seq<UsedDependency>, i: nat): (j: nat)
    requires i < |usedDependencies|
    ensures IsLastWithKey(usedDependencies, j, |usedDependencies|)
    ensures DependencyKey(usedDependencies[j]) == DependencyKey(usedDependencies[i])
    decreases |usedDependencies| - i
  {
    if IsLastWithKey(usedDependencies, i, |usedDependencies|) then i
    else
      var l :| i < l < |usedDependencies| && DependencyKey(usedDependencies[l]) == DependencyKey(usedDependencies[i]);
      LastIndexWithKey(usedDependencies, l)
  }
}
