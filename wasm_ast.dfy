/**
 * An abstract view of a decoded WebAssembly module: each section is a sequence of
 * entries, in binary order. Byte-level decoding and encoding are not modelled; the
 * transforms of the generator work on this record instead of on a buffer.
 */
module WasmAst {
  import opened Collections

  /** Value types are the toolkit's tags: "i32", "i64", "f32", "f64". */
  type ValType = string

  datatype Mutability = MutConst | MutVar

  datatype GlobalType = GlobalType(valtype: ValType, mutability: Mutability)

  datatype Limits = Limits(min: nat, max: Option<nat>)

  /** The descriptor of an import, tagged by the kind of entity imported. */
  datatype ImportDescr =
    | MemoryDescr(limits: Limits)
    | TableDescr(elementType: string, limits: Limits)
    | GlobalDescr(globalType: GlobalType)
    | FuncDescr(params: seq<ValType>, results: seq<ValType>)

  /** A module import: `moduleName` is the namespace the host must supply it from. */
  datatype Import = Import(moduleName: string, name: string, descr: ImportDescr)

  datatype ExportType = FuncExport | GlobalExport | MemoryExport | TableExport

  /** An export names the entity at `index` in the index space of its type. */
  datatype Export = Export(name: string, exportType: ExportType, index: nat)

  /** The instructions the rewrite produces. */
  datatype Instr =
    | ConstInstr(valtype: ValType, value: int)
    | GetLocal(localIndex: nat)
    | SetGlobal(globalIndex: nat)
    | CallInstr(funcIndex: nat)

  datatype Global = Global(globalType: GlobalType, init: seq<Instr>)

  datatype FuncType = FuncType(params: seq<ValType>, results: seq<ValType>)

  /** A parameter of a function body; `id` is a debugging name only. */
  datatype FuncParam = FuncParam(valtype: ValType, id: string)

  datatype Func = Func(id: string, params: seq<FuncParam>, results: seq<ValType>, body: seq<Instr>)

  /**
   * A module: the type section, the import section, the func section (a type index
   * per declared function), the global section, the export section, the optional
   * start section and the code section.
   */
  datatype Module = Module(
    types: seq<FuncType>,
    imports: seq<Import>,
    funcs: seq<nat>,
    globals: seq<Global>,
    exports: seq<Export>,
    start: Option<nat>,
    code: seq<Func>)

  /** The decoder's metadata for a section that is present: the size of its vector. */
  datatype SectionMetadata = SectionMetadata(vectorOfSize: nat)

  /** A decoded module together with the metadata of its type and func sections. */
  datatype Ast = Ast(wasm: Module, typeSection: Option<SectionMetadata>, funcSection: Option<SectionMetadata>)

  /** The metadata agrees with the decoded entries: an absent section has no entries. */
  predicate MetadataConsistent(ast: Ast) {
    (match ast.typeSection
     case None => |ast.wasm.types| == 0
     case Some(md) => md.vectorOfSize == |ast.wasm.types|) &&
    (match ast.funcSection
     case None => |ast.wasm.funcs| == 0
     case Some(md) => md.vectorOfSize == |ast.wasm.funcs|)
  }

  predicate IsGlobalImport(imp: Import) {
    imp.descr.GlobalDescr?
  }

  predicate IsNotGlobalImport(imp: Import) {
    !imp.descr.GlobalDescr?
  }

  predicate IsFuncImport(imp: Import) {
    imp.descr.FuncDescr?
  }

  function GlobalValType(imp: Import): ValType
    requires IsGlobalImport(imp)
  {
    imp.descr.globalType.valtype
  }

  /**
   * The dependency the parser registers for an import: the import's namespace (the
   * request), its name, its descriptor, and why it can only be linked directly, if so.
   */
  datatype ImportDependency = ImportDependency(
    request: string,
    name: string,
    descr: ImportDescr,
    onlyDirectImport: Option<string>)

  /** A dependency the bundle graph found used, with the mangled name it was given. */
  datatype UsedDependency = UsedDependency(dependency: ImportDependency, name: string)
}
