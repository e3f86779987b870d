# WebAssembly module rewriting for a bundler, in Dafny

This project models the part of the bundler that brings a pre-compiled WebAssembly module into
a bundle. It has two sides.

- **The parser** (`wasm_parser.dfy`, module `WasmParser`) walks a decoded module. It replaces
  the module's provided exports by the list of export names. It registers one import
  dependency per import. Each dependency is marked "direct-only" when the import is a memory
  or a table. A function import whose signature uses a type outside `JS_COMPAT_TYPES =
  {i32, f32, f64}` is marked too, and the reason names the first offending parameter or
  result.
- **The generator** (`wasm_generator.dfy`, module `WasmGenerator`) rewrites the module
  through five transforms, composed left to right:
  1. export rename or prune;
  2. start removal;
  3. imported globals become local mutable globals initialised to `i32.const 0`;
  4. imports are mangled through a `module:name` map or pruned;
  5. an exported init function is added. It copies parameter `i` into global `i` and then
     calls the old start function.

  The indices the init function uses are computed from the original module, before any
  transform runs.

The binary is abstracted as a record of sections (`wasm_ast.dfy`, module `WasmAst`): types,
imports (with a tagged descriptor Memory | Table | Global | Func), the func section, globals,
exports, an optional start index and code. The decoder's section metadata (the size of the
type and func sections, or their absence) sits beside the module in `Ast`. `Collections`
holds the order-preserving `Filter` and `FilterMap` that each scan and transform is built
from, with lemmas for order (a filter of a concatenation is the concatenation of the
filters), membership and counts.

The model takes the source's own form:

- The traversals that push or count (`getImportedGlobals`, `getCountImportedFunc`, the loop
  in `getUsedDependencyMap`, the early-return loops of `getJsIncompatibleType`) are methods
  with loops. Each is proved against a specification function.
- The transforms are pure functions on the module record, composed by `Compose`, which is
  the same `reduce` from the identity that the source uses.
- The parser's updates of the bundler's module record are a method on classes
  (`BuildMeta`, `WasmModule`, `ParserState`) whose fields it assigns.

Parameters stand for what lies outside the core:
- `isUsed` is the bundle graph's export-usage query;
- `usedDependencies` is the list of used import dependencies;
- `numberToIdentifier` is the naming helper;
- `mangledModule` is the shared mangled namespace.

Where the source's own comments and its code differ (lib/wasm/WebAssemblyGenerator.js:146-147), or
the code has consequences its comments do not mention, the model follows the code:

- **Global indices.** The toolkit's `add` is taken to append new globals at the end of the
  global section. Under that assumption, the replacement for the k-th imported global lands
  at index `|globals| + k`. The init body writes global `k`, so the documented claim that
  global indices are preserved holds only when the module declares no globals of its own.
  `InternalisedGlobalIndex` states exactly this.
- **The init function's index.** `nextFuncIndex` counts the function imports of the
  original module, even though step 4 may prune some of them. `InitExportIndexAfterPruning`
  shows that the exported index is the init function's real index iff every function import
  is kept. The same holds for the `call start` that `InitBody` emits: its start index is read
  from the original module. When a function import in front of that index is pruned, the
  call names a different function. The model reproduces this as written.
- **Export truthiness.** An export is kept when `isUsed` gives back a non-empty name. The
  source tests the JavaScript truthiness of that answer, so an empty name counts as unused.
- **Key ambiguity.** The mangling map is keyed by `module + ":" + name`. A ':' inside a
  namespace or a name lets two different imports share a key (`ImportKeyIsAmbiguous`).

## Model

| member | source | states |
|---|---|---|
| `WasmParser.FirstIncompatibleIndex` | lib/wasm/WebAssemblyParser.js:34-40 | the result is at most the length; every type before it is in JS_COMPAT_TYPES; the type at it, if any, is not — i.e. the first offending position |
| `WasmParser.JsIncompatibleType` | lib/wasm/WebAssemblyParser.js:31-42 | None for any import that is not a function import; for a function import, None iff every parameter type and every result type is in {i32, f32, f64} |
| `WasmParser.GetJsIncompatibleType` | lib/wasm/WebAssemblyParser.js:31-42 | the loop over parameters, then over results, with early returns, gives exactly JsIncompatibleType |
| `WasmParser.I64IsNeverCompatible` | lib/wasm/WebAssemblyParser.js:25-41 | a function import with an i64 parameter or result always gets a reason |
| `WasmParser.ReasonNamesFirstOffender` | lib/wasm/WebAssemblyParser.js:34-40 | a reason is "<t> as parameter" for the first offending parameter, or, when all parameters are compatible, "<t> as result" for the first offending result |
| `WasmParser.DirectOnlyClassification` | lib/wasm/WebAssemblyParser.js:74-86 | memory imports give "Memory", table imports "Table", global imports and compatible function imports nothing, and an incompatible function import "Non-JS-compatible Func Sigurature (<reason>)" |
| `WasmParser.Parse` | lib/wasm/WebAssemblyParser.js:56-100 | exportsType becomes "namespace"; providedExports becomes exactly the export names in order; one dependency per import is appended in declaration order, carrying module, name and descriptor unchanged and the import's classification; the same state object is returned |
| `WasmGenerator.ComposeAppliesLeftToRight` | lib/wasm/WebAssemblyGenerator.js:20-24 | the composition applies its arguments first to last; with no arguments it is the identity |
| `WasmGenerator.GetImportedGlobals` | lib/wasm/WebAssemblyGenerator.js:74-86 | the result holds only global imports, holds every global import, and is the order-preserving filter of the imports |
| `WasmGenerator.GetCountImportedFunc` | lib/wasm/WebAssemblyGenerator.js:88-100 | the count is the number of function imports |
| `WasmGenerator.GetNextTypeIndex` | lib/wasm/WebAssemblyGenerator.js:108-116 | 0 without a type section; with consistent metadata it is the number of types, the first unused type index |
| `WasmGenerator.GetNextFuncIndex` | lib/wasm/WebAssemblyGenerator.js:129-139 | the imported-function count without a func section; with consistent metadata it is the number of declared functions plus the imported-function count |
| `WasmGenerator.RenameExports` | lib/wasm/WebAssemblyGenerator.js:185-198 | every output export is an input export whose used name is non-empty, renamed to it; every such input export appears renamed; no export is added |
| `WasmGenerator.RenameExportsKeepsOrder` | lib/wasm/WebAssemblyGenerator.js:185-198 | renaming a concatenation of export lists renames each part and concatenates: survivors keep their order |
| `WasmGenerator.RewriteExportNames` | lib/wasm/WebAssemblyGenerator.js:185-198 | only the export section changes, and it becomes RenameExports of the old one |
| `WasmGenerator.RemoveStartFunc` | lib/wasm/WebAssemblyGenerator.js:42-48 | the result has no start section and agrees with the input everywhere else |
| `WasmGenerator.NewGlobalsFollowImportedGlobals` | lib/wasm/WebAssemblyGenerator.js:158-168 | the globals pushed during the traversal are one per global import, in the same order, each of that import's value type, mutable, initialised to i32.const 0 |
| `WasmGenerator.RewriteImportedGlobals` | lib/wasm/WebAssemblyGenerator.js:154-177 | no global import remains; the other imports keep their order; existing globals are kept and one new mutable, zero-initialised global per removed import is appended, in order and of the same value type; nothing else changes |
| `WasmGenerator.InternalisedGlobalIndex` | lib/wasm/WebAssemblyGenerator.js:141-153 | the replacement for the k-th imported global is at index |globals| + k, hence at index k when the module declares no globals |
| `WasmGenerator.ImportKeyIsAmbiguous` | lib/wasm/WebAssemblyGenerator.js:209-211 | two different imports can share a mangling key |
| `WasmGenerator.MangleImports` | lib/wasm/WebAssemblyGenerator.js:206-224 | every output import lives in the mangled namespace; it is an input import whose key is in the map, renamed to the map entry's name; every input import whose key is in the map appears so renamed; none is added |
| `WasmGenerator.MangleImportsKeepsOrder` | lib/wasm/WebAssemblyGenerator.js:206-224 | mangling a concatenation mangles each part: survivors keep their order |
| `WasmGenerator.RewriteImports` | lib/wasm/WebAssemblyGenerator.js:206-224 | only the import section changes, and it becomes MangleImports of the old one |
| `WasmGenerator.GetUsedDependencyMap` | lib/wasm/WebAssemblyGenerator.js:294-304 | the loop that sets one map entry per used dependency, in order, builds exactly UsedDependencyMapOf, the map in which a later entry overwrites an earlier one with the same key |
| `WasmGenerator.UsedDependencyMapKeys` | lib/wasm/WebAssemblyGenerator.js:297-302 | a key is in the map iff some used dependency has that `request:name` key |
| `WasmGenerator.UsedDependencyMapLastWins` | lib/wasm/WebAssemblyGenerator.js:297-302 | each key maps to the last used dependency that has it |
| `WasmGenerator.CopyGlobalsBody` | lib/wasm/WebAssemblyGenerator.js:255-263 | for K globals, 2K instructions: get_local i at position 2i and set_global i at position 2i+1 |
| `WasmGenerator.AddInitFunction` | lib/wasm/WebAssemblyGenerator.js:240-287 | appends one type entry (the globals' value types to no results), one func entry pointing at nextTypeIndex, one Func export named initFuncId at nextFuncIndex, and the function's code; imports, globals and start are unchanged |
| `WasmGenerator.InitParamsShape` | lib/wasm/WebAssemblyGenerator.js:248-253 | one parameter per imported global, in order, typed like that global |
| `WasmGenerator.InitBodyShape` | lib/wasm/WebAssemblyGenerator.js:255-267 | for K globals: get_local i at 2i and set_global i at 2i+1 for each i < K, then `call start` iff a start index exists; 2K or 2K+1 instructions; empty iff K = 0 and there is no start |
| `WasmGenerator.InitStateOf` | lib/wasm/WebAssemblyGenerator.js:323-328 | the init function's inputs, taken from the original module, list only global imports |
| `WasmGenerator.PipelineOrder` | lib/wasm/WebAssemblyGenerator.js:332-355 | the pipeline is export rename, start removal, global internalisation, import mangling, init function, in that order |
| `WasmGenerator.PipelineResult` | lib/wasm/WebAssemblyGenerator.js:307-357 | the result has no start section, no global import, every import in the mangled namespace, the internalised globals appended, and the init function's type, func, export and code entries appended last, with indices from the original module |
| `WasmGenerator.FuncImportsAfterRewrite` | lib/wasm/WebAssemblyGenerator.js:206-224 | the function imports left after the rewrite are as many as the function imports whose key is in the map |
| `WasmGenerator.InitExportIndexAfterPruning` | lib/wasm/WebAssemblyGenerator.js:325-327 | the init export's index is |funcs| plus the original number of function imports; it equals the init function's real index after the rewrite iff every function import is kept |
| `WasmGenerator.WorkedExampleSections` | lib/wasm/WebAssemblyGenerator.js:154-263 | in the worked example: the filters, the new global, the mangled import, the kept export, the init parameters and the copy body each have the stated value |
| `WasmGenerator.WorkedExample` | lib/wasm/WebAssemblyGenerator.js:307-357 | a module importing global env.base and function env.log, starting at function 2 and exporting run, becomes: no start; one import m.a; one mutable i32 global set to 0; exports run and init (index 3); init taking one i32, storing it into global 0 and calling function 2 |
| `WasmGenerator.Generate` | lib/wasm/WebAssemblyGenerator.js:307-358 | with the scans done by the loop methods and the map built by GetUsedDependencyMap, the result is exactly Pipeline applied to the original module with UsedDependencyMapOf(usedDependencies). Spelled out: no start section; the imports are MangleImports of the non-global imports, all in the mangled namespace under a name some used dependency gave; the exports are RenameExports of the old ones followed by the init export at the pre-rewrite function index; the globals, funcs, types and code of PipelineResult |

`GetStartFuncIndex` (lib/wasm/WebAssemblyGenerator.js:56-66) reads the module's optional
start index and is part of the `InitStateOf` and `Generate` rows. The init function's name,
`InitFuncId`, is `numberToIdentifier` of the number of used exports when they form a list,
else `"__webpack_init__"`; it is part of the `Generate` row.

## Left out

- Byte-level decoding and editing (`decode`, `edit`, `add`): the model works on the decoded
  record. Decode failures on malformed binaries are therefore not modelled.
- Where `add` places new entries: the model appends each at the end of its section. The
  toolkit's own placement is not part of this model.
- The `descr.id` / `descr.name` raw-to-number normalisation: indices are naturals from the
  start, so there is nothing to normalise.
- The export-usage query, `getUsedDependencies`, `numberToIdentifer` and the value of
  `MANGLED_MODULE`: WebAssemblyUtils is not part of this model. They are parameters.
- `RawSource`, the `Generator` and `Tapable` base classes, the parser's hooks and options,
  and `originalSource()`: plumbing. `addDependency` is modelled as appending to the module's
  dependency list.
- `funcSectionMetadata`: it is passed to `addInitFunction` but never used there.
- `GetStartFuncIndex`: the traversal keeps the last start node it meets. A module has at
  most one start section, so the model reads the optional start index.
- Parse: the traversal visits imports and exports in node order. Their effects go to two
  separate lists, so the model runs the import loop first, then the export loop.
- `isUsed`: in the source it may answer something other than a string or `false`. The
  model takes an optional name and applies JavaScript truthiness to it.
- MangleImports: does not claim that an import in the map appears exactly once. Duplicate
  imports, or imports sharing a key, each produce their own entry.
- Floating point: value types are only tags.
