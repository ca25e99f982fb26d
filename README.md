# flutter_gopher generator core, modelled in Dafny

flutter_gopher generates bindings between Go packages and Flutter (Dart)
over C FFI. This project models the core of that generator:

- **The type model** (`models.dfy`). It covers every Go type shape the
  generator understands: Basic, Ident, Pointer, Slice, Chan, Struct and Func,
  plus Field. For each shape it gives the C, cgo, Dart and display
  spellings, the `MapName` key used to deduplicate wrapper types, and
  `NeedMap`.
- **The basic-type registry** (`registry.dfy`): the seventeen primitive
  Go types and their spellings.
- **The source model builders.** They turn Go syntax trees into the type
  model. There are two revisions of them:
  - `ffi_parser.dfy`: the current `ffi_gen` revision. It rejects double
    pointers, empty structs and channels.
  - `bridge_parser.dfy`: the older `bridge_gen` revision. It accepts all
    three.

  Each revision also has its declaration handling and its function-result
  processing. Lemmas relate the two revisions: where they agree, and inputs
  on which they differ. The syntax trees themselves are in `goast.dfy`.
- **The generators' preparation steps.** These run before the templates.
  - `ffi_generator.dfy` (current revision): a deep, last-wins collection of
    slice and pointer types.
  - `bridge_generator.dfy` (older revision): result naming with the
    error-slot rule, and a shallow, first-wins collection of slice and
    pointer fields.
  - `bridge_generator.dfy` also derives the Dart class name and library
    name from the module name.
  - `gen_helpers.dfy` holds the helpers both revisions share: map-to-list,
    the `makeMap` template function, and the blank-line collapser.
- **Project naming** (`project_naming.dfy`): the names a new plugin derives
  from its given name, and the decision to adopt or write the `.timestamp`
  file.
- **The project-name validator** of the `create` command (`create.dfy`).

Supporting modules:

- `strcase.dfy`: ASCII stand-ins for the external case-conversion library.
- `strconv.dfy`: decimal formatting and `strconv.ParseInt`, including the
  value it returns on failure.
- `wrappers.dfy`: Option, Result and a byte type.

The parsers return `Result` values whose errors are tags, not localized
messages. Where the source mutates its parser or generator state, the model
is a class with the same fields:

- `GoSrcParser` has `typeNodes`, `funcNodes`, `structs` and `funcs`.
- `FfiGenerator` has `pkg`, `slices` and `ptrs`.
- `BridgeGenerator` has its naming fields and its wrapper lists.
- `ProjectNaming` has its names and `timestamp`.

Each method is proved against a specification function:

- `FfiReturnValues` and `BridgeReturnValues` for result processing.
- `Collected` and `Shallow` for the two collectors.
- `StructsOf` and `FuncsOf` for the parser's node processing.
- `ParseFields` for the field-list loop.

### Spellings as the code has them

- A pointer's key is `"Nullable"` followed by the inner key
  (models/pointer_type.go:35-37).
- Slice and channel keys are built from the element's Dart spelling
  (models/slice_type.go:42-47, models/chan_type.go:42-47). So `[]int32` and
  `[]int64` share the key `IntList`. The current collector keeps only the
  later of the two (`Registry.IntSlicesShareKey`,
  `FfiGenerator.LaterSliceReplaces`).
- `models/func_type.go` declares two fields, `ResultCount` and
  `DartErrorName`. The current parser also writes `HasErr`, `HasParams`,
  `HasResults` and `IsAnonymousResults`. `Models.FuncType` carries all six
  fields.
- Slice and channel types declare no `NeedMap`. In the model, `NeedMap` is
  defined only for the other shapes, and for fields whose type is one of
  them.

## Model

| member | source | states |
|---|---|---|
| ModelProperties.StringIsGoType | models/pointer_type.go:7-17 | For every type, the display string equals the Go spelling. |
| ModelProperties.MapNameIsAlnum | models/slice_type.go:42-47 | Every deduplication key contains only ASCII letters and digits, so it can be spliced into a generated identifier. |
| ModelProperties.IdentSpellings | models/ident_type.go:9-43 | String and GoType are the name. CType is "struct Fg"+ToCamel(name), GoCType is "C.Fg"+ToCamel(name), DartType and MapName are ToCamel(name), and DartCType is "_fg"+ToCamel(name). DartDefault is DartType+"()" and NeedMap is true. |
| ModelProperties.PointerSpellings | models/pointer_type.go:7-41 | String, GoType and GoCType put "*" in front of the inner spelling. CType puts "*" after the inner CType. DartType is inner+"?", DartCType is ffi.Pointer<inner>, and the key is "Nullable"+inner key. DartDefault is "null" and NeedMap is true, whatever the inner type. |
| ModelProperties.SliceSpellings | models/slice_type.go:9-47 | IsInnerPtr holds iff the element is a pointer. The C-side spellings are constants. The Go and Dart spellings wrap the element's, and DartDefault is "[]". The key is ToCamel(["Null"+] element DartType + "List"). |
| ModelProperties.ChanSpellings | models/chan_type.go:9-47 | Same as for slices, with "chan ", fg_chan and FgChan<..>. DartDefault is the Dart type followed by "()". The key is ToCamel(["Null"+] element DartType + "Chan"). |
| ModelProperties.CompositeKeyFollowsDartType | models/slice_type.go:42-47 | Two element types with the same Dart spelling and the same pointer-ness give the same slice key and the same channel key. |
| ModelProperties.StructSpellings | models/struct_type.go:10-44 | Every spelling delegates to the struct's Type, except CType, which is "fg_"+ToSnake(GoType). NeedMap is true. |
| ModelProperties.StructIgnoresFields | models/struct_type.go:5-44 | Two structs with the same Type have identical spellings, whatever their fields. |
| ModelProperties.FieldSpellings | models/field_type.go:30-76 | CName is ToSnake(name), GoName is name and DartName is ToLowerCamel(name). Every type-facing getter answers for the field's type, and so does NeedMap wherever the type has one. |
| ModelProperties.InnerMostStrips | models/field_type.go:10-28 | InnerMost is never a pointer, slice or channel. Peeling one layer does not change it. A field whose type has no such layer gets that type itself. |
| ModelProperties.FuncSpellings | models/func_type.go:13-56 | CType and GoCType are "fg_"+ToSnake(name). String and GoType are the name. DartType is ToLowerCamel(name) and DartCType is "_fg"+ToCamel(name). MapName is "", NeedMap is false and DartDefault is "null". |
| ModelProperties.DartResultTypeCases | models/func_type.go:41-48 | The Dart result type is the Results record's type for more than one result, the first result's type for exactly one, and "void" otherwise. |
| Registry.RegistryKeys | models/basic_type.go:5-29 | The registry has exactly the seventeen listed primitive names as keys. |
| Registry.RegistryGoTypeIsKey | models/basic_type.go:5-59 | Every entry's Go spelling is its key, so String and GoType return the lookup name, and MapName is ToCamel of it (lines 87-89). |
| Registry.RegistryNeedMap | models/basic_type.go:5-29 | An entry needs a conversion map iff it is "string" or "error". |
| Registry.ByteAndUint8 | models/basic_type.go:16-17 | "byte" and "uint8" share cType, goCType, dartCType and dartType, but differ in goType and kotlinType (Byte vs Int). |
| Registry.StringAndErrorShareWireForm | models/basic_type.go:8-9 | "string" and "error" share "void*", "unsafe.Pointer" and "ffi.Pointer<ffi.Void>". |
| Registry.IntSlicesShareKey | models/slice_type.go:42-47 | []int32 and []int64 share one slice key, although int32 and int64 have different keys. |
| FfiParser.ParseTypeExpr | ffi_gen/src_parser.go:309-427 | On success the type has the current parser's shape: no pointer directly inside a pointer, no channel, identifiers that are not primitive names or "any", non-empty structs with exported fields named by the given name, and fresh function records named by the given name. A pointer results iff the expression is a star. |
| FfiParser.ParseTypeExprAccepts | ffi_gen/src_parser.go:309-427 | The parser succeeds exactly on the accepted expressions. In both directions, those are: an identifier other than "any"; a star over an accepted non-star; an unsized array of an accepted element; a struct with at least one kept field, all accepted; a non-generic function with accepted lists. |
| FfiParser.ParseFields | ffi_gen/src_parser.go:430-473 | On success the list has one field per kept name: in struct mode embedded entries and unexported names keep none, elsewhere an unnamed entry keeps one. Every field has the current parser's shape, and no struct field is unexported. |
| FfiParser.ParseFieldsAccepts | ffi_gen/src_parser.go:430-473 | The field list parses iff every entry that keeps a name has an accepted type. |
| FfiParser.ParseFieldList | ffi_gen/src_parser.go:430-473 | The appending loop returns exactly ParseFields: fields in order, names sharing their entry's type, and the first failure. |
| FfiParser.ParsedSpelling | ffi_gen/src_parser.go:311-368 | A parsed type built from names, stars and unsized arrays spells itself in Go exactly as written. |
| FfiParser.ResultName | ffi_gen/src_parser.go:497-510 | Every result slot ends with a non-empty name: its own, "err" for an unnamed error-typed last slot, or "res<idx>". |
| FfiParser.ProcessFunctionReturnValues | ffi_gen/src_parser.go:483-524 | The renaming loop computes FfiReturnValues: slots named, the error slot detected and stripped, and the flags set. |
| FfiParser.ReturnValuesShape | ffi_gen/src_parser.go:493-523 | HasErr holds iff the last slot is error-typed and named "" or "err". ResultCount and the kept slots exclude exactly that slot, and every kept slot is named. HasResults and HasParams follow the counts. |
| FfiParser.NamedErrorIsAResult | ffi_gen/src_parser.go:499-507 | An error-typed last slot with another name is a plain result: no HasErr, and the full count. |
| FfiParser.NoResultsLeavesFlags | ffi_gen/src_parser.go:485-487 | A function with no results is returned unchanged, so HasParams stays unset. |
| FfiParser.ProcessingKeepsShape | ffi_gen/src_parser.go:271-306 | A parsed exported function, once processed, keeps its shape. Its count equals its kept slots and all of them are named. |
| FfiParser.GoSrcParser.HandleGenDecl | ffi_gen/src_parser.go:183-206 | An unknown token is an error. A single type spec is collected; other specs and tokens are ignored. |
| FfiParser.GoSrcParser.CollectNodes | ffi_gen/src_parser.go:158-180 | It succeeds iff no declaration is unexpected. It then appends the file's type specs and function declarations in order. |
| FfiParser.GoSrcParser.CollectDecl | ffi_gen/src_parser.go:160-176 | A general declaration goes to HandleGenDecl and a function declaration is kept. Any other declaration is an error. It fails iff the declaration is unexpected. |
| FfiParser.GoSrcParser.ProcessTypeNode | ffi_gen/src_parser.go:233-268 | Unexported names are skipped and generic types are rejected. A struct is appended; any other type is ExpectedStruct. |
| FfiParser.GoSrcParser.ProcessFunctionNode | ffi_gen/src_parser.go:271-306 | Methods and unexported names are skipped. A function's record is processed and appended. |
| FfiParser.GoSrcParser.ProcessNodes | ffi_gen/src_parser.go:209-230 | It processes all types, then all functions, appending in order and stopping at the first error. The parser invariant is preserved. |
| FfiParser.GoSrcParser.ProcessTypeNodes | ffi_gen/src_parser.go:216-220 | Every collected type spec is processed in order, and the loop stops at the first error. The structs appended are StructsOf the specs. |
| FfiParser.GoSrcParser.ProcessFunctionNodes | ffi_gen/src_parser.go:223-227 | Every collected function declaration is processed in order, and the loop stops at the first error. The functions appended are FuncsOf the declarations. |
| FfiParser.DeclsConcat | ffi_gen/src_parser.go:158-180 | Collecting two declaration lists one after the other collects their concatenation. |
| BridgeParser.ParseTypeExpr | bridge_gen/src_parser.go:243-337 | On success the type has the older parser's shape. A pointer results iff the expression is a star, a channel iff it is a channel. Structs and function records are named by the given name. |
| BridgeParser.ParseTypeExprAccepts | bridge_gen/src_parser.go:243-337 | The older parser succeeds exactly on its accepted expressions. Double pointers, empty structs and channels of any direction are included. |
| BridgeParser.ParseFields | bridge_gen/src_parser.go:340-375 | On success the list yields exactly `EntryCount` fields: one per kept name and one per embedded entry, in a struct as well. Every field has the older parser's shape, and in struct mode no field name is unexported. |
| BridgeParser.EmbeddedKeptAsEmptyName | bridge_gen/src_parser.go:347-360 | For every field list, an embedded entry at its head becomes one field named "" of its parsed type, in a struct as well, followed by the fields of the remaining entries. |
| BridgeParser.ParseFieldsAccepts | bridge_gen/src_parser.go:340-375 | The list parses iff every entry's type is accepted, including the types of unexported fields. |
| BridgeParser.ParsedSpelling | bridge_gen/src_parser.go:245-333 | A parsed reference type, channels included, spells itself in Go as written. |
| BridgeParser.RevisionsAgree | bridge_gen/src_parser.go:243-337 | Where struct literals hide no field, any expression the current parser accepts gets the same result from the older one. |
| BridgeParser.FieldsAgree | bridge_gen/src_parser.go:340-375 | The same, for field lists. |
| BridgeParser.DoublePointerDiffers | bridge_gen/src_parser.go:262-270 | `**Point` is rejected by the current parser and accepted as Pointer(Pointer(Point)) by the older one. |
| BridgeParser.EmptyStructDiffers | bridge_gen/src_parser.go:286-297 | A struct without fields is rejected by the current parser and accepted by the older one. |
| BridgeParser.ChannelDiffers | bridge_gen/src_parser.go:326-333 | A channel of any direction is rejected by the current parser and accepted as Chan by the older one. |
| BridgeParser.HiddenArrayDiffers | bridge_gen/src_parser.go:347-371 | A fixed-size array behind an unexported field is skipped by the current parser and rejected by the older one. |
| BridgeParser.EmbeddedFieldDiffers | bridge_gen/src_parser.go:353-360 | An embedded field is dropped by the current parser and kept under the name "" by the older one. |
| BridgeParser.GoSrcParser.HandleGenDecl | bridge_gen/src_parser.go:147-167 | A type declaration with a spec count other than 1, or a non-type spec, is an error. An unknown token is an error. |
| BridgeParser.GoSrcParser.ProcessTypeNode | bridge_gen/src_parser.go:191-211 | Every type spec, unexported ones included, must yield a struct, which is appended. |
| BridgeParser.GoSrcParser.ProcessFunctionNode | bridge_gen/src_parser.go:214-240 | Methods and unexported names are skipped. Function records are appended unprocessed. |
| BridgeParser.UnexportedTypesProcessed | bridge_gen/src_parser.go:191-211 | An unexported struct type is processed by the older parser and skipped by the current one. |
| GenHelpers.AllFieldsCovers | ffi_gen/generator.go:233-247 | Every field of every struct, and every parameter and result of every function, is among the walked fields. |
| GenHelpers.MapToSlice | ffi_gen/generator.go:206-212 | It returns the map's values, exactly one per key, with length equal to the map's size. |
| GenHelpers.CreateMapFromKeyValuePairs | ffi_gen/generator.go:259-270 | Argument i+1 is bound to key argument i for even i, and an unpaired last argument is dropped. The last value for a repeated key wins. A paired non-string key fails, and only that fails. |
| GenHelpers.BoundKeys | ffi_gen/generator.go:261-266 | The keys bound by the pairs before i are exactly the string arguments at even positions below i that have a value after them. |
| GenHelpers.BoundLast | ffi_gen/generator.go:261-266 | A key holds the value that follows its last binding. |
| GenHelpers.CollapseBound | bridge_gen/generator.go:295-298 | After collapsing, no three "\n" follow each other. A leading run of three or more breaks becomes exactly two "\n"; a shorter one keeps its leading "\n" count. |
| GenHelpers.ShortRunsUntouched | bridge_gen/generator.go:295-298 | Code with no run of three or more line breaks is unchanged. |
| GenHelpers.CollapseNotLonger | bridge_gen/generator.go:295-298 | Collapsing never lengthens the code. |
| GenHelpers.CollapseNotIdempotent | bridge_gen/generator.go:295-298 | "\n\r\r\n\n\n" collapses to "\n\r\n\n", which collapses again to "\n\n". |
| FfiGenerator.Reached | ffi_gen/generator.go:221-230 | The walk records a type iff it is a slice or a pointer, that type coming first. |
| FfiGenerator.ProcessTypes | ffi_gen/generator.go:221-230 | It stores every slice and pointer layer under its MapName, outermost first, each later store replacing the earlier one. |
| FfiGenerator.CollectSpecialTypes | ffi_gen/generator.go:215-249 | Struct fields, then each function's parameters and results, are walked in order. The maps equal Collected for the package. |
| FfiGenerator.RecordKeys | ffi_gen/generator.go:224-227 | A key is stored iff it was there before or is the MapName of a wanted type met. |
| FfiGenerator.RecordLastWins | ffi_gen/generator.go:224-227 | A key holds the last wanted type met with that MapName. |
| FfiGenerator.CollectedKeys | ffi_gen/generator.go:215-249 | The slice (pointer) keys are exactly the MapNames of slice (pointer) layers on the spine of any walked field's type. Every stored value is of its kind and sits under its own MapName. |
| FfiGenerator.StructSliceCollected | ffi_gen/generator.go:233-237 | The key of a slice-typed struct field is collected. |
| FfiGenerator.ChannelNotEntered | ffi_gen/generator.go:221-230 | A struct whose only field is a channel of slices contributes no slice type. |
| FfiGenerator.LaterSliceReplaces | ffi_gen/generator.go:224 | Of two slices sharing a key, only the later one is kept. |
| FfiGenerator.FfiGenerator.ProcessSpecialTypes | ffi_gen/generator.go:196-203 | The slices and pointers lists hold the collected values, one per key. |
| FfiGenerator.ListedTypesCover | ffi_gen/generator.go:196-203 | Listed types are of their kind and have pairwise distinct MapNames. Every slice (pointer) key met on a walked field has a listed representative. |
| BridgeGenerator.ProcessFunctionReturnValues | bridge_gen/generator.go:191-227 | The renaming loop computes BridgeReturnValues. |
| BridgeGenerator.BridgeReturnValuesShape | bridge_gen/generator.go:191-227 | No slot is removed, and every slot is named, keeping its own name when it has one. An error-typed last slot, whatever its name, gives ResultCount = len-1 and sets DartErrorName to its Dart name. Otherwise ResultCount = len and DartErrorName is "". Nothing else changes. |
| BridgeGenerator.ReturnValuesIdempotent | bridge_gen/generator.go:51-67 | Processing twice equals processing once. The Go generator and the Dart generator both process the same package's functions. |
| BridgeGenerator.ErrorSlotRevisionsAgree | bridge_gen/generator.go:213-226 | For a last slot that is error-typed and unnamed or named "err", both revisions give the same count and the same kept names. The older revision records "err" as the Dart error name. |
| BridgeGenerator.NamedErrorRevisionsDiffer | bridge_gen/generator.go:213-226 | For an error-typed last slot with another name, the current revision counts it as a result, while the older one counts it out and records its Dart name. |
| BridgeGenerator.ProcessFunctionTypes | bridge_gen/generator.go:179-188 | Every function is processed, in order. |
| BridgeGenerator.CollectSpecialTypes | bridge_gen/generator.go:261-291 | The maps equal Shallow: struct fields, then parameters and results, looking only at each field's own type, first field per key kept. |
| BridgeGenerator.FirstWinsKeys | bridge_gen/generator.go:264-277 | A key is stored iff it was there or is the MapName of a wanted field met. |
| BridgeGenerator.FirstWinsFirst | bridge_gen/generator.go:264-277 | A new key holds the first wanted field with that MapName. |
| BridgeGenerator.FirstWinsKeeps | bridge_gen/generator.go:267-276 | A stored entry is never replaced. |
| BridgeGenerator.ShallowMissesInnerSlice | bridge_gen/generator.go:264-277 | A field of type *[]T contributes no slice in the older revision. The current revision collects []T. |
| BridgeGenerator.BridgeGenerator.ProcessSliceAndPointerTypes | bridge_gen/generator.go:237-248 | The wrapper lists hold the shallow collection's values, one per key. Nothing else changes. |
| BridgeGenerator.BridgeGenerator.ProcessPackageData | bridge_gen/generator.go:155-169 | Structs are taken as they are and functions processed. The wrapper lists are built and PkgPath is copied. DartClassName is ToCamel(module). LibName is lower(ToLowerCamel(module)), which equals lower(DartClassName). |
| BridgeGenerator.ListedFieldsAreFirst | bridge_gen/generator.go:264-277 | The first walked field of a kind with a given MapName is the one listed. |
| BridgeGenerator.ListedFieldsSound | bridge_gen/generator.go:237-248 | Listed fields are of their kind, among the walked fields, and have pairwise distinct MapNames. |
| ProjectNamingModel.ProjectNaming.constructor | models/project_naming.go:23-36 | ProjectName is ToSnake(name) and PackageName is "com.flutter_gopher."+ProjectName. LibClassName is ToCamel(name), PluginClassName is LibClassName+"Plugin" and LibName is lower(LibClassName). Timestamp is the clock reading. |
| ProjectNamingModel.ProjectNaming.CreateTimestampFile | models/project_naming.go:39-55 | A non-empty file parsing to a positive int64 is adopted, and nothing is written. Otherwise Timestamp is kept and its decimal form is written. No other field changes. |
| ProjectNamingModel.StoredTimestamp | models/project_naming.go:42-48 | A stored value is adopted only from a non-empty file, and is positive. |
| ProjectNamingModel.WrittenTimestampIsAdopted | models/project_naming.go:42-54 | A positive timestamp, once written, is what the next run adopts. |
| ProjectNamingModel.NonPositiveTimestampNotAdopted | models/project_naming.go:46-54 | A timestamp at or below zero is written but never adopted. |
| ProjectNamingModel.NonNumericContentReplaced | models/project_naming.go:42-54 | Text starting with neither a digit nor a sign is replaced. |
| ProjectNamingModel.MyApiNaming | models/project_naming.go:15-19 | "my_api" gives "my_api", "com.flutter_gopher.my_api", "MyApiPlugin", "MyApi" and "myapi". |
| Create.ValidNameCharacterization | cmd/fgo/create.go:43-50 | The pattern accepts a name iff it is at least 2 long, starts with a letter, contains only letters, digits and '_', and ends with a letter or digit. |
| Create.ValidLowerNameIsOwnSnake | cmd/fgo/create.go:43-50 | A valid name without capitals is its own snake case. |
| Create.UsageExampleValid | cmd/fgo/create.go:30 | "my_ffi" is valid. |
| Create.RejectedNames | cmd/fgo/create.go:43-50 | "", "a", "my_", "1ab", "_ab" and "my-ffi" are rejected. |

## Left out

- Case conversion (`strcase.ToCamel`, `ToSnake`, `ToLowerCamel`) comes from an external library. It is replaced by ASCII stand-ins that follow the library's camel-case loop, with no acronym table and no trimming, and a simplified snake case. Properties are stated in terms of these stand-ins.
- Package loading, file walking and the ignore-list filter (`Parse`, `loadPackages`, `parsePackages`) depend on the Go toolchain's package loader. The parsers receive declarations directly.
- Template rendering and file output (`Generate`, `parseTemplate`, `writeToFile`, `GenerateFfiCode`, `GenerateBridgeCode`) are I/O, and so are the template paths chosen by `NewGoGenerator` and `NewDartGenerator`.
- `ParsePkgPath`, `findProjectRoot` and `parseProjectName` are directory walks over the file system.
- `plugin_gen` is left out: it scaffolds through the file system and external commands.
- The command-line front ends are left out, except `isValidProjectName`.
- Localized messages are left out. Errors are tags.
- The clock is a constructor parameter. The `.timestamp` file's contents are a parameter (a missing file reads as empty), and the bytes to write are a result. Write errors are not modelled.
- The older parser's `collectNodes` and `processNodes` are the same loops as the current parser's, which are modelled. Only the handlers that differ are modelled for the older revision.
- The older parser's channel direction is parsed and dropped; the model keeps only the element type.
- The unexported-name test uses ASCII lower-case letters. The source applies `unicode.IsLower` to the first byte of the name.
- The Kotlin spellings of the registry are carried but used by nothing modelled.
- In-place updates through shared pointers are modelled as values. `processFunctionReturnValues` renames result fields in place, and the older generators process the same package twice. `BridgeGenerator.ReturnValuesIdempotent` shows that the second pass changes nothing.
- `GoField.IsSlice` and `GoField.IsPtr`, which the older generator's collector calls (bridge_gen/generator.go:265,272), are not defined in models/field_type.go as it stands. The model reads them as "the field's own type is a slice" and "the field's own type is a pointer", without looking through inner layers. `BridgeGenerator.CollectSpecialTypes`, `Shallow`, `FirstWins` and `BridgeGenerator.ShallowMissesInnerSlice` rest on that reading.
- GenHelpers.MapToSlice: Go's map iteration order is unspecified. The model picks keys in an unspecified order and states only what holds for every order.
- GenHelpers.CreateMapFromKeyValuePairs: a non-string key panics in the source. The model returns None instead.
