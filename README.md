# cyclus core pieces, modelled in Dafny

This project models six small, self-contained pieces of the cyclus fuel-cycle
simulator and proves what each promises.

- **Builder registry and build decision** (`BuildingManagement`, from `building_manager.h`).
  - `BuildingManager` is a class whose `builders` set is changed in place by `Register` and `Unregister`.
  - The build decision is the integer program stated in the header: minimise Σ cᵢ·yᵢ subject to Σ φᵢ·yᵢ ≥ Φ, with every yᵢ a non-negative integer.
  - The program is solved by an exact reference solver (`Best`). It is proved feasible and optimal against that program.
  - `MakeBuildDecision` turns the optimal assignment into `BuildOrder`s.
- **BatchReactor bookkeeping** (`BatchReactors`). The reactor is a class.
  - Its waiting orders and fuel pairs are `Deque` objects held by reference, so the aliasing made by `copy` is real in the model.
  - It has the parameter setters and getters, `init()`, `copy`, `receiveMessage` (with its supplier check and exception), `addFuelPair`, `inCommod` and `outCommod`.
  - C++ `double` division by an `int` is modelled with its infinities and NaN.
- **Schema assembly of the XML file loader** (`XmlFileLoading`, with `Strings`).
  - `BuildSchema` is a loop over the module types in ascending order. For each type it runs an inner loop over the type's directory entries.
  - The file system is an input: for each type, the entries the directory iterator yields, each with the text read from it.
  - Reference extraction keeps the source's `size_t` arithmetic, including `npos + 14` wrapping to 13. It also keeps the `out_of_range` thrown by `substr`, which ends that type's scan because the `catch` is outside the loop.
  - Placeholders are replaced at their first occurrence only.
  - The module-path table is a `map` field. `load_dynamic_modules` inserts the empty path through `operator[]`.
- **Table-registry actions** (`Actions`, with `PyJson`).
  - `ensure_tables` normalises a str, a set, a sequence or anything else.
  - The in-memory backend's registry is a class field updated by union and difference.
  - The messages are built as exact strings: the `send_message` envelope, `json.dumps` with its default separators and `ensure_ascii` escaping, and `sorted` over sets of names.
- **`basic_hold_any`** (`HoldAny`). A holder is a class with a type-table field and an object field.
  - It has the constructors, `assign` from a holder or a value, `swap`, `reset`, `empty`, `type` and `cast<T>`.
  - It has the pointer and reference forms of `any_cast`, with `bad_any_cast` as an error result.

A `BuildOrder` is a datatype, so it holds exactly the number, builder and producer it was built with.

Each setter of the reactor has a `modifies` frame naming only its own field, so every other parameter is unchanged.

## Model

| member | source | states |
|---|---|---|
| BuildingManagement.BuildingManager.constructor | src/toolkit/building_manager.h:46 | the manager keeps the given agent (None for NULL) and starts with no builders |
| BuildingManagement.BuildingManager.Register | src/toolkit/building_manager.h:50 | the builder set becomes the old set plus the builder |
| BuildingManagement.BuildingManager.Unregister | src/toolkit/building_manager.h:54 | the builder set becomes the old set minus the builder, and nothing else is removed |
| BuildingManagement.BuildingManager.Builders | src/toolkit/building_manager.h:66-68 | returns the registered builder set |
| BuildingManagement.BuildingManager.Agent | src/toolkit/building_manager.h:70 | returns the agent given at construction |
| BuildingManagement.NewManagerIsEmpty | src/toolkit/building_manager.h:46-75 | a default-constructed manager has no agent and an empty builder set |
| BuildingManagement.RegisterIsIdempotent | src/toolkit/building_manager.h:50 | after registering b twice, b is a member and the set equals the old set plus b, as after one registration |
| BuildingManagement.UnregisterAbsentIsNoOp | src/toolkit/building_manager.h:54 | unregistering an absent builder leaves the set unchanged |
| BuildingManagement.RegisterThenUnregisterRestores | src/toolkit/building_manager.h:50-54 | registering a fresh builder and then unregistering it restores the original set |
| BuildingManagement.Best | src/toolkit/building_manager.h:32-43 | the reference solution assigns every producer a non-negative count whose total capacity meets the demand |
| BuildingManagement.BestFrom | src/toolkit/building_manager.h:32-43 | a branch exists exactly when some later producer has positive capacity; the cheapest branch is feasible and costs no more than any "one more unit of producer j" branch |
| BuildingManagement.Capacity | src/toolkit/building_manager.h:36 | defines the built capacity Σ φᵢ·yᵢ; IncAdds shows one more unit of producer i adds exactly φᵢ |
| BuildingManagement.Cost | src/toolkit/building_manager.h:35 | defines the build cost Σ cᵢ·yᵢ; IncAdds shows one more unit of producer i adds exactly cᵢ |
| BuildingManagement.Feasible | src/toolkit/building_manager.h:36-37 | defines a feasible assignment: one non-negative integer count per producer, with built capacity at least the demand |
| BuildingManagement.Optimal | src/toolkit/building_manager.h:34-38 | defines an optimal assignment: feasible, and no feasible assignment costs less |
| BuildingManagement.BestIsOptimal | src/toolkit/building_manager.h:34-38 | the reference solution is feasible and no feasible non-negative integer assignment costs less |
| BuildingManagement.BestBelow | src/toolkit/building_manager.h:34-38 | every feasible assignment costs at least as much as the reference solution |
| BuildingManagement.OrdersFor | src/toolkit/building_manager.h:17-23 | every producer i with a positive count y[i] gets the order (y[i], its builder, its producer); every order is of that form for some such i; there are at most as many orders as producers |
| BuildingManagement.MakeBuildDecision | src/toolkit/building_manager.h:56-64 | a non-positive or unmeetable demand gives no orders; otherwise the orders are those of an optimal solution of the integer program, each for a positive number |
| BuildingManagement.InfeasibleWithoutCapacity | src/toolkit/building_manager.h:34-43 | when no producer has positive capacity, no assignment meets a positive demand |
| BuildingManagement.FourUnitsCoverOneHundred | src/toolkit/building_manager.h:34-43 | demand 100 with one producer of capacity 30 gives exactly one order, for 4 units |
| BatchReactors.DivideByInt | src/Models/Facility/BatchReactor/BatchReactor.cpp:82 | a double divided by an int: the real quotient for a non-zero divisor; for a zero divisor +infinity for a positive value, -infinity for a negative one and NaN exactly for 0/0; an infinity stays infinite, with its sign flipped by a negative divisor; NaN propagates |
| BatchReactors.Deque.constructor | src/Models/Facility/BatchReactor/BatchReactor.cpp:28-29 | a new deque is empty |
| BatchReactors.Deque.PushFront | src/Models/Facility/BatchReactor/BatchReactor.cpp:108 | push_front: the element is first and the earlier items follow unchanged |
| BatchReactors.Deque.PushBack | src/Models/Facility/BatchReactor/BatchReactor.cpp:347-348 | push_back: the earlier items are kept and the element is last |
| BatchReactors.Deque.Front | src/Models/Facility/BatchReactor/BatchReactor.h:219 | front() of a non-empty deque is its first item |
| BatchReactors.BatchReactor.constructor | src/Models/Facility/BatchReactor/BatchReactor.h:39 | construction runs init(): fresh buffers and deques, both deques empty |
| BatchReactors.BatchReactor.Init | src/Models/Facility/BatchReactor/BatchReactor.cpp:24-30 | new buffers and new, empty order and fuel-pair deques are allocated |
| BatchReactors.BatchReactor.SetCycleLength | src/Models/Facility/BatchReactor/BatchReactor.h:138-143 | cycleLength() then returns the value set, and only that field changes |
| BatchReactors.BatchReactor.SetCoreLoading | src/Models/Facility/BatchReactor/BatchReactor.h:148-153 | coreLoading() then returns the value set, and only that field changes |
| BatchReactors.BatchReactor.SetNBatches | src/Models/Facility/BatchReactor/BatchReactor.h:158-163 | nBatches() then returns the value set, and only that field changes |
| BatchReactors.BatchReactor.SetBatchLoading | src/Models/Facility/BatchReactor/BatchReactor.h:168-173 | batchLoading() then returns the value set, and only that field changes |
| BatchReactors.BatchReactor.SetLifetime | src/Models/Facility/BatchReactor/BatchReactor.h:178-183 | lifetime() then returns the value set, and only that field changes |
| BatchReactors.BatchReactor.SetInRecipe | src/Models/Facility/BatchReactor/BatchReactor.h:188-193 | inRecipe() then returns the recipe set, and only that field changes |
| BatchReactors.BatchReactor.SetOutRecipe | src/Models/Facility/BatchReactor/BatchReactor.h:198-203 | outRecipe() then returns the recipe set, and only that field changes |
| BatchReactors.BatchReactor.CycleLength | src/Models/Facility/BatchReactor/BatchReactor.h:143 | cycleLength() is the cycle length field; its setter's contract reads it back |
| BatchReactors.BatchReactor.CoreLoading | src/Models/Facility/BatchReactor/BatchReactor.h:153 | coreLoading() is the core loading field; its setter's contract reads it back |
| BatchReactors.BatchReactor.NBatches | src/Models/Facility/BatchReactor/BatchReactor.h:163 | nBatches() is the batches-per-core field; its setter's contract reads it back |
| BatchReactors.BatchReactor.BatchLoading | src/Models/Facility/BatchReactor/BatchReactor.h:173 | batchLoading() is the batch loading field; its setter's contract reads it back |
| BatchReactors.BatchReactor.Lifetime | src/Models/Facility/BatchReactor/BatchReactor.h:183 | lifetime() is the lifetime field; its setter's contract reads it back |
| BatchReactors.BatchReactor.InRecipe | src/Models/Facility/BatchReactor/BatchReactor.h:193 | inRecipe() is the input recipe field; its setter's contract reads it back |
| BatchReactors.BatchReactor.OutRecipe | src/Models/Facility/BatchReactor/BatchReactor.h:203 | outRecipe() is the output recipe field; its setter's contract reads it back |
| BatchReactors.BatchReactor.Copy | src/Models/Facility/BatchReactor/BatchReactor.cpp:74-86 | cycle length, lifetime, core loading, batch count and recipes equal the source's; batch loading is core loading over batch count; the fuel-pair deque is the source's own object |
| BatchReactors.BatchReactor.ReceiveMessage | src/Models/Facility/BatchReactor/BatchReactor.cpp:104-114 | succeeds exactly when this reactor is the message's supplier, and then puts the message at the front with the rest of the queue unchanged; otherwise fails with "BatchReactor is not the supplier of this msg." and leaves the queue unchanged |
| BatchReactors.BatchReactor.AddFuelPair | src/Models/Facility/BatchReactor/BatchReactor.cpp:345-349 | the pair ((incommod, inFuel), (outcommod, outFuel)) is appended at the back, earlier pairs unchanged; inCommod and outCommod of a non-empty deque do not change |
| BatchReactors.BatchReactor.InCommod | src/Models/Facility/BatchReactor/BatchReactor.h:219 | the input commodity of the front fuel pair |
| BatchReactors.BatchReactor.OutCommod | src/Models/Facility/BatchReactor/BatchReactor.h:224 | the output commodity of the front fuel pair |
| BatchReactors.OrdersMostRecentFirst | src/Models/Facility/BatchReactor/BatchReactor.cpp:108 | after accepting m1 and then m2 the queue is [m2, m1] |
| BatchReactors.ForeignOrderRefused | src/Models/Facility/BatchReactor/BatchReactor.cpp:110-113 | a message supplied by another object fails and files nothing |
| BatchReactors.CopySharesFuelPairs | src/Models/Facility/BatchReactor/BatchReactor.cpp:85 | after copy, a pair added through the copy is visible from the source, which shares the same deque |
| BatchReactors.FrontPairFixesCommodities | src/Models/Facility/BatchReactor/BatchReactor.h:219-224 | with pairs [first, later], inCommod and outCommod are those of the first pair |
| BatchReactors.CopiedBatchLoading | src/Models/Facility/BatchReactor/BatchReactor.cpp:82 | the copied batch loading is core/n, +infinity for a positive core and no batches, and NaN for 0/0 |
| Strings.Find | src/Core/xml_file_loader.cc:72-73 | a found index lies at or after the start and leaves room for the pattern |
| Strings.FindIsFirst | src/Core/xml_file_loader.cc:72-73 | find returns an occurrence with none before it from the start position, and npos exactly when there is no occurrence at or after the start |
| Strings.ReplaceFirst | src/Core/xml_file_loader.cc:81-85 | without an occurrence the text is unchanged; otherwise the first occurrence is replaced and all other text, later occurrences included, is kept |
| XmlFileLoading.SizeAdd | src/Core/xml_file_loader.cc:72-73 | a size_t sum is (a + b) mod 2^64, so npos + 14 is 13 |
| XmlFileLoading.SizeSub | src/Core/xml_file_loader.cc:74 | a size_t difference is (a − b) mod 2^64 |
| XmlFileLoading.FindPos | src/Core/xml_file_loader.cc:72-73 | find as a size_t: the index of the first occurrence at or after the start when there is one, otherwise npos |
| XmlFileLoading.Substr | src/Core/xml_file_loader.cc:74 | substr throws out_of_range exactly when the position lies beyond the end; otherwise it is the text from the position, of length min(len, size − pos) |
| XmlFileLoading.ExtractRef | src/Core/xml_file_loader.cc:71-74 | the extraction throws out_of_range exactly for a text shorter than 13, which cannot hold the tag; ExtractDefinedName and ExtractWithoutTag give its value |
| XmlFileLoading.ExtractDefinedName | src/Core/xml_file_loader.cc:71-74 | for a text whose first `<define name="` is followed by a non-empty, quote-free X and a quote, the extracted ref is exactly X |
| XmlFileLoading.ExtractWithoutTag | src/Core/xml_file_loader.cc:71-74 | without the tag, the start wraps to 13: a text shorter than 13 throws out_of_range, a longer one yields the text from 13 up to the first quote from 14 |
| XmlFileLoading.Filename | src/Core/xml_file_loader.cc:65 | defines path::filename() as the text after the last '/' |
| XmlFileLoading.Extension | src/Core/xml_file_loader.cc:65 | defines path::extension() as the file name from its last '.', empty for "." and ".."; IsRngIffNameEndsInRng characterises the ".rng" case |
| XmlFileLoading.IsRngIffNameEndsInRng | src/Core/xml_file_loader.cc:65 | a path has the .rng extension exactly when its file name ends in ".rng" |
| XmlFileLoading.Classify | src/Core/xml_file_loader.cc:65-75 | an entry contributes exactly when its path has the .rng extension, and then with its path and its extracted ref |
| XmlFileLoading.Step | src/Core/xml_file_loader.cc:63-76 | defines one directory entry's step: a .rng entry appends its include line and then its ref line, or ends the scan when substr throws |
| XmlFileLoading.Fold | src/Core/xml_file_loader.cc:57-78 | defines the scan of classified entries in listing order, from an empty include list and a refs block holding one newline |
| XmlFileLoading.ScanFiles | src/Core/xml_file_loader.cc:57-78 | defines the scan of a listing as the fold of its classified entries; ScanIncludesEveryRng and ScanRefsEveryRng state its result |
| XmlFileLoading.AbortedScanStays | src/Core/xml_file_loader.cc:61-78 | once an exception ended a type's scan, later entries change neither its includes nor its refs |
| XmlFileLoading.OnlyRngFilesContribute | src/Core/xml_file_loader.cc:65 | scanning a listing gives what scanning only its .rng entries gives |
| XmlFileLoading.ScanIncludesEveryRng | src/Core/xml_file_loader.cc:62-77 | when every extraction succeeds, the scan is not aborted and writes one include line per .rng entry, in listing order |
| XmlFileLoading.RefLines | src/Core/xml_file_loader.cc:75 | defines the ref lines of a listing, one per entry whose name was extracted, in listing order |
| XmlFileLoading.ScanRefsEveryRng | src/Core/xml_file_loader.cc:57-75 | when every extraction succeeds, the refs block is a newline followed by one ref line per .rng entry, in listing order |
| XmlFileLoading.IncludeLine | src/Core/xml_file_loader.cc:66 | defines the include line `<include href='P'/>` followed by a newline for a path P |
| XmlFileLoading.RefLine | src/Core/xml_file_loader.cc:75 | defines the ref line `<ref name='N'/>` followed by a newline for a name N |
| XmlFileLoading.FilesOf | src/Core/xml_file_loader.cc:59-62 | defines a type's directory entries, an empty listing when the directory cannot be opened |
| XmlFileLoading.RefsBlock | src/Core/xml_file_loader.cc:57-78 | defines a type's refs block as the refs of the scan of its directory |
| XmlFileLoading.Placeholder | src/Core/xml_file_loader.cc:81 | defines the search string `@` + type + `_REFS@` |
| XmlFileLoading.ScanDirectory | src/Core/xml_file_loader.cc:57-78 | the inner loop's include lines and refs block are those of the scan function, a refs block being a newline and then one ref line per extracted name |
| XmlFileLoading.ApplyRefs | src/Core/xml_file_loader.cc:80-85 | defines the master text after each type, in order, replaced the first occurrence of its placeholder by its refs block |
| XmlFileLoading.AllIncludes | src/Core/xml_file_loader.cc:66 | defines the include lines of all types, in type order |
| XmlFileLoading.Schema | src/Core/xml_file_loader.cc:46-96 | defines the assembled schema: ApplyRefs, then the first @RNG_INCLUDES@ (the constant IncludesPlaceholder, cc:89) replaced by AllIncludes |
| XmlFileLoading.BuildSchema | src/Core/xml_file_loader.cc:46-96 | the result is the master text with each type's placeholder replaced by its refs block at its first occurrence, in ascending type order, and then the first @RNG_INCLUDES@ replaced by all include lines in type order |
| XmlFileLoading.MissingDirectory | src/Core/xml_file_loader.cc:57-78 | a type without a directory gets a refs block that is just a newline, and adds no include line |
| XmlFileLoading.XmlFileLoader.constructor | src/Core/xml_file_loader.cc:23-27 | the loader keeps the file name and its table is exactly the five module paths |
| XmlFileLoading.FiveAssignments | src/Core/xml_file_loader.cc:129-133 | the five operator[] assignments in source order give the old table overwritten by ModulePathTable, the constant holding the five module paths |
| XmlFileLoading.XmlFileLoader.InitializeModulePaths | src/Core/xml_file_loader.cc:128-134 | the table becomes the old one overwritten by the five module paths |
| XmlFileLoading.XmlFileLoader.LoadDynamicModules | src/Core/xml_file_loader.cc:149-155 | one load call per type, in order, with the type's path; a type missing from the table is inserted with the empty path; existing entries keep their paths |
| XmlFileLoading.FreshLoaderTable | src/Core/xml_file_loader.cc:128-134 | a new loader's table has exactly the keys Market, Converter, Region, Inst and Facility, with Inst at /*/region/institution |
| XmlFileLoading.UnknownTypeGetsEmptyPath | src/Core/xml_file_loader.cc:152-154 | loading a type absent from the table calls the loader with the empty path and adds that type to the table |
| PyJson.Quote | cyclus/actions.py:49 | defines json.dumps of a str: the escaped text between double quotes; DumpsStringDecodes shows it decodes back |
| PyJson.Dumps | cyclus/actions.py:49 | defines json.dumps with the default separators ", " and ": " for null, bools, ints, strs, lists and dicts |
| PyJson.EscapeChar | cyclus/actions.py:49 | a character is written as itself exactly when it is printable ASCII other than quote and backslash; otherwise as a longer escape |
| PyJson.Escape | cyclus/actions.py:49 | escaping never shortens a string |
| PyJson.EscapeIdentityIffPlain | cyclus/actions.py:49 | escaping leaves a string unchanged exactly when every character is plain |
| PyJson.EscapeIsAscii | cyclus/actions.py:49 | the escaped text is all printable ASCII |
| PyJson.UnescapeEscape | cyclus/actions.py:49 | decoding the escaped text gives back the original string, astral characters included |
| PyJson.DumpsStringDecodes | cyclus/actions.py:49 | json.dumps of a str is a quoted literal whose body decodes back to the str |
| Actions.WrongTypeMessage | cyclus/actions.py:91-92 | defines the ValueError text naming the argument's type as Python prints it |
| Actions.EnsureTables | cyclus/actions.py:80-93 | a set is returned as it is, a str as the one-name set, a sequence as the set of its elements; any other type is a ValueError naming the type |
| Actions.StringIsOneTable | cyclus/actions.py:84-87 | a str is one table name, not the set of its characters, unless it has exactly one character |
| Actions.EnsureTablesIdempotent | cyclus/actions.py:84-85 | the result fed back as a set comes back unchanged |
| Actions.SequenceOrderIrrelevant | cyclus/actions.py:88-89 | sequences with the same names give the same set, whatever the order or repetition |
| Actions.MemoryBackend.constructor | cyclus/actions.py:115 | the backend holds the given registry |
| Actions.MemoryBackend.RegisterTables | cyclus/actions.py:114-116 | the registry becomes old ∪ tables; a wrong-typed argument raises and leaves it unchanged |
| Actions.MemoryBackend.DeregisterTables | cyclus/actions.py:126-128 | the registry becomes old − tables; a wrong-typed argument raises and leaves it unchanged |
| Actions.RegisterTwiceIsOnce | cyclus/actions.py:114-116 | registering the same tables twice gives the registry that registering once gives |
| Actions.RegisterThenDeregister | cyclus/actions.py:116-128 | registering names that were absent and then deregistering them restores the registry |
| Actions.DeregisterAbsent | cyclus/actions.py:126-128 | deregistering names that are not registered changes nothing |
| Actions.WrongTypeRefused | cyclus/actions.py:90-92 | an argument of another type raises ValueError with the wrong-type message and leaves the registry unchanged |
| Actions.Sorted | cyclus/actions.py:98 | sorted() of a set lists each of its names exactly once, in strictly ascending order |
| Actions.AscendingListingIsSorted | cyclus/actions.py:98 | any strictly ascending listing of exactly a set's names is sorted() of it |
| Actions.Envelope | cyclus/actions.py:50-53 | defines the format string of send_message filled with the event, the params text and the data text |
| Actions.SendMessage | cyclus/actions.py:34-54 | defines the message put on the send queue: the envelope with the event, json.dumps of params and the data as it is |
| Actions.SendEvent | cyclus/actions.py:34 | defines a message with the defaults params None and data 'null' |
| Actions.RegistryMessage | cyclus/actions.py:96-100 | defines the registry message: event "registry", params null, the sorted registry dumped as the data |
| Actions.TableNamesMessage | cyclus/actions.py:132-137 | defines the table_names message: event "table_names", params null, the sorted table names dumped as the data |
| Actions.TableDataAsJson | cyclus/actions.py:140-147 | defines the table data text: the frame's JSON when the query found the table, otherwise the quoted sentence "<table> is not available." built without escaping |
| Actions.CondsJson | cyclus/actions.py:171 | defines the conds param: null for None, otherwise the JSON list of the condition strings |
| Actions.TableDataMessageDefault | cyclus/actions.py:151 | defines send_table_data's message with its defaults conds None and orient 'split' |
| Actions.EchoMessage | cyclus/actions.py:57-61 | defines echo's message: event "echo", params {"s": s}, data json.dumps(s) |
| Actions.TableDataMessage | cyclus/actions.py:150-172 | defines send_table_data's message: event "table_data", params table, conds and orient, data from table_data_as_json |
| Actions.EnvelopeIsCompactObject | cyclus/actions.py:49-53 | the send_message string is the compact JSON object {"event", "params", "data"} exactly when the event name needs no escaping |
| Actions.RegistryMessageIsCompactObject | cyclus/actions.py:96-100 | the registry message is the compact JSON object of event "registry", params null and the sorted registry as its data |
| Actions.RegistryMessageListsAscending | cyclus/actions.py:96-100 | the registry message equals the message for any strictly ascending listing of the registry |
| Actions.TableNamesMessageListsAscending | cyclus/actions.py:132-137 | the table_names message equals the message for any strictly ascending listing of the tables |
| Actions.FallbackIsJsonString | cyclus/actions.py:142-144 | the "<table> is not available." fallback is the JSON string of that sentence exactly when the table name needs no escaping |
| Actions.EchoMessageIsCompactObject | cyclus/actions.py:57-61 | echo's message is the compact JSON object of event "echo", params {"s": s} and json.dumps(s) |
| Actions.TableDataMessageIsCompactObject | cyclus/actions.py:150-172 | send_table_data's message is the compact JSON object of event "table_data", the table, conds and orient params, and the table data |
| HoldAny.Holder.constructor | src/any.hpp:213-217 | a default holder holds the empty type |
| HoldAny.Holder.FromValue | src/any.hpp:197-205 | constructed from x of a type T other than const char*, the holder has type T and value x; a const char* goes to FromCString |
| HoldAny.Holder.FromCString | src/any.hpp:207-211 | the intended result: a const char* argument is held with std::string's type and its characters as a std::string (assuming a std::string fits in the object word) |
| HoldAny.Holder.Copy | src/any.hpp:219-224 | the copy has the original's type and value |
| HoldAny.Holder.Assign | src/any.hpp:232-247 | assigning from a holder copies its type and value; self-assignment keeps the contents |
| HoldAny.Holder.AssignValue | src/any.hpp:249-293 | assigning a value of type T makes the type T and the value x, whatever was held before |
| HoldAny.Holder.Swap | src/any.hpp:296-301 | the two holders exchange their types and values |
| HoldAny.Holder.Type | src/any.hpp:303-306 | type() is the held type |
| HoldAny.Holder.Empty | src/any.hpp:331-334 | defines empty() as holding the table of the internal empty type |
| HoldAny.Holder.Reset | src/any.hpp:336-344 | afterwards the holder is empty; an empty holder is left as it was, a non-empty one drops its value |
| HoldAny.Holder.Cast | src/any.hpp:308-317 | cast<T> gives the value exactly when the held type is T, and otherwise bad_any_cast from the held type to T |
| HoldAny.AnyCastPtr | src/any.hpp:359-368 | the pointer any_cast gives the value exactly for a non-null operand holding a T, otherwise null |
| HoldAny.AnyCastRef | src/any.hpp:376-395 | the reference any_cast gives the held value exactly when the type is T, and otherwise throws bad_any_cast from the held type to T |
| HoldAny.AnyCastRefIsCast | src/any.hpp:376-395 | the reference any_cast agrees with cast<T> |
| HoldAny.PointerNullIffReferenceThrows | src/any.hpp:391-393 | the pointer form gives null exactly where the reference form throws bad_any_cast |
| HoldAny.NullOperandCastsToNull | src/any.hpp:362 | a null operand casts to null |
| HoldAny.DefaultIsEmpty | src/any.hpp:213-217 | a default holder is empty, casts only to the empty type, and any other cast throws |
| HoldAny.ConstructThenCast | src/any.hpp:197-205 | constructed from x of a type T other than const char*, the type is T, cast<T> gives x, and a cast to another type throws |
| HoldAny.CStringHeldAsString | src/any.hpp:207-211 | under the same assumption as FromCString, a holder built from a const char* casts to std::string and throws on a cast to const char* |
| HoldAny.AssignValueReplaces | src/any.hpp:249-280 | after assigning a value, the old type and value are gone |
| HoldAny.AssignCopies | src/any.hpp:232-247 | assignment from another holder copies it; self-assignment keeps it |
| HoldAny.CopyIsIndependent | src/any.hpp:219-224 | a copy is a separate holder: changing it leaves the original |
| HoldAny.ResetTwice | src/any.hpp:336-344 | reset leaves the holder empty, and a second reset changes nothing |
| HoldAny.SwapExchanges | src/any.hpp:296-301 | swap exchanges two holders' contents |
| HoldAny.SwapTwiceRestores | src/any.hpp:296-301 | swapping twice restores both holders, and swapping a holder with itself keeps it |

## Left out

- The CBC/OSI solver and the program translator behind `MakeBuildDecision` are not part of this model. The header states the integer program, and an exact reference solver stands for that solver. Which optimal solution the solver picks among ties is not modelled.
- `MakeBuildDecision` works from an explicit list of candidates (builder, producer, capacity, cost) instead of the commodity and the registered builders; the producer query is not part of this model.
- BuildingManagement.MakeBuildDecision: capacities and costs are non-negative integers and the demand is an integer, not a `double`. To keep the program exact, non-integer capacities and costs are not modelled.
- Reactor loadings: rounding is not modelled; the `Double` type has real values, infinities and NaN only.
- `BatchReactor::init(xmlNodePtr)`: it reads XML and parses with `strtod`/`strtol`, which is input handling. `print` is logging. `copyFreshModel` is a `dynamic_cast` wrapper around `copy`. The commented-out tick/tock code is dead. None of these is modelled.
- `FacilityModel::init` and `FacilityModel::copy`, called from the reactor, are not part of this model. Messages, isotopic vectors and material buffers are opaque, and a message is known only by its supplier.
- The XML loader's I/O is left out: `Init`, reading files into streams (and the `IOError`), the install path, directory recursion, schema validation and event recording. The directory listing and each file's text are inputs to `BuildSchema`.
- `load_recipes`, `load_modules_of_type` and `load_control_parameters` call into query engines and module constructors. `LoadDynamicModules` returns the (type, path) pairs it would pass to `load_modules_of_type`.
- XmlFileLoading.Extension: `path::extension()` is modelled as Boost.Filesystem v3 defines it, for '/'-separated paths: the file name after the last '/' from its last '.', empty for "." and "..". So a dot-file named exactly ".rng" counts as a schema file, which Boost.Filesystem v4 (extension "" for such names) would not do. Other separators and root names are not modelled.
- Characters are Dafny `char`s: the bytes read from a schema file (`std::string` of `char`) are taken as characters.
- cyclus/actions.py: the asynchronous machinery is left out: the send queue, tasks, the executor, `pause`, `unpause`, `sleep`, the `action` decorator and `print`. The messages are the strings that would be put on the queue.
- `register_tables` and `deregister_tables` use a global `STATE` and call `send_registry()` without its argument. The model takes the backend as the object and keeps the registry update only.
- `table_data_as_json`: the backend query and pandas `to_json` are not part of this model; `frame` is their result text, or None when the query found nothing.
- Actions.EnsureTables: a str is always a Python `str`, and sequences are sequences of names. A sequence whose elements are not strings, and a frozenset's type, are not modelled.
- PyJson: only the JSON values the actions send are modelled (None, bool, int, str, list, dict). Floats and `default_handler` are left out.
- PyJson: a Python `str` can hold lone surrogates (U+D800 to U+DFFF), which `json.dumps` writes as a single `\udXXX` escape. A Dafny `char` cannot hold them, so strings containing them are not modelled.
- HoldAny: memory handling is left out: small-versus-heap storage, placement new, the function-pointer tables, the type-name strings, destruction, the wide-character `whold_any`, streaming and the implicit-cast macro. A held value is a (type tag, datum) pair.
- HoldAny.Holder.FromCString: the model gives the constructor's intended result and assumes a std::string fits in the one-word `object` field. The source always builds the string there in place (src/any.hpp:207-211), but installs std::string's table, which treats it as heap-held whenever `sizeof(std::string) > sizeof(void*)` (src/any.hpp:167-185), as with current libstdc++ and libc++ strings. On such libraries the placement new overruns the holder and the later cast and delete are undefined behaviour; that is not modelled.
- HoldAny.AnyCastPtr: the source returns a pointer into the holder's storage (src/any.hpp:363-365), so writes through it change the held value. The model returns a copy of the datum, so that aliasing is not modelled.
- HoldAny.AnyCastPtr: the `const` overloads of `any_cast` (src/any.hpp:370-374 and 397-409) forward to the same functions and are not separate members.
