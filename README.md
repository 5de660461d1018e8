# Workfile builder, Qt helper functions and the `map1` UV-set validator

A Dafny model of three parts of the pipeline toolkit, with proofs of what each promises.

**The settings-driven workfile builder** (`build_workfile.py`). It works in these steps:

- It looks up the build presets for the current task.
- It indexes the enabled loaders by name. A repeated name raises.
- It collects the last version's representations of the current folder and of its linked folders. The result is grouped folder → product → version.
- Per folder, it filters the build profiles to the valid ones.
- It assigns each product the first profile whose lower-cased product types contain the product's type, subject to the profile's name filters.
- It keeps the representations whose lower-cased names the profile lists.
- It orders the products by walking presets, then product types, then products whose `families` contain that type.
- It loads at most one container per product. Representation names are tried in priority order, and loaders in priority order within each name. The first load that does not raise wins.

The builder object is a class. Its `build_presets` field is extended in place every time a folder is loaded, because `+=` is applied to the list returned by `dict.get`. Its load calls are recorded in order in a `loadCalls` field. The database queries, `filter_profiles`, `re.match` and `load_container` are parameters, bundled in `WorkfileTypes.Backend`. The model is proved for whatever they answer.

**Pure helpers and a one-shot callback item** (`tools/utils/lib.py`):

- `html_escape` and its inverse, used to state the round trip;
- `format_version`;
- the check-state conversions between ints and Qt's enum;
- the folder icon-name and colour fallbacks;
- the `_Cache.icons` memo of `get_qta_icon_by_name_and_color`, as a class with a map field;
- `WrappedCallbackItem`, as a class whose `done`, `result` and `exception` fields change once.

**The Maya validator `ValidateMeshUVSetMap1`** (`validate_mesh_uv_set_map1.py`):

- `get_invalid`: a mesh is invalid when it has no UV sets, or when the set at index 0 is not named `map1`.
- `repair`: each invalid mesh is repaired in place. A clashing `map1` set is first renamed to the smallest free `map{i}` with `i >= 2`. Then the set at index 0 is renamed to `map1`. A mesh without sets gets one `map1` set.
- `process`: the validation error is raised exactly when the list of invalid meshes is non-empty.

Python dicts whose iteration order matters are `PyDict.Dict`: a key list in insertion order plus a map. Dicts used only for lookup are `map`.

Two consequences of the code are easy to miss:

- A product gets a profile only when it passes the name filters of the first profile that lists its type. A product that matches no profile is skipped, so it is possible that none of a folder's products is loaded (build_workfile.py:352-360, 373-405).
- The load order reads a product's `families` list (build_workfile.py:541-547), not the `family` used to pick its profile. A product whose type comes only from `family` is therefore never loaded.

## Model

| member | source | states |
|---|---|---|
| WorkfileBuild.BuilderProfiles | client/ayon_core/pipeline/workfile/build_workfile.py:253-260 | the profiles come from `workfile_builder` when it is set, otherwise from the legacy `workfile_build`, otherwise there are none |
| WorkfileBuild.GetBuildPresets | client/ayon_core/pipeline/workfile/build_workfile.py:229-275 | no profiles gives no presets; otherwise the result is `filter_profiles` applied to the profiles, the task's type and the task name |
| WorkfileBuild.LegacySettingsIgnored | client/ayon_core/pipeline/workfile/build_workfile.py:255-258 | when `workfile_builder` is set, the legacy settings do not change the presets |
| WorkfileBuild.Extended | client/ayon_core/pipeline/workfile/build_workfile.py:537-538 | extending `build_presets` in place appends the linked presets to `current_context` when that list exists, and otherwise leaves the presets unchanged |
| WorkfileBuild.ExtendedKeepsEntries | client/ayon_core/pipeline/workfile/build_workfile.py:537-561 | after an in-place extension, the ordered entries of a folder are the same as before |
| WorkfileBuild.LoadFolderExtended | client/ayon_core/pipeline/workfile/build_workfile.py:537-627 | one in-place extension does not change what a folder loads |
| WorkfileBuild.LoadFolderExtendedN | client/ayon_core/pipeline/workfile/build_workfile.py:537-627 | however many extensions came before, a folder's containers are those of the original presets |
| WorkfileBuild.FolderOfExtendedN | client/ayon_core/pipeline/workfile/build_workfile.py:408-627 | a folder's result and its load calls do not depend on how often the presets were extended |
| WorkfileBuild.LoadFoldersAllLoad | client/ayon_core/pipeline/workfile/build_workfile.py:218-224 | when no linked folder's load raises, the loop returns every folder's result in order, leaving out those that are `None` |
| WorkfileBuild.LoadFoldersFailsAt | client/ayon_core/pipeline/workfile/build_workfile.py:218-224 | when the folders before position `k` load and folder `k` raises, the loop raises folder `k`'s exception |
| WorkfileBuild.LoadPreparedAllLoad | client/ayon_core/pipeline/workfile/build_workfile.py:208-227 | when no load raises, the result lists each folder's result in load order (the current folder with the current-context profiles first, then the others in dict order with the linked profiles), leaving out the `None` results |
| WorkfileBuild.LoadPreparedFailsAt | client/ayon_core/pipeline/workfile/build_workfile.py:208-227 | when the folders before position `k` of the load order load and folder `k` raises, the build raises folder `k`'s exception |
| WorkfileBuild.LoadPreparedCurrentFirst | client/ayon_core/pipeline/workfile/build_workfile.py:208-216 | when the current folder yields a result, that result heads the returned list |
| WorkfileBuild.BuildSpec | client/ayon_core/pipeline/workfile/build_workfile.py:103-227 | returns nothing for a missing folder, no loaders, no presets, both preset lists blank, or no folders to process; a duplicated enabled loader name raises before any load |
| WorkfileBuild.WorkfileBuilder.LoadContainers | client/ayon_core/pipeline/workfile/build_workfile.py:505-629 | returns the containers of the entries ordered by the presets, records exactly the load calls made, and extends `build_presets` in place |
| WorkfileBuild.WorkfileBuilder.LoadContainersByAssetData | client/ayon_core/pipeline/workfile/build_workfile.py:408-503 | returns the folder's result and calls; `build_presets` changes only when loading gets as far as the load loop |
| WorkfileBuild.WorkfileBuilder.LoadLinkedFolder | client/ayon_core/pipeline/workfile/build_workfile.py:219-224 | a linked folder loads as with the unextended presets, and `build_presets` gains exactly one more extension iff the folder reaches `_load_containers` |
| WorkfileBuild.WorkfileBuilder.LoadLinked | client/ayon_core/pipeline/workfile/build_workfile.py:219-224 | the linked folders are loaded in order as `LoadFolders` specifies, with the calls recorded in the same order and `build_presets` extended once per folder that reaches `_load_containers`, up to the first exception |
| WorkfileBuild.WorkfileBuilder.LoadCollected | client/ayon_core/pipeline/workfile/build_workfile.py:206-224 | the current folder first, then the others, as `LoadPrepared` specifies; `build_presets` ends extended exactly as many times as folders reached `_load_containers` |
| WorkfileBuild.WorkfileBuilder.BuildWorkfile | client/ayon_core/pipeline/workfile/build_workfile.py:103-227 | the result and the recorded load calls are those of `BuildSpec`; `build_presets` is unchanged by an early return before the presets lookup, `None` when the task has no presets, and otherwise the task's presets extended once per folder that reached `_load_containers` |
| WorkfileProfiles.BuildLoaderIndex | client/ayon_core/pipeline/workfile/build_workfile.py:125-134 | the loop computes the loader index |
| WorkfileProfiles.LoaderIndexSpec | client/ayon_core/pipeline/workfile/build_workfile.py:125-134 | the index is built iff enabled loader names are distinct; otherwise the error names a loader that is enabled twice |
| WorkfileProfiles.LoaderIndexContents | client/ayon_core/pipeline/workfile/build_workfile.py:125-134 | a name is indexed iff an enabled loader has it; each entry is that enabled loader; disabled loaders are ignored |
| WorkfileProfiles.MapProductsByType | client/ayon_core/pipeline/workfile/build_workfile.py:51-62 | the loop builds the type → products dict |
| WorkfileProfiles.ProductsByTypeSpec | client/ayon_core/pipeline/workfile/build_workfile.py:51-62 | a type is a key iff some product has it; each key holds exactly the products of that type |
| WorkfileProfiles.GroupOfMembers | client/ayon_core/pipeline/workfile/build_workfile.py:53-61 | a product is in a type's group iff its type (`family`, else `families[0]`) is that type; products with neither are dropped |
| WorkfileProfiles.GroupOfAppend | client/ayon_core/pipeline/workfile/build_workfile.py:53-61 | grouping keeps input order: the group of a concatenation is the concatenation of the groups |
| WorkfileProfiles.FilterBuildProfiles | client/ayon_core/pipeline/workfile/build_workfile.py:300-350 | the loop computes the valid, prepared profiles |
| WorkfileProfiles.ValidProfilesMembers | client/ayon_core/pipeline/workfile/build_workfile.py:300-350 | kept profiles have loaders, at least one of them available, product types and representation names, and carry the lower-cased lists; every valid profile is kept |
| WorkfileProfiles.ValidProfilesAppend | client/ayon_core/pipeline/workfile/build_workfile.py:300-350 | filtering keeps profile order: it distributes over concatenation |
| WorkfileProfiles.FirstProfileSpec | client/ayon_core/pipeline/workfile/build_workfile.py:374-379 | the chosen profile is the first whose lowered types contain the lowered type; there is none iff no profile contains it |
| WorkfileProfiles.FindProfile | client/ayon_core/pipeline/workfile/build_workfile.py:376-379 | the scan returns the first containing profile |
| WorkfileProfiles.MatchesAnyFilter | client/ayon_core/pipeline/workfile/build_workfile.py:392-400 | true iff some name filter matches the product name |
| WorkfileProfiles.AssignProfile | client/ayon_core/pipeline/workfile/build_workfile.py:390-402 | the loop assigns the profile to the accepted products of one group |
| WorkfileProfiles.AssignGroupMember | client/ayon_core/pipeline/workfile/build_workfile.py:390-402 | a product of the group gets the profile iff it has no filters or matches one; a rejected product keeps its earlier entry |
| WorkfileProfiles.AssignGroupOther | client/ayon_core/pipeline/workfile/build_workfile.py:390-402 | products outside the group are untouched |
| WorkfileProfiles.PrepareProfileForProducts | client/ayon_core/pipeline/workfile/build_workfile.py:352-406 | the nested loops compute the profile of each product |
| WorkfileProfiles.ProfilesForTypesOwner | client/ayon_core/pipeline/workfile/build_workfile.py:374-405 | only products of the scanned groups get a profile |
| WorkfileProfiles.ProfilesForTypesMember | client/ayon_core/pipeline/workfile/build_workfile.py:374-405 | a product gets a profile iff the first profile for its type exists and accepts its name; a rejected product is never tried against a later profile |
| WorkfileProfiles.PrepareProfileForProductsSpec | client/ayon_core/pipeline/workfile/build_workfile.py:352-406 | exactly the eligible products get a profile, namely the first profile for their lowered type; every key is one of the products |
| WorkfileLoad.IndexProducts | client/ayon_core/pipeline/workfile/build_workfile.py:442-454 | the loop builds the three lookup dicts |
| WorkfileLoad.IndexOfSpec | client/ayon_core/pipeline/workfile/build_workfile.py:445-454 | products keep the input order; each product's version and that version's representations are indexed |
| WorkfileLoad.IndexedFolder | client/ayon_core/pipeline/workfile/build_workfile.py:445-454 | for collected folder data, the index returns each product's own representations |
| WorkfileLoad.IndexedDocs | client/ayon_core/pipeline/workfile/build_workfile.py:445-464 | the products handed to profile selection are the folder's products, in order, with distinct ids |
| WorkfileLoad.FilterRepres | client/ayon_core/pipeline/workfile/build_workfile.py:476-479 | the loop keeps the representations whose lowered name is listed |
| WorkfileLoad.ValidRepresMembers | client/ayon_core/pipeline/workfile/build_workfile.py:469-479 | a representation is kept iff its lower-cased name is in the profile's lowered names |
| WorkfileLoad.CollectValidRepres | client/ayon_core/pipeline/workfile/build_workfile.py:469-479 | the loop computes the valid representations per product |
| WorkfileLoad.FolderProfiles | client/ayon_core/pipeline/workfile/build_workfile.py:462-464 | a folder's product gets a profile iff it is eligible, and only the folder's products get one |
| WorkfileLoad.PrepareLoadSkips | client/ayon_core/pipeline/workfile/build_workfile.py:425-467 | the folder is skipped iff profiles or loaders are missing, no profile is valid, there are no products, or no product is eligible |
| WorkfileLoad.PrepareLoadSpec | client/ayon_core/pipeline/workfile/build_workfile.py:425-479 | the prepared input holds the folder's products, exactly the eligible products' profiles, and exactly the non-empty valid representation lists |
| WorkfileLoad.AppendIdsForType | client/ayon_core/pipeline/workfile/build_workfile.py:542-548 | the loop appends the ids of the products whose `families` contain the type |
| WorkfileLoad.AppendIdsForTypes | client/ayon_core/pipeline/workfile/build_workfile.py:541-548 | the loop appends those ids type by type |
| WorkfileLoad.OrderProductIds | client/ayon_core/pipeline/workfile/build_workfile.py:539-548 | the loop computes the product order |
| WorkfileLoad.IdsForTypeMembers | client/ayon_core/pipeline/workfile/build_workfile.py:542-548 | an id is listed iff the product's `families` contain the type |
| WorkfileLoad.IdsForTypesMembers | client/ayon_core/pipeline/workfile/build_workfile.py:541-548 | an id is listed iff the product's `families` contain one of the types |
| WorkfileLoad.OrderedProductIdsSuccess | client/ayon_core/pipeline/workfile/build_workfile.py:540-541 | ordering fails (`KeyError`) iff some preset lacks `product_types` |
| WorkfileLoad.OrderedProductIdsSpec | client/ayon_core/pipeline/workfile/build_workfile.py:537-548 | a product is ordered iff some preset wants it through `families`; products matching no preset type are never ordered |
| WorkfileLoad.OrderedProductIdsAppend | client/ayon_core/pipeline/workfile/build_workfile.py:537-548 | the order of concatenated presets is the concatenation of the orders |
| WorkfileLoad.OrderRepresentations | client/ayon_core/pipeline/workfile/build_workfile.py:552-561 | the nested loop computes the de-duplicated representation order |
| WorkfileLoad.RepresOrderedEntries | client/ayon_core/pipeline/workfile/build_workfile.py:552-561 | each entry is an ordered product with its own representations; no product and no representation list appears twice |
| WorkfileLoad.RepresOrderedComplete | client/ayon_core/pipeline/workfile/build_workfile.py:552-561 | every ordered product with valid representations is listed |
| WorkfileLoad.RepresOrderedRepeat | client/ayon_core/pipeline/workfile/build_workfile.py:552-561 | repeating already-ordered ids, as the in-place extension does, changes nothing |
| WorkfileLoad.OrderedEntriesSpec | client/ayon_core/pipeline/workfile/build_workfile.py:536-561 | ordering fails iff a preset lacks types; otherwise the entries are the valid representations of wanted products, each product at most once, and none is missed |
| WorkfileLoad.ByLowNameMembers | client/ayon_core/pipeline/workfile/build_workfile.py:573-575 | the lowered-name dict holds exactly the representations' lowered names |
| WorkfileLoad.ByLowNameLast | client/ayon_core/pipeline/workfile/build_workfile.py:573-575 | for a repeated lowered name, the last representation wins |
| WorkfileLoad.LoaderCandidatesMembers | client/ayon_core/pipeline/workfile/build_workfile.py:589-595 | the loaders tried for a representation are exactly the profile's loaders found in the index |
| WorkfileLoad.CandidatesMembers | client/ayon_core/pipeline/workfile/build_workfile.py:578-595 | the attempts pair a representation with a listed lowered name with an available loader, and nothing else |
| WorkfileLoad.TryLoadSpec | client/ayon_core/pipeline/workfile/build_workfile.py:577-603 | attempts follow candidate order; every attempt but the last raised; no container means every candidate raised; a container is the last attempt's result |
| WorkfileLoad.TryLoadStable | client/ayon_core/pipeline/workfile/build_workfile.py:582-591 | once a load succeeds, later candidates are never tried |
| WorkfileLoad.TryLoaders | client/ayon_core/pipeline/workfile/build_workfile.py:589-627 | the inner loop continues the attempt sequence over one representation's loaders; `is_loaded` is set iff a container was returned |
| WorkfileLoad.LoadProduct | client/ayon_core/pipeline/workfile/build_workfile.py:566-627 | one product's nested loops make exactly the attempts of `TryLoad` over its candidates |
| WorkfileLoad.FailureLogLevel | client/ayon_core/pipeline/workfile/build_workfile.py:605-616 | a failed load is logged at info level iff the loader was incompatible |
| WorkfileLoad.FailureLogLevelAsWritten | client/ayon_core/pipeline/workfile/build_workfile.py:606 | as written, every failure is logged at error level |
| WorkfileLoad.FailureLogLevelAsWrittenMisses | client/ayon_core/pipeline/workfile/build_workfile.py:606 | as written, the level is wrong exactly for an incompatible loader |
| WorkfileLoad.LoadOrdered | client/ayon_core/pipeline/workfile/build_workfile.py:566-629 | the load loop makes the attempts of `LoadEntries`, in entry order |
| WorkfileLoad.LoadEntriesContainers | client/ayon_core/pipeline/workfile/build_workfile.py:566-629 | at most one container per entry, each from its own product's load |
| WorkfileLoad.LoadEntriesContainersKept | client/ayon_core/pipeline/workfile/build_workfile.py:602 | every product's container is in the result |
| WorkfileLoad.LoadEntriesAttempts | client/ayon_core/pipeline/workfile/build_workfile.py:566-627 | every load call belongs to one entry's product |
| WorkfileCollect.ById | client/ayon_core/pipeline/workfile/build_workfile.py:671-691 | an id-keyed dict holds exactly the documents' ids, each mapped to a document with that id |
| WorkfileCollect.BuildLookups | client/ayon_core/pipeline/workfile/build_workfile.py:671-694 | every given folder is in the lookup, and each lookup maps an id to a document with that id |
| WorkfileCollect.AppendToProduct | client/ayon_core/pipeline/workfile/build_workfile.py:712-723 | a new product starts with its product doc, its version and the one representation; an existing one gets it appended; other products are unchanged |
| WorkfileCollect.AddRepreDoc | client/ayon_core/pipeline/workfile/build_workfile.py:696-723 | one iteration of the grouping loop |
| WorkfileCollect.GroupRepreDocs | client/ayon_core/pipeline/workfile/build_workfile.py:696-723 | the grouping loop |
| WorkfileCollect.CollectLastVersionRepres | client/ayon_core/pipeline/workfile/build_workfile.py:667-723 | an empty folder list gives `{}`; otherwise the queries and the grouping |
| WorkfileCollect.AddRepreFailure | client/ayon_core/pipeline/workfile/build_workfile.py:697-704 | an iteration fails iff a parent lookup misses, with that missing id as the error |
| WorkfileCollect.AddRepreFolder | client/ayon_core/pipeline/workfile/build_workfile.py:703-710 | a folder is in the output iff it was already there or the representation resolves to it; a new folder carries its folder document |
| WorkfileCollect.AddRepreProduct | client/ayon_core/pipeline/workfile/build_workfile.py:712-723 | one representation is appended under its own folder and product and nowhere else |
| WorkfileCollect.GroupRepresSuccess | client/ayon_core/pipeline/workfile/build_workfile.py:696-704 | grouping succeeds iff every representation's parent chain resolves |
| WorkfileCollect.GroupRepresFailure | client/ayon_core/pipeline/workfile/build_workfile.py:696-704 | a failure is the `KeyError` of the first representation that does not resolve |
| WorkfileCollect.GroupRepresFolder | client/ayon_core/pipeline/workfile/build_workfile.py:696-710 | a folder appears iff some representation resolves to it; folders without representations do not appear |
| WorkfileCollect.GroupRepresProduct | client/ayon_core/pipeline/workfile/build_workfile.py:712-723 | a product appears iff some representation resolves to it; it holds exactly those representations in query order, with its product and version documents |
| WorkfileCollect.RoutedToMembers | client/ayon_core/pipeline/workfile/build_workfile.py:696-723 | a product's list holds exactly the representations that resolve to it, so each is appended exactly once |
| WorkfileCollect.GroupedProductKeyed | client/ayon_core/pipeline/workfile/build_workfile.py:712-719 | each grouped product is keyed by its own id, and its version is a last version whose parent is that product |
| WorkfileCollect.GroupedFolderKeyed | client/ayon_core/pipeline/workfile/build_workfile.py:706-719 | each grouped folder is keyed by its own id, and so are its products |
| WorkfileCollect.CollectedFoldersKeyed | client/ayon_core/pipeline/workfile/build_workfile.py:631-725 | the collected output is a well-formed dict whose folders and products are keyed by their own ids |
| UtilsLib.EscapeChar | client/ayon_core/tools/utils/lib.py:60-70 | the escape of one character is non-empty and contains no markup character |
| UtilsLib.HtmlEscapeAppend | client/ayon_core/tools/utils/lib.py:60-70 | escaping distributes over concatenation |
| UtilsLib.HtmlEscapeOneChar | client/ayon_core/tools/utils/lib.py:63-70 | the five chained replacements map one character to its entity |
| UtilsLib.HtmlEscapeIsSinglePass | client/ayon_core/tools/utils/lib.py:63-70 | because `&` is replaced first, the chain equals escaping each character once; no entity is escaped again |
| UtilsLib.EscapeEachProperties | client/ayon_core/tools/utils/lib.py:60-70 | character-wise escaping never shortens, removes all markup characters, and leaves text without special characters unchanged |
| UtilsLib.HtmlEscapeRemovesMarkup | client/ayon_core/tools/utils/lib.py:60-70 | `html_escape` output contains no `<`, `>`, `"` or `'` and is at least as long as its input |
| UtilsLib.HtmlEscapePlainText | client/ayon_core/tools/utils/lib.py:60-70 | text without the five special characters is returned unchanged |
| UtilsLib.UnescapeEscapeEach | client/ayon_core/tools/utils/lib.py:63-70 | unescaping the character-wise escape gives back the text |
| UtilsLib.HtmlEscapeRoundTrip | client/ayon_core/tools/utils/lib.py:60-70 | `html_escape` is invertible: unescaping its output gives back the input |
| UtilsLib.ZeroPadReadsBack | client/ayon_core/tools/utils/lib.py:125 | zero padding reaches the width and keeps the digits' value |
| UtilsLib.FormatVersionNonNegative | client/ayon_core/tools/utils/lib.py:123-128 | for `n >= 0`, the digits are `n` zero-padded to at least 3 digits, and they read back as `n` |
| UtilsLib.FormatVersionNegative | client/ayon_core/tools/utils/lib.py:123-128 | for `n < 0`, the sign counts in the width: `-` and at least two digits reading back as `-n` |
| UtilsLib.CheckStateIntToEnumCases | client/ayon_core/tools/utils/lib.py:21-29 | non-ints pass through; `CHECKED_INT` → Checked, `UNCHECKED_INT` → Unchecked, any other int → PartiallyChecked |
| UtilsLib.CheckStateEnumToIntAsWritten | client/ayon_core/tools/utils/lib.py:32-39 | ints pass through; Checked gives 0, PartiallyChecked 1 and Unchecked 2 |
| UtilsLib.CheckStateAsWrittenRoundTripFails | client/ayon_core/tools/utils/lib.py:21-39 | as written, Checked converts to int and back as Unchecked, and Unchecked as Checked |
| UtilsLib.CheckStateEnumToInt | client/ayon_core/tools/utils/lib.py:32-39 | ints pass through; an enum gives `CHECKED_INT` iff it is Checked and `UNCHECKED_INT` iff it is Unchecked |
| UtilsLib.CheckStateRoundTrip | client/ayon_core/tools/utils/lib.py:21-39 | with Qt's values, enum → int → enum and int → enum → int are identities |
| UtilsLib.AssetIconName | client/ayon_core/tools/utils/lib.py:237-241 | the icon name is never empty |
| UtilsLib.AssetIconNameFallback | client/ayon_core/tools/utils/lib.py:237-260 | the doc's icon when set; otherwise `fa.folder` for a folder with children and `fa.folder-o` without |
| UtilsLib.AssetIconColor | client/ayon_core/tools/utils/lib.py:244-248 | the doc's colour when set, otherwise the default colour |
| UtilsLib.IconVariants | client/ayon_core/tools/utils/lib.py:209-212 | the plain name first, then one `prefix.name` per font prefix, in order |
| UtilsLib.FirstRenderedIsFirst | client/ayon_core/tools/utils/lib.py:214-222 | the icon is that of the first variant that renders; none iff no variant renders |
| UtilsLib.ResolveIcon | client/ayon_core/tools/utils/lib.py:214-222 | the loop returns the first rendered variant |
| UtilsLib.IconCache.constructor | client/ayon_core/tools/utils/lib.py:198-199 | the cache starts empty |
| UtilsLib.IconCache.GetQtaIconByNameAndColor | client/ayon_core/tools/utils/lib.py:202-234 | no icon and no cache change for an empty name or colour; a cached key returns the cached value unchanged; otherwise the first rendered variant is cached, misses included |
| UtilsLib.WrappedCallbackItem.constructor | client/ayon_core/tools/utils/lib.py:480-486 | a new item is not done, with neither result nor exception |
| UtilsLib.WrappedCallbackItem.Execute | client/ayon_core/tools/utils/lib.py:510-529 | afterwards the item is done; a return sets only the result, an exception only the exception; a second call changes nothing |
| ValidateMeshUvSetMap1.ZipLookupUpToSpec | client/ayon_core/hosts/maya/plugins/publish/validate_mesh_uv_set_map1.py:48-51 | a lookup in `dict(zip(indices, names))` gives the name paired with the key's last occurrence, and it is missing iff no zipped index equals the key |
| ValidateMeshUvSetMap1.IsInvalidRule | client/ayon_core/hosts/maya/plugins/publish/validate_mesh_uv_set_map1.py:41-53 | no indices or no names is invalid; otherwise the check fails (`KeyError`) iff no index is 0, and a mesh is valid iff the set at index 0 is `map1` |
| ValidateMeshUvSetMap1.InvalidMeshesSpec | client/ayon_core/hosts/maya/plugins/publish/validate_mesh_uv_set_map1.py:33-55 | fails iff some mesh's check fails; otherwise the list holds exactly the invalid meshes |
| ValidateMeshUvSetMap1.NoneInvalid | client/ayon_core/hosts/maya/plugins/publish/validate_mesh_uv_set_map1.py:33-55 | when every mesh is valid, the list is empty |
| ValidateMeshUvSetMap1.GetInvalid | client/ayon_core/hosts/maya/plugins/publish/validate_mesh_uv_set_map1.py:33-55 | the loop computes the list of invalid meshes |
| ValidateMeshUvSetMap1.LongMapNameIsFree | client/ayon_core/hosts/maya/plugins/publish/validate_mesh_uv_set_map1.py:89-95 | a `map{i}` longer than every existing name is free, so the search ends |
| ValidateMeshUvSetMap1.FreshMapName | client/ayon_core/hosts/maya/plugins/publish/validate_mesh_uv_set_map1.py:89-95 | returns `map{i}` for the smallest `i >= 2` not taken; it is fresh and differs from `map1` |
| ValidateMeshUvSetMap1.ClashNameUnique | client/ayon_core/hosts/maya/plugins/publish/validate_mesh_uv_set_map1.py:89-95 | the clash name is determined by the existing names: two names that are each the smallest free `map{i}` with `i >= 2` are equal |
| ValidateMeshUvSetMap1.UvMesh.Rename | client/ayon_core/hosts/maya/plugins/publish/validate_mesh_uv_set_map1.py:100-110 | renaming a set changes that name only and keeps the indices |
| ValidateMeshUvSetMap1.UvMesh.Create | client/ayon_core/hosts/maya/plugins/publish/validate_mesh_uv_set_map1.py:79 | a mesh without sets gets one set at index 0 with the given name |
| ValidateMeshUvSetMap1.RenamedTwiceNames | client/ayon_core/hosts/maya/plugins/publish/validate_mesh_uv_set_map1.py:84-110 | after both renames, index 0 is `map1`, the old `map1` has the fresh name, the rest are unchanged, and names stay distinct |
| ValidateMeshUvSetMap1.FreeMap1 | client/ayon_core/hosts/maya/plugins/publish/validate_mesh_uv_set_map1.py:84-103 | a `map1` set, if any, is renamed to the smallest free `map{i}` with `i >= 2`; nothing changes otherwise |
| ValidateMeshUvSetMap1.RenameDefaultToMap1 | client/ayon_core/hosts/maya/plugins/publish/validate_mesh_uv_set_map1.py:84-110 | the clash rename comes first; afterwards index 0 is `map1`, the old `map1` carries the fresh name, and other names are unchanged |
| ValidateMeshUvSetMap1.RepairMesh | client/ayon_core/hosts/maya/plugins/publish/validate_mesh_uv_set_map1.py:73-110 | a repaired mesh is valid; a mesh without sets gets exactly one `map1` set and no rename; otherwise the indices are kept, index 0 is `map1`, a former `map1` carries the smallest free `map{i}` (`i >= 2`), and every other set keeps its name |
| ValidateMeshUvSetMap1.RepairIfInvalid | client/ayon_core/hosts/maya/plugins/publish/validate_mesh_uv_set_map1.py:71-110 | a mesh ends valid; a valid mesh is untouched, and an invalid one ends with exactly the sets `RepairedFrom` describes |
| ValidateMeshUvSetMap1.Repair | client/ayon_core/hosts/maya/plugins/publish/validate_mesh_uv_set_map1.py:67-110 | if `get_invalid` raises, no mesh changes; otherwise every mesh ends valid, so a second `get_invalid` is empty, valid meshes are untouched, and each invalid mesh has its index-0 set renamed `map1`, a former `map1` renamed to the free clash name, and its other sets and indices kept |
| ValidateMeshUvSetMap1.Process | client/ayon_core/hosts/maya/plugins/publish/validate_mesh_uv_set_map1.py:57-65 | an inactive plugin passes; an active one raises exactly when the list of invalid meshes is non-empty, and propagates a failing check |

## Left out

- The database queries, project settings, context getters, loader discovery, `filter_profiles` and `load_container` are parameters (`WorkfileTypes.Backend`, the loader list, the host settings). Their own behaviour is not part of this model.
- `re.compile` and `re.match` are an abstract predicate on a pattern and a name. Invalid patterns are not modelled.
- All logging, `print` and `json.dumps` output is left out, including the load-failure message text chosen at build_workfile.py:618-627. Each recorded load call keeps the level its failure is logged at as written (`FailureLogLevelAsWritten`, always error).
- `str.lower` is modelled on ASCII letters only (`Text.LowerChar`). Unicode case mapping is not modelled.
- Python truthiness: a profile's `loaders`, `repre_names` and `product_name_filters`, and the settings' `profiles`, are read only for truthiness, so a key that is missing, `None` or an empty list is one case (an empty `seq`). Where the code indexes a key directly, missing stays apart from empty: a preset's `product_types` (build_workfile.py:541) and the presets' `current_context` and `linked_assets` (537-538) are `Option`s, with `None` for a missing key. A key that holds some other non-list value is not modelled.
- WorkfileProfiles.FilterBuildProfiles: `_filter_build_profiles` adds the lower-cased lists to each profile dict in place (build_workfile.py:341-346), so the caller's profiles change too. The model builds fresh `PreparedProfile` values and does not capture that aliasing.
- WorkfileLoad.TryLoaders: a `load_container` that raises a `BaseException` which is not an `Exception` (for example `KeyboardInterrupt`) escapes the `except Exception` at build_workfile.py:605 and aborts the build. The model's load outcome is a return or an `Exception`.
- WorkfileBuild.Extended: a `current_context` or `linked_assets` key that is present but `None` makes `+=` at build_workfile.py:537-538 raise `TypeError`. The model treats it as missing.
- WorkfileBuild.WorkfileBuilder.LoadContainers: requires `build_presets` to be set. Every caller sets it first; with `None`, the code would raise `AttributeError`.
- WorkfileBuild.WorkfileBuilder.LoadContainersByAssetData: requires folder data whose products are keyed by their own ids (`ProductsKeyed`). Collected output always is, as `WorkfileCollect.CollectedFoldersKeyed` proves. The code's early return for empty folder data is not modelled, because collected data is never empty.
- WorkfileLoad.OrderRepresentations: the inner scan over `repres_by_product_id` is modelled as a lookup of the ordered id, together with the "already listed" test. The scan's result is the same.
- Only the folder icon-name and colour helpers are modelled. `get_asset_icon_by_name`, `get_asset_icon`, `get_default_task_icon` and `get_task_icon` build Qt colour and icon objects and are not part of this model.
- `qtawesome` rendering is a function from variant and colour to an optional icon. A raised exception is `None`. The font prefixes are a parameter.
- The default entity colour (`get_default_entity_icon_color`) is a parameter.
- UtilsLib.CheckStateEnumToIntAsWritten: inputs that are neither an int nor a Qt check state are not modelled. The code maps them to 2.
- The integer values of Qt's check states (`Unchecked` 0, `PartiallyChecked` 1, `Checked` 2) are taken as the values of `UNCHECKED_INT` and `CHECKED_INT`. The constants module is not part of this model.
- `format_version` is modelled for integers only. Other values make the format call raise, which is not modelled.
- WrappedCallbackItem: the callback and its arguments are one value, namely what the call does:
  - it returns;
  - it raises an `Exception`;
  - it raises a `BaseException` that is not an `Exception`, which propagates after `finally` sets `done`.

  The class-level logger and the sentinel `not_set` are left out; `None` stands for "not set".
- `cmds.ls` gives the meshes of the instance. ValidateMeshUvSetMap1.Repair requires distinct mesh objects, since `cmds.ls` lists each mesh once.
- ValidateMeshUvSetMap1.UvMesh: a mesh's index and name lists have equal length, with distinct names and distinct indices. The lists passed to `get_invalid` are arbitrary.
- `polyUVSet(create=True)` is taken to succeed. The code notes it may fail silently on a mesh without geometry.
- `is_active` is a boolean parameter of `Process`.

## Findings

| source | as written | input that shows it | evidently intended | confidence | as-written member | corrected member |
|---|---|---|---|---|---|---|
| client/ayon_core/pipeline/workfile/build_workfile.py:606 | `exc == IncompatibleLoaderError` compares an exception instance with its class, which is never equal, so every failed load is logged at error level | a loader raising `IncompatibleLoaderError` | an incompatible loader is logged at info level (`isinstance`) | not executed | WorkfileLoad.FailureLogLevelAsWrittenMisses | WorkfileLoad.FailureLogLevel |
| client/ayon_core/tools/utils/lib.py:32-39 | with a Qt binding whose check states are not ints (with PyQt5 they are ints and pass through line 33), `checkstate_enum_to_int` maps Checked to 0 and anything else (Unchecked) to 2, the reverse of Qt's values that `checkstate_int_to_enum` reads | `Qt.Checked` converted to int and back gives `Qt.Unchecked` | Checked → `CHECKED_INT` (2), PartiallyChecked → 1, Unchecked → `UNCHECKED_INT` (0), so the two conversions are inverse | not executed | UtilsLib.CheckStateAsWrittenRoundTripFails | UtilsLib.CheckStateRoundTrip |
