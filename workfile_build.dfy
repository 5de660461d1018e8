/**
 * The settings-driven workfile builder itself: the presets lookup, the
 * builder object whose `build_presets` the loading extends in place, and
 * `build_workfile`, which loads the current folder and then the linked
 * folders.
 */
module WorkfileBuild {
  import opened Wrappers
  import PyDict
  import opened WorkfileTypes
  import opened WorkfileProfiles
  import opened WorkfileCollect
  import opened WorkfileLoad

  // ---------------------------------------------------------------------
  // get_build_presets

  /** The task's type in the folder document, `None` when the task or its type is missing. */
  function TaskType(folder: FolderDoc, taskName: string): Option<string>
  {
    if taskName in folder.taskTypes then folder.taskTypes[taskName] else None
  }

  /**
   * The builder profiles of the host: those of `workfile_builder` when it
   * is set, even with no profiles, and only otherwise those of the older
   * `workfile_build`.
   */
  function BuilderProfiles(host: HostSettings): (r: seq<Presets>)
    ensures host.workfileBuilder.Some? ==> r == host.workfileBuilder.value.profiles
    ensures host.workfileBuilder.None? && host.workfileBuild.Some? ==> r == host.workfileBuild.value.profiles
    ensures host.workfileBuilder.None? && host.workfileBuild.None? ==> r == []
  {
    var wbSettings := if host.workfileBuilder.Some? then host.workfileBuilder else host.workfileBuild;
    if wbSettings.Some? then wbSettings.value.profiles else []
  }

  /**
   * `get_build_presets`: no presets without builder profiles; otherwise
   * whatever `filter_profiles` picks for the task name and the task's type.
   */
  function GetBuildPresets(host: HostSettings, taskName: string, folder: FolderDoc,
                           filterProfiles: (seq<Presets>, Option<string>, string) -> Option<Presets>): (r: Option<Presets>)
    ensures BuilderProfiles(host) == [] ==> r.None?
    ensures BuilderProfiles(host) != [] ==> r == filterProfiles(BuilderProfiles(host), TaskType(folder, taskName), taskName)
  {
    var builderProfiles := BuilderProfiles(host);
    if builderProfiles == [] then None
    else filterProfiles(builderProfiles, TaskType(folder, taskName), taskName)
  }

  /** Settings under the older key are ignored once `workfile_builder` is set. */
  lemma LegacySettingsIgnored(host: HostSettings, legacy: Option<WorkfileSettings>, taskName: string, folder: FolderDoc,
                              filterProfiles: (seq<Presets>, Option<string>, string) -> Option<Presets>)
    requires host.workfileBuilder.Some?
    ensures GetBuildPresets(host.(workfileBuild := legacy), taskName, folder, filterProfiles)
            == GetBuildPresets(host, taskName, folder, filterProfiles)
  {
  }

  // ---------------------------------------------------------------------
  // the presets _load_containers orders products by

  /** A missing profile list reads as empty. */
  function OrEmpty(profiles: Option<seq<BuildProfile>>): seq<BuildProfile>
  {
    if profiles.Some? then profiles.value else []
  }

  /** `get("current_context", []) + get("linked_assets", [])`: the presets the products are ordered by. */
  function OrderPresets(p: Presets): seq<BuildProfile>
  {
    OrEmpty(p.currentContext) + OrEmpty(p.linkedAssets)
  }

  /**
   * The presets after `+=` on the list `get` returned: the stored
   * `current_context` list grows by the linked presets when the key
   * exists; a missing key yields a fresh list and nothing is stored.
   */
  function Extended(p: Presets): (r: Presets)
    ensures r.linkedAssets == p.linkedAssets
    ensures r.currentContext.Some? <==> p.currentContext.Some?
    ensures p.currentContext.Some? ==> OrderPresets(r) == OrderPresets(p) + OrEmpty(p.linkedAssets)
    ensures p.currentContext.None? ==> r == p
  {
    if p.currentContext.Some? then p.(currentContext := Some(OrderPresets(p))) else p
  }

  /** The presets after `n` calls of `_load_containers`. */
  function ExtendedN(p: Presets, n: nat): Presets
  {
    if n == 0 then p else Extended(ExtendedN(p, n - 1))
  }

  /**
   * The in-place extension changes no folder's load order: the linked
   * presets it appends again only list products that are already ordered.
   */
  lemma {:induction false} ExtendedKeepsEntries(p: Presets, x: LoadInput)
    requires LoadInputValid(x)
    ensures OrderedEntries(OrderPresets(Extended(p)), x) == OrderedEntries(OrderPresets(p), x)
  {
    if p.currentContext.Some? {
      var cc := OrEmpty(p.currentContext);
      var la := OrEmpty(p.linkedAssets);
      var a := OrderPresets(p);
      assert OrderPresets(Extended(p)) == a + la;
      OrderedProductIdsSuccess(a, x.products);
      OrderedProductIdsSuccess(a + la, x.products);
      if OrderedProductIds(a, x.products).Failure? {
        var i :| 0 <= i < |a| && a[i].productTypes.None?;
        assert (a + la)[i] == a[i];
      } else {
        OrderedProductIdsSuccess(cc, x.products);
        OrderedProductIdsSuccess(la, x.products);
        assert forall i :: 0 <= i < |cc| ==> cc[i] == a[i];
        assert forall i :: 0 <= i < |la| ==> la[i] == a[|cc| + i];
        OrderedProductIdsAppend(cc, la, x.products);
        OrderedProductIdsAppend(a, la, x.products);
        var ids := OrderedProductIds(a, x.products).value;
        var extra := OrderedProductIds(la, x.products).value;
        assert forall id :: id in extra ==> id in ids;
        RepresOrderedRepeat(ids, extra, x.validRepres);
      }
    }
  }

  lemma ExtendedNSame(p: Presets, m: nat, n: nat)
    requires m == n
    ensures ExtendedN(p, m) == ExtendedN(p, n)
  {
  }

  lemma ExtendedNNext(p: Presets, m: nat, n: nat)
    requires n == m + 1
    ensures ExtendedN(p, n) == Extended(ExtendedN(p, m))
  {
  }

  lemma ExtendedNStep(p: Presets, n: nat)
    ensures ExtendedN(p, n + 1) == Extended(ExtendedN(p, n))
  {
  }

  /** So a folder loads the same after one extension. */
  lemma LoadFolderExtended(data: FolderData, buildProfiles: Option<seq<BuildProfile>>, q: Presets,
                           loadersByName: map<string, LoaderPlugin>, regexMatch: (string, string) -> bool,
                           load: (LoaderPlugin, Id, string) -> LoadOutcome)
    requires ProductsKeyed(data)
    ensures LoadFolder(data, buildProfiles, OrderPresets(Extended(q)), loadersByName, regexMatch, load)
            == LoadFolder(data, buildProfiles, OrderPresets(q), loadersByName, regexMatch, load)
  {
    var x := PrepareLoad(data, buildProfiles, loadersByName, regexMatch);
    if x.Some? {
      ExtendedKeepsEntries(q, x.value);
      assert LoadContainersOf(OrderPresets(Extended(q)), x.value, loadersByName, load)
             == LoadContainersOf(OrderPresets(q), x.value, loadersByName, load);
    }
  }

  /** ... and however often the presets were extended before. */
  lemma {:induction false} LoadFolderExtendedN(data: FolderData, buildProfiles: Option<seq<BuildProfile>>, p: Presets, n: nat,
                                               loadersByName: map<string, LoaderPlugin>, regexMatch: (string, string) -> bool,
                                               load: (LoaderPlugin, Id, string) -> LoadOutcome)
    requires ProductsKeyed(data)
    ensures LoadFolder(data, buildProfiles, OrderPresets(ExtendedN(p, n)), loadersByName, regexMatch, load)
            == LoadFolder(data, buildProfiles, OrderPresets(p), loadersByName, regexMatch, load)
  {
    if n > 0 {
      LoadFolderExtendedN(data, buildProfiles, p, n - 1, loadersByName, regexMatch, load);
      LoadFolderExtended(data, buildProfiles, ExtendedN(p, n - 1), loadersByName, regexMatch, load);
    }
  }

  // ---------------------------------------------------------------------
  // build_workfile

  /**
   * `loaded_containers` or the exception that escaped, the calls of
   * `load_container`, and how often `build_presets` was extended in place.
   */
  datatype BuildRun = BuildRun(result: Result<seq<LoadedFolder>, BuildError>, attempts: seq<Attempt>, extensions: nat)

  /** Nothing was built and nothing loaded. */
  function NothingBuilt(): BuildRun
  {
    BuildRun(Success([]), [], 0)
  }

  ghost predicate AllKeyed(datas: seq<FolderData>)
  {
    forall d :: d in datas ==> ProductsKeyed(d)
  }

  /** The values of the `Some`s in `xs`, in order: the list the loads build, without the `None`s. */
  function Somes<T(!new)>(xs: seq<Option<T>>): (r: seq<T>)
    ensures |r| <= |xs|
    ensures forall x :: x in r <==> Some(x) in xs
  {
    if xs == [] then []
    else
      var init := xs[..|xs| - 1];
      InitOrLast(xs);
      Somes(init) + (if xs[|xs| - 1].Some? then [xs[|xs| - 1].value] else [])
  }

  lemma {:induction false} SomesAppend<T(!new)>(a: seq<Option<T>>, b: seq<Option<T>>)
    ensures Somes(a + b) == Somes(a) + Somes(b)
    decreases |b|
  {
    if b == [] {
      assert a + b == a;
    } else {
      DropLastOfAppend(a, b);
      SomesAppend(a, b[..|b| - 1]);
    }
  }

  /**
   * `load_containers_by_asset_data` extends `build_presets` once when the
   * folder gets as far as `_load_containers`, whether or not that raises.
   */
  function Extension(data: FolderData, buildProfiles: Option<seq<BuildProfile>>,
                     loadersByName: map<string, LoaderPlugin>, regexMatch: (string, string) -> bool): nat
    requires ProductsKeyed(data)
  {
    if PrepareLoad(data, buildProfiles, loadersByName, regexMatch).Some? then 1 else 0
  }

  /** The loop over the linked folders' data: each folder's result unless it is `None`; an exception ends it. */
  function LoadFolders(datas: seq<FolderData>, buildProfiles: Option<seq<BuildProfile>>, orderPresets: seq<BuildProfile>,
                       loadersByName: map<string, LoaderPlugin>, regexMatch: (string, string) -> bool,
                       load: (LoaderPlugin, Id, string) -> LoadOutcome): BuildRun
    requires AllKeyed(datas)
  {
    if datas == [] then NothingBuilt()
    else
      var prev := LoadFolders(datas[..|datas| - 1], buildProfiles, orderPresets, loadersByName, regexMatch, load);
      var data := datas[|datas| - 1];
      var extensions := prev.extensions + Extension(data, buildProfiles, loadersByName, regexMatch);
      if prev.result.Failure? then prev
      else match FolderResultOf(data, buildProfiles, orderPresets, loadersByName, regexMatch, load)
        case Failure(e) => BuildRun(Failure(e), prev.attempts, extensions)
        case Success(folder) =>
          BuildRun(Success(prev.result.value + (if folder.Some? then [folder.value] else [])),
                   prev.attempts + FolderCallsOf(data, buildProfiles, orderPresets, loadersByName, regexMatch, load),
                   extensions)
  }

  /** One more folder after the first ones loaded without an exception. */
  lemma LoadFoldersStep(datas: seq<FolderData>, i: nat, buildProfiles: Option<seq<BuildProfile>>,
                        orderPresets: seq<BuildProfile>, loadersByName: map<string, LoaderPlugin>,
                        regexMatch: (string, string) -> bool, load: (LoaderPlugin, Id, string) -> LoadOutcome)
    requires AllKeyed(datas) && i < |datas|
    requires LoadFolders(datas[..i], buildProfiles, orderPresets, loadersByName, regexMatch, load).result.Success?
    ensures var prev := LoadFolders(datas[..i], buildProfiles, orderPresets, loadersByName, regexMatch, load);
            LoadFolders(datas[..i + 1], buildProfiles, orderPresets, loadersByName, regexMatch, load)
            == var extensions := prev.extensions + Extension(datas[i], buildProfiles, loadersByName, regexMatch);
               match FolderResultOf(datas[i], buildProfiles, orderPresets, loadersByName, regexMatch, load)
               case Failure(e) => BuildRun(Failure(e), prev.attempts, extensions)
               case Success(folder) =>
                 BuildRun(Success(prev.result.value + (if folder.Some? then [folder.value] else [])),
                          prev.attempts + FolderCallsOf(datas[i], buildProfiles, orderPresets, loadersByName, regexMatch, load),
                          extensions)
  {
    assert datas[..i + 1][..i] == datas[..i];
  }

  lemma {:induction false} LoadFoldersPrefixFailure(datas: seq<FolderData>, k: nat, buildProfiles: Option<seq<BuildProfile>>,
                                                    orderPresets: seq<BuildProfile>, loadersByName: map<string, LoaderPlugin>,
                                                    regexMatch: (string, string) -> bool, load: (LoaderPlugin, Id, string) -> LoadOutcome)
    requires AllKeyed(datas) && k <= |datas|
    requires LoadFolders(datas[..k], buildProfiles, orderPresets, loadersByName, regexMatch, load).result.Failure?
    ensures LoadFolders(datas, buildProfiles, orderPresets, loadersByName, regexMatch, load)
            == LoadFolders(datas[..k], buildProfiles, orderPresets, loadersByName, regexMatch, load)
    decreases |datas| - k
  {
    if k < |datas| {
      assert datas[..k + 1][..k] == datas[..k];
      LoadFoldersPrefixFailure(datas, k + 1, buildProfiles, orderPresets, loadersByName, regexMatch, load);
    } else {
      assert datas[..k] == datas;
    }
  }

  /** One more folder of the loop over the linked folders, on both of its outcomes. */
  lemma LoadLinkedStep(datas: seq<FolderData>, i: nat, buildProfiles: Option<seq<BuildProfile>>,
                       orderPresets: seq<BuildProfile>, loadersByName: map<string, LoaderPlugin>,
                       regexMatch: (string, string) -> bool, load: (LoaderPlugin, Id, string) -> LoadOutcome,
                       loaded: seq<LoadedFolder>, calls: seq<Attempt>, k: nat)
    requires AllKeyed(datas) && i < |datas|
    requires LoadFolders(datas[..i], buildProfiles, orderPresets, loadersByName, regexMatch, load)
             == BuildRun(Success(loaded), calls, k)
    ensures var r := FolderResultOf(datas[i], buildProfiles, orderPresets, loadersByName, regexMatch, load);
            var one := Extension(datas[i], buildProfiles, loadersByName, regexMatch);
            r.Failure? ==> FolderCallsOf(datas[i], buildProfiles, orderPresets, loadersByName, regexMatch, load) == [] &&
                           LoadFolders(datas, buildProfiles, orderPresets, loadersByName, regexMatch, load)
                           == BuildRun(Failure(r.error), calls, k + one)
    ensures var r := FolderResultOf(datas[i], buildProfiles, orderPresets, loadersByName, regexMatch, load);
            var one := Extension(datas[i], buildProfiles, loadersByName, regexMatch);
            r.Success? ==> LoadFolders(datas[..i + 1], buildProfiles, orderPresets, loadersByName, regexMatch, load)
                           == BuildRun(Success(loaded + (if r.value.Some? then [r.value.value] else [])),
                                       calls + FolderCallsOf(datas[i], buildProfiles, orderPresets, loadersByName, regexMatch, load),
                                       k + one)
  {
    LoadFoldersStep(datas, i, buildProfiles, orderPresets, loadersByName, regexMatch, load);
    if FolderResultOf(datas[i], buildProfiles, orderPresets, loadersByName, regexMatch, load).Failure? {
      LoadFoldersPrefixFailure(datas, i + 1, buildProfiles, orderPresets, loadersByName, regexMatch, load);
    }
  }

  /** The loop runs to its end when no folder's load raises. */
  lemma {:induction false} LoadFoldersSucceeds(datas: seq<FolderData>, buildProfiles: Option<seq<BuildProfile>>,
                                               orderPresets: seq<BuildProfile>, loadersByName: map<string, LoaderPlugin>,
                                               regexMatch: (string, string) -> bool, load: (LoaderPlugin, Id, string) -> LoadOutcome)
    requires AllKeyed(datas)
    requires forall i :: 0 <= i < |datas| ==>
               FolderResultOf(datas[i], buildProfiles, orderPresets, loadersByName, regexMatch, load).Success?
    ensures LoadFolders(datas, buildProfiles, orderPresets, loadersByName, regexMatch, load).result.Success?
  {
    if datas != [] {
      var n := |datas| - 1;
      var init := datas[..n];
      forall i | 0 <= i < n
        ensures FolderResultOf(init[i], buildProfiles, orderPresets, loadersByName, regexMatch, load).Success?
      {
        assert init[i] == datas[i];
      }
      LoadFoldersSucceeds(init, buildProfiles, orderPresets, loadersByName, regexMatch, load);
      LoadFoldersLast(datas, buildProfiles, orderPresets, loadersByName, regexMatch, load);
    }
  }

  lemma LoadFoldersLast(datas: seq<FolderData>, buildProfiles: Option<seq<BuildProfile>>,
                        orderPresets: seq<BuildProfile>, loadersByName: map<string, LoaderPlugin>,
                        regexMatch: (string, string) -> bool, load: (LoaderPlugin, Id, string) -> LoadOutcome)
    requires AllKeyed(datas) && datas != []
    ensures LoadFolders(datas, buildProfiles, orderPresets, loadersByName, regexMatch, load).result.Success?
            <==> LoadFolders(datas[..|datas| - 1], buildProfiles, orderPresets, loadersByName, regexMatch, load).result.Success?
                 && FolderResultOf(datas[|datas| - 1], buildProfiles, orderPresets, loadersByName, regexMatch, load).Success?
  {
  }

  /** When every folder loads, the result is each folder's `LoadedFolder`, in order, skipping the `None`s. */
  lemma {:induction false} LoadFoldersAllLoad(datas: seq<FolderData>, outs: seq<Option<LoadedFolder>>,
                                              buildProfiles: Option<seq<BuildProfile>>, orderPresets: seq<BuildProfile>,
                                              loadersByName: map<string, LoaderPlugin>, regexMatch: (string, string) -> bool,
                                              load: (LoaderPlugin, Id, string) -> LoadOutcome)
    requires AllKeyed(datas) && |outs| == |datas|
    requires forall i :: 0 <= i < |datas| ==>
               FolderResultOf(datas[i], buildProfiles, orderPresets, loadersByName, regexMatch, load) == Success(outs[i])
    ensures LoadFolders(datas, buildProfiles, orderPresets, loadersByName, regexMatch, load).result == Success(Somes(outs))
  {
    if datas != [] {
      var n := |datas| - 1;
      assert forall i :: 0 <= i < n ==> datas[..n][i] == datas[i] && outs[..n][i] == outs[i];
      LoadFoldersAllLoad(datas[..n], outs[..n], buildProfiles, orderPresets, loadersByName, regexMatch, load);
    }
  }

  /** When the folders before `k` load and folder `k` raises, the loop raises folder `k`'s exception. */
  lemma LoadFoldersFailsAt(datas: seq<FolderData>, k: nat, buildProfiles: Option<seq<BuildProfile>>,
                           orderPresets: seq<BuildProfile>, loadersByName: map<string, LoaderPlugin>,
                           regexMatch: (string, string) -> bool, load: (LoaderPlugin, Id, string) -> LoadOutcome)
    requires AllKeyed(datas) && k < |datas|
    requires forall j :: 0 <= j < k ==>
               FolderResultOf(datas[j], buildProfiles, orderPresets, loadersByName, regexMatch, load).Success?
    requires FolderResultOf(datas[k], buildProfiles, orderPresets, loadersByName, regexMatch, load).Failure?
    ensures LoadFolders(datas, buildProfiles, orderPresets, loadersByName, regexMatch, load).result
            == Failure(FolderResultOf(datas[k], buildProfiles, orderPresets, loadersByName, regexMatch, load).error)
  {
    assert forall j :: 0 <= j < k ==> datas[..k][j] == datas[j];
    LoadFoldersSucceeds(datas[..k], buildProfiles, orderPresets, loadersByName, regexMatch, load);
    LoadFoldersStep(datas, k, buildProfiles, orderPresets, loadersByName, regexMatch, load);
    LoadFoldersPrefixFailure(datas, k + 1, buildProfiles, orderPresets, loadersByName, regexMatch, load);
  }

  /** The current folder's result, calls and extensions, then the linked folders' run. */
  function Prepend(first: Option<LoadedFolder>, calls: seq<Attempt>, extensions: nat, rest: BuildRun): BuildRun
  {
    BuildRun(match rest.result
             case Failure(e) => Failure(e)
             case Success(folders) => Success((if first.Some? then [first.value] else []) + folders),
             calls + rest.attempts,
             extensions + rest.extensions)
  }

  /** A profile list that is missing or empty. */
  predicate Blank(profiles: Option<seq<BuildProfile>>)
  {
    profiles.None? || profiles.value == []
  }

  /** `asset_docs`: the current folder when there are current-context presets, then its links when there are linked presets. */
  function AssetDocs(folder: FolderDoc, presets: Presets, backend: Backend): seq<FolderDoc>
  {
    (if !Blank(presets.currentContext) then [folder] else [])
      + (if !Blank(presets.linkedAssets) then backend.linkedAssetsOf(folder) else [])
  }

  /** Every folder of a collected output is keyed. */
  lemma ValuesKeyed(prepared: PyDict.Dict<Id, FolderData>)
    requires PyDict.Valid(prepared)
    requires forall f :: f in prepared.items ==> ProductsKeyed(prepared.items[f])
    ensures AllKeyed(PyDict.Values(prepared))
  {
    forall d | d in PyDict.Values(prepared) ensures ProductsKeyed(d) {
      var i :| 0 <= i < |prepared.keys| && PyDict.Values(prepared)[i] == d;
    }
  }

  /** Whether the current folder was collected, so that it is popped and loaded first. */
  predicate HasCurrent(prepared: PyDict.Dict<Id, FolderData>, currentFolderId: Id)
  {
    currentFolderId != "" && currentFolderId in prepared.items
  }

  /** The loads after collecting: the current folder first when it has data, then the rest in dict order. */
  function LoadPrepared(prepared: PyDict.Dict<Id, FolderData>, currentFolderId: Id, presets: Presets,
                        loadersByName: map<string, LoaderPlugin>, backend: Backend): BuildRun
    requires PyDict.Valid(prepared)
    requires forall f :: f in prepared.items ==> ProductsKeyed(prepared.items[f])
  {
    var orderPresets := OrderPresets(presets);
    if HasCurrent(prepared, currentFolderId) then
      var rest := PyDict.Pop(prepared, currentFolderId);
      var current := prepared.items[currentFolderId];
      ValuesKeyed(rest);
      var extension := Extension(current, presets.currentContext, loadersByName, backend.regexMatch);
      match FolderResultOf(current, presets.currentContext, orderPresets, loadersByName, backend.regexMatch, backend.load)
      case Failure(e) => BuildRun(Failure(e), [], extension)
      case Success(first) =>
        Prepend(first, FolderCallsOf(current, presets.currentContext, orderPresets, loadersByName, backend.regexMatch, backend.load),
                extension,
                LoadFolders(PyDict.Values(rest), presets.linkedAssets, orderPresets,
                            loadersByName, backend.regexMatch, backend.load))
    else
      ValuesKeyed(prepared);
      LoadFolders(PyDict.Values(prepared), presets.linkedAssets, orderPresets, loadersByName, backend.regexMatch, backend.load)
  }

  /** The two ways `LoadPrepared` goes: with the current folder's data first, or with every folder linked. */
  lemma LoadPreparedCases(prepared: PyDict.Dict<Id, FolderData>, currentFolderId: Id, presets: Presets,
                          loadersByName: map<string, LoaderPlugin>, backend: Backend)
    requires PyDict.Valid(prepared)
    requires forall f :: f in prepared.items ==> ProductsKeyed(prepared.items[f])
    ensures HasCurrent(prepared, currentFolderId) ==>
              var current := prepared.items[currentFolderId];
              var rest := PyDict.Pop(prepared, currentFolderId);
              AllKeyed(PyDict.Values(rest))
              && LoadPrepared(prepared, currentFolderId, presets, loadersByName, backend)
                 == match FolderResultOf(current, presets.currentContext, OrderPresets(presets), loadersByName,
                                         backend.regexMatch, backend.load)
                    case Failure(e) => BuildRun(Failure(e), [], Extension(current, presets.currentContext, loadersByName,
                                                                           backend.regexMatch))
                    case Success(first) =>
                      Prepend(first, FolderCallsOf(current, presets.currentContext, OrderPresets(presets), loadersByName,
                                                   backend.regexMatch, backend.load),
                              Extension(current, presets.currentContext, loadersByName, backend.regexMatch),
                              LoadFolders(PyDict.Values(rest), presets.linkedAssets, OrderPresets(presets),
                                          loadersByName, backend.regexMatch, backend.load))
    ensures !HasCurrent(prepared, currentFolderId) ==>
              AllKeyed(PyDict.Values(prepared))
              && LoadPrepared(prepared, currentFolderId, presets, loadersByName, backend)
                 == LoadFolders(PyDict.Values(prepared), presets.linkedAssets, OrderPresets(presets),
                                loadersByName, backend.regexMatch, backend.load)
  {
    ValuesKeyed(prepared);
    if HasCurrent(prepared, currentFolderId) {
      ValuesKeyed(PyDict.Pop(prepared, currentFolderId));
    }
  }

  /** The collected folders in the order they are loaded: the current one first when collected, then the rest in dict order. */
  function LoadOrder(prepared: PyDict.Dict<Id, FolderData>, currentFolderId: Id): (fs: seq<FolderData>)
    requires PyDict.Valid(prepared)
    requires forall f :: f in prepared.items ==> ProductsKeyed(prepared.items[f])
    ensures AllKeyed(fs)
    ensures HasCurrent(prepared, currentFolderId) ==> |fs| > 0 && fs[0] == prepared.items[currentFolderId]
  {
    if HasCurrent(prepared, currentFolderId) then
      var rest := PyDict.Pop(prepared, currentFolderId);
      ValuesKeyed(rest);
      [prepared.items[currentFolderId]] + PyDict.Values(rest)
    else
      ValuesKeyed(prepared);
      PyDict.Values(prepared)
  }

  /** The profiles the `i`-th folder of that order is loaded with: `current_context` for the current folder, `linked_assets` for the others. */
  function ProfilesAt(prepared: PyDict.Dict<Id, FolderData>, currentFolderId: Id, presets: Presets, i: nat): Option<seq<BuildProfile>>
  {
    if HasCurrent(prepared, currentFolderId) && i == 0 then presets.currentContext else presets.linkedAssets
  }

  /** Prepending one optional value prepends its `Some`. */
  lemma SomesCons<T(!new)>(x: Option<T>, ys: seq<Option<T>>)
    ensures Somes([x] + ys) == (if x.Some? then [x.value] else []) + Somes(ys)
  {
    SomesAppend([x], ys);
    assert [x][..0] == [];
  }

  /** The current folder's outcome followed by the linked folders' outcomes. */
  lemma LoadPreparedCurrentThenLinked(prepared: PyDict.Dict<Id, FolderData>, currentFolderId: Id, presets: Presets,
                                      loadersByName: map<string, LoaderPlugin>, backend: Backend,
                                      out: Option<LoadedFolder>, outs: seq<Option<LoadedFolder>>)
    requires PyDict.Valid(prepared)
    requires forall f :: f in prepared.items ==> ProductsKeyed(prepared.items[f])
    requires HasCurrent(prepared, currentFolderId)
    requires FolderResultOf(prepared.items[currentFolderId], presets.currentContext, OrderPresets(presets), loadersByName,
                            backend.regexMatch, backend.load) == Success(out)
    requires AllKeyed(PyDict.Values(PyDict.Pop(prepared, currentFolderId)))
    requires LoadFolders(PyDict.Values(PyDict.Pop(prepared, currentFolderId)), presets.linkedAssets, OrderPresets(presets),
                         loadersByName, backend.regexMatch, backend.load).result == Success(Somes(outs))
    ensures LoadPrepared(prepared, currentFolderId, presets, loadersByName, backend).result == Success(Somes([out] + outs))
  {
    LoadPreparedCases(prepared, currentFolderId, presets, loadersByName, backend);
    SomesCons(out, outs);
  }

  /** With the current folder loaded first, the linked folders' outcomes shift by one. */
  lemma LinkedOutcomes(prepared: PyDict.Dict<Id, FolderData>, currentFolderId: Id, presets: Presets,
                       loadersByName: map<string, LoaderPlugin>, backend: Backend, outs: seq<Option<LoadedFolder>>)
    requires PyDict.Valid(prepared)
    requires forall f :: f in prepared.items ==> ProductsKeyed(prepared.items[f])
    requires HasCurrent(prepared, currentFolderId)
    requires |outs| == |LoadOrder(prepared, currentFolderId)|
    requires forall i :: 0 <= i < |outs| ==>
               FolderResultOf(LoadOrder(prepared, currentFolderId)[i], ProfilesAt(prepared, currentFolderId, presets, i),
                              OrderPresets(presets), loadersByName, backend.regexMatch, backend.load) == Success(outs[i])
    ensures var linked := PyDict.Values(PyDict.Pop(prepared, currentFolderId));
            AllKeyed(linked) && |outs| == |linked| + 1
            && (forall i :: 0 <= i < |linked| ==>
                  FolderResultOf(linked[i], presets.linkedAssets, OrderPresets(presets), loadersByName,
                                 backend.regexMatch, backend.load) == Success(outs[1..][i]))
            && FolderResultOf(prepared.items[currentFolderId], presets.currentContext, OrderPresets(presets), loadersByName,
                              backend.regexMatch, backend.load) == Success(outs[0])
  {
    var fs := LoadOrder(prepared, currentFolderId);
    var linked := PyDict.Values(PyDict.Pop(prepared, currentFolderId));
    assert fs == [prepared.items[currentFolderId]] + linked;
    forall i | 0 <= i < |linked|
      ensures FolderResultOf(linked[i], presets.linkedAssets, OrderPresets(presets), loadersByName,
                             backend.regexMatch, backend.load) == Success(outs[1..][i])
    {
      assert fs[i + 1] == linked[i];
      assert ProfilesAt(prepared, currentFolderId, presets, i + 1) == presets.linkedAssets;
    }
    assert ProfilesAt(prepared, currentFolderId, presets, 0) == presets.currentContext;
  }

  /**
   * When every folder loads, `build_workfile` returns each folder's
   * `LoadedFolder` in the load order, leaving out the folders that return `None`.
   */
  lemma LoadPreparedAllLoad(prepared: PyDict.Dict<Id, FolderData>, currentFolderId: Id, presets: Presets,
                            loadersByName: map<string, LoaderPlugin>, backend: Backend, outs: seq<Option<LoadedFolder>>)
    requires PyDict.Valid(prepared)
    requires forall f :: f in prepared.items ==> ProductsKeyed(prepared.items[f])
    requires |outs| == |LoadOrder(prepared, currentFolderId)|
    requires forall i :: 0 <= i < |outs| ==>
               FolderResultOf(LoadOrder(prepared, currentFolderId)[i], ProfilesAt(prepared, currentFolderId, presets, i),
                              OrderPresets(presets), loadersByName, backend.regexMatch, backend.load) == Success(outs[i])
    ensures LoadPrepared(prepared, currentFolderId, presets, loadersByName, backend).result == Success(Somes(outs))
  {
    if HasCurrent(prepared, currentFolderId) {
      LoadPreparedAllCurrentLoad(prepared, currentFolderId, presets, loadersByName, backend, outs);
      assert [outs[0]] + outs[1..] == outs;
    } else {
      LoadPreparedAllLinkedLoad(prepared, currentFolderId, presets, loadersByName, backend, outs);
    }
  }

  /** With the current folder, its outcome comes first and the linked folders' follow. */
  lemma LoadPreparedAllCurrentLoad(prepared: PyDict.Dict<Id, FolderData>, currentFolderId: Id, presets: Presets,
                                   loadersByName: map<string, LoaderPlugin>, backend: Backend, outs: seq<Option<LoadedFolder>>)
    requires PyDict.Valid(prepared)
    requires forall f :: f in prepared.items ==> ProductsKeyed(prepared.items[f])
    requires HasCurrent(prepared, currentFolderId)
    requires |outs| == |LoadOrder(prepared, currentFolderId)|
    requires forall i :: 0 <= i < |outs| ==>
               FolderResultOf(LoadOrder(prepared, currentFolderId)[i], ProfilesAt(prepared, currentFolderId, presets, i),
                              OrderPresets(presets), loadersByName, backend.regexMatch, backend.load) == Success(outs[i])
    ensures |outs| > 0
    ensures LoadPrepared(prepared, currentFolderId, presets, loadersByName, backend).result == Success(Somes([outs[0]] + outs[1..]))
  {
    var linked := PyDict.Values(PyDict.Pop(prepared, currentFolderId));
    LinkedOutcomes(prepared, currentFolderId, presets, loadersByName, backend, outs);
    LoadFoldersAllLoad(linked, outs[1..], presets.linkedAssets, OrderPresets(presets), loadersByName,
                       backend.regexMatch, backend.load);
    LoadPreparedCurrentThenLinked(prepared, currentFolderId, presets, loadersByName, backend, outs[0], outs[1..]);
  }

  /** Without the current folder every folder is a linked one. */
  lemma LoadPreparedAllLinkedLoad(prepared: PyDict.Dict<Id, FolderData>, currentFolderId: Id, presets: Presets,
                                  loadersByName: map<string, LoaderPlugin>, backend: Backend, outs: seq<Option<LoadedFolder>>)
    requires PyDict.Valid(prepared)
    requires forall f :: f in prepared.items ==> ProductsKeyed(prepared.items[f])
    requires !HasCurrent(prepared, currentFolderId)
    requires |outs| == |LoadOrder(prepared, currentFolderId)|
    requires forall i :: 0 <= i < |outs| ==>
               FolderResultOf(LoadOrder(prepared, currentFolderId)[i], ProfilesAt(prepared, currentFolderId, presets, i),
                              OrderPresets(presets), loadersByName, backend.regexMatch, backend.load) == Success(outs[i])
    ensures LoadPrepared(prepared, currentFolderId, presets, loadersByName, backend).result == Success(Somes(outs))
  {
    var fs := LoadOrder(prepared, currentFolderId);
    forall i | 0 <= i < |fs|
      ensures FolderResultOf(fs[i], presets.linkedAssets, OrderPresets(presets), loadersByName,
                             backend.regexMatch, backend.load) == Success(outs[i])
    {
      assert ProfilesAt(prepared, currentFolderId, presets, i) == presets.linkedAssets;
    }
    LoadFoldersAllLoad(fs, outs, presets.linkedAssets, OrderPresets(presets), loadersByName,
                       backend.regexMatch, backend.load);
    LoadPreparedCases(prepared, currentFolderId, presets, loadersByName, backend);
  }

  /** With the current folder loaded first, a linked folder's failure at position `k` is at `k - 1` among the linked folders. */
  lemma LinkedFailure(prepared: PyDict.Dict<Id, FolderData>, currentFolderId: Id, presets: Presets,
                      loadersByName: map<string, LoaderPlugin>, backend: Backend, k: nat)
    requires PyDict.Valid(prepared)
    requires forall f :: f in prepared.items ==> ProductsKeyed(prepared.items[f])
    requires HasCurrent(prepared, currentFolderId)
    requires 0 < k < |LoadOrder(prepared, currentFolderId)|
    requires forall j :: 0 <= j < k ==>
               FolderResultOf(LoadOrder(prepared, currentFolderId)[j], ProfilesAt(prepared, currentFolderId, presets, j),
                              OrderPresets(presets), loadersByName, backend.regexMatch, backend.load).Success?
    ensures var linked := PyDict.Values(PyDict.Pop(prepared, currentFolderId));
            AllKeyed(linked) && k - 1 < |linked|
            && LoadOrder(prepared, currentFolderId)[k] == linked[k - 1]
            && ProfilesAt(prepared, currentFolderId, presets, k) == presets.linkedAssets
            && (forall j :: 0 <= j < k - 1 ==>
                  FolderResultOf(linked[j], presets.linkedAssets, OrderPresets(presets), loadersByName,
                                 backend.regexMatch, backend.load).Success?)
            && FolderResultOf(prepared.items[currentFolderId], presets.currentContext, OrderPresets(presets), loadersByName,
                              backend.regexMatch, backend.load).Success?
  {
    var fs := LoadOrder(prepared, currentFolderId);
    var linked := PyDict.Values(PyDict.Pop(prepared, currentFolderId));
    assert fs == [prepared.items[currentFolderId]] + linked;
    forall j | 0 <= j < k - 1
      ensures FolderResultOf(linked[j], presets.linkedAssets, OrderPresets(presets), loadersByName,
                             backend.regexMatch, backend.load).Success?
    {
      assert fs[j + 1] == linked[j];
      assert ProfilesAt(prepared, currentFolderId, presets, j + 1) == presets.linkedAssets;
    }
    assert ProfilesAt(prepared, currentFolderId, presets, 0) == presets.currentContext;
  }

  /** A linked folder's exception after the current folder loaded is the run's exception. */
  lemma LoadPreparedLinkedRaises(prepared: PyDict.Dict<Id, FolderData>, currentFolderId: Id, presets: Presets,
                                 loadersByName: map<string, LoaderPlugin>, backend: Backend, e: BuildError)
    requires PyDict.Valid(prepared)
    requires forall f :: f in prepared.items ==> ProductsKeyed(prepared.items[f])
    requires HasCurrent(prepared, currentFolderId)
    requires FolderResultOf(prepared.items[currentFolderId], presets.currentContext, OrderPresets(presets), loadersByName,
                            backend.regexMatch, backend.load).Success?
    requires AllKeyed(PyDict.Values(PyDict.Pop(prepared, currentFolderId)))
    requires LoadFolders(PyDict.Values(PyDict.Pop(prepared, currentFolderId)), presets.linkedAssets, OrderPresets(presets),
                         loadersByName, backend.regexMatch, backend.load).result == Failure(e)
    ensures LoadPrepared(prepared, currentFolderId, presets, loadersByName, backend).result == Failure(e)
  {
    LoadPreparedCases(prepared, currentFolderId, presets, loadersByName, backend);
  }

  /** When the folders before `k` load and folder `k` raises, `build_workfile` raises folder `k`'s exception. */
  lemma LoadPreparedFailsAt(prepared: PyDict.Dict<Id, FolderData>, currentFolderId: Id, presets: Presets,
                            loadersByName: map<string, LoaderPlugin>, backend: Backend, k: nat)
    requires PyDict.Valid(prepared)
    requires forall f :: f in prepared.items ==> ProductsKeyed(prepared.items[f])
    requires k < |LoadOrder(prepared, currentFolderId)|
    requires forall j :: 0 <= j < k ==>
               FolderResultOf(LoadOrder(prepared, currentFolderId)[j], ProfilesAt(prepared, currentFolderId, presets, j),
                              OrderPresets(presets), loadersByName, backend.regexMatch, backend.load).Success?
    requires FolderResultOf(LoadOrder(prepared, currentFolderId)[k], ProfilesAt(prepared, currentFolderId, presets, k),
                            OrderPresets(presets), loadersByName, backend.regexMatch, backend.load).Failure?
    ensures LoadPrepared(prepared, currentFolderId, presets, loadersByName, backend).result
            == Failure(FolderResultOf(LoadOrder(prepared, currentFolderId)[k], ProfilesAt(prepared, currentFolderId, presets, k),
                                      OrderPresets(presets), loadersByName, backend.regexMatch, backend.load).error)
  {
    var fs := LoadOrder(prepared, currentFolderId);
    if HasCurrent(prepared, currentFolderId) && k > 0 {
      var linked := PyDict.Values(PyDict.Pop(prepared, currentFolderId));
      LinkedFailure(prepared, currentFolderId, presets, loadersByName, backend, k);
      LoadFoldersFailsAt(linked, k - 1, presets.linkedAssets, OrderPresets(presets), loadersByName,
                         backend.regexMatch, backend.load);
      LoadPreparedLinkedRaises(prepared, currentFolderId, presets, loadersByName, backend,
                               FolderResultOf(linked[k - 1], presets.linkedAssets, OrderPresets(presets), loadersByName,
                                              backend.regexMatch, backend.load).error);
    } else if HasCurrent(prepared, currentFolderId) {
      assert ProfilesAt(prepared, currentFolderId, presets, 0) == presets.currentContext;
      LoadPreparedCases(prepared, currentFolderId, presets, loadersByName, backend);
    } else {
      forall j | 0 <= j < k
        ensures FolderResultOf(fs[j], presets.linkedAssets, OrderPresets(presets), loadersByName,
                               backend.regexMatch, backend.load).Success?
      {
        assert ProfilesAt(prepared, currentFolderId, presets, j) == presets.linkedAssets;
      }
      LoadFoldersFailsAt(fs, k, presets.linkedAssets, OrderPresets(presets), loadersByName,
                         backend.regexMatch, backend.load);
      LoadPreparedCases(prepared, currentFolderId, presets, loadersByName, backend);
    }
  }

  /** The current folder's `LoadedFolder`, when it has one, heads a successful result. */
  lemma LoadPreparedCurrentFirst(prepared: PyDict.Dict<Id, FolderData>, currentFolderId: Id, presets: Presets,
                                 loadersByName: map<string, LoaderPlugin>, backend: Backend, first: LoadedFolder)
    requires PyDict.Valid(prepared)
    requires forall f :: f in prepared.items ==> ProductsKeyed(prepared.items[f])
    requires HasCurrent(prepared, currentFolderId)
    requires FolderResultOf(prepared.items[currentFolderId], presets.currentContext, OrderPresets(presets), loadersByName,
                            backend.regexMatch, backend.load) == Success(Some(first))
    ensures var r := LoadPrepared(prepared, currentFolderId, presets, loadersByName, backend).result;
            r.Success? ==> |r.value| > 0 && r.value[0] == first
  {
    LoadPreparedCases(prepared, currentFolderId, presets, loadersByName, backend);
  }

  /**
   * `build_workfile`: nothing for a missing folder, no loaders, no presets,
   * both preset lists missing or empty, or no folder to process; a repeated
   * enabled loader name raises; otherwise the collected folders are loaded.
   */
  function BuildSpec(folder: Option<FolderDoc>, plugins: seq<LoaderPlugin>, taskName: string,
                     host: HostSettings, backend: Backend): (r: BuildRun)
    ensures folder.None? ==> r == NothingBuilt()
    ensures folder.Some? && LoaderIndex(plugins).Failure? ==> r == BuildRun(Failure(LoaderIndex(plugins).error), [], 0)
    ensures folder.Some? && LoaderIndex(plugins) == Success(map[]) ==> r == NothingBuilt()
    ensures folder.Some? && LoaderIndex(plugins).Success? ==>
              match GetBuildPresets(host, taskName, folder.value, backend.filterProfiles)
              case None => r == NothingBuilt()
              case Some(p) =>
                (Blank(p.currentContext) && Blank(p.linkedAssets)) || AssetDocs(folder.value, p, backend) == [] ==>
                  r == NothingBuilt()
  {
    if folder.None? then NothingBuilt()
    else match LoaderIndex(plugins)
      case Failure(e) => BuildRun(Failure(e), [], 0)
      case Success(loadersByName) =>
        if loadersByName == map[] then NothingBuilt()
        else match GetBuildPresets(host, taskName, folder.value, backend.filterProfiles)
          case None => NothingBuilt()
          case Some(presets) =>
            if Blank(presets.currentContext) && Blank(presets.linkedAssets) then NothingBuilt()
            else
              var assetDocs := AssetDocs(folder.value, presets, backend);
              if assetDocs == [] then NothingBuilt()
              else match LastVersionRepres(assetDocs, backend)
                case Failure(e) => BuildRun(Failure(e), [], 0)
                case Success(prepared) =>
                  CollectedFoldersKeyed(assetDocs, backend);
                  var currentFolderId := if !Blank(presets.currentContext) then folder.value.id else "";
                  LoadPrepared(prepared, currentFolderId, presets, loadersByName, backend)
  }

  /** The folder's result and calls do not depend on how often the presets were extended. */
  lemma FolderOfExtendedN(data: FolderData, buildProfiles: Option<seq<BuildProfile>>, p: Presets, n: nat,
                          loadersByName: map<string, LoaderPlugin>, regexMatch: (string, string) -> bool,
                          load: (LoaderPlugin, Id, string) -> LoadOutcome)
    requires ProductsKeyed(data)
    ensures FolderResultOf(data, buildProfiles, OrderPresets(ExtendedN(p, n)), loadersByName, regexMatch, load)
            == FolderResultOf(data, buildProfiles, OrderPresets(p), loadersByName, regexMatch, load)
    ensures FolderCallsOf(data, buildProfiles, OrderPresets(ExtendedN(p, n)), loadersByName, regexMatch, load)
            == FolderCallsOf(data, buildProfiles, OrderPresets(p), loadersByName, regexMatch, load)
  {
    LoadFolderExtendedN(data, buildProfiles, p, n, loadersByName, regexMatch, load);
  }

  // ---------------------------------------------------------------------
  // the builder object

  /** The result of `_load_containers` as a function of the presets it orders by. */
  function ContainersOf(orderPresets: seq<BuildProfile>, x: LoadInput, loadersByName: map<string, LoaderPlugin>,
                        load: (LoaderPlugin, Id, string) -> LoadOutcome): Result<seq<Container>, BuildError>
    requires LoadInputValid(x)
  {
    match LoadContainersOf(orderPresets, x, loadersByName, load)
    case Failure(e) => Failure(e)
    case Success(run) => Success(run.containers)
  }

  /** The calls of `load_container` that `_load_containers` makes. */
  function CallsOf(orderPresets: seq<BuildProfile>, x: LoadInput, loadersByName: map<string, LoaderPlugin>,
                   load: (LoaderPlugin, Id, string) -> LoadOutcome): seq<Attempt>
    requires LoadInputValid(x)
  {
    match LoadContainersOf(orderPresets, x, loadersByName, load)
    case Failure(_) => []
    case Success(run) => run.attempts
  }

  /** What `load_containers_by_asset_data` returns as a function of the presets `_load_containers` orders by. */
  function FolderResultOf(data: FolderData, buildProfiles: Option<seq<BuildProfile>>, orderPresets: seq<BuildProfile>,
                          loadersByName: map<string, LoaderPlugin>, regexMatch: (string, string) -> bool,
                          load: (LoaderPlugin, Id, string) -> LoadOutcome): Result<Option<LoadedFolder>, BuildError>
    requires ProductsKeyed(data)
  {
    match LoadFolder(data, buildProfiles, orderPresets, loadersByName, regexMatch, load)
    case Failure(e) => Failure(e)
    case Success(run) => Success(run.folder)
  }

  /** The calls of `load_container` that `load_containers_by_asset_data` makes. */
  function FolderCallsOf(data: FolderData, buildProfiles: Option<seq<BuildProfile>>, orderPresets: seq<BuildProfile>,
                         loadersByName: map<string, LoaderPlugin>, regexMatch: (string, string) -> bool,
                         load: (LoaderPlugin, Id, string) -> LoadOutcome): seq<Attempt>
    requires ProductsKeyed(data)
  {
    match LoadFolder(data, buildProfiles, orderPresets, loadersByName, regexMatch, load)
    case Failure(_) => []
    case Success(run) => run.attempts
  }

  /**
   * `BuildWorkfile`: the presets chosen by the last build, and the calls of
   * `load_container` made so far with the level each failure was logged at.
   */
  class WorkfileBuilder {
    var buildPresets: Option<Presets>
    var loadCalls: seq<Attempt>

    constructor ()
      ensures buildPresets == None && loadCalls == []
    {
      buildPresets := None;
      loadCalls := [];
    }

    /**
     * `_load_containers`: extends the stored `current_context` presets in
     * place, orders the products, then loads them one after another.
     */
    method LoadContainers(x: LoadInput, loadersByName: map<string, LoaderPlugin>,
                          load: (LoaderPlugin, Id, string) -> LoadOutcome)
      returns (r: Result<seq<Container>, BuildError>)
      requires LoadInputValid(x) && buildPresets.Some?
      modifies this
      ensures buildPresets == Some(Extended(old(buildPresets.value)))
      ensures r == ContainersOf(OrderPresets(old(buildPresets.value)), x, loadersByName, load)
      ensures loadCalls == old(loadCalls) + CallsOf(OrderPresets(old(buildPresets.value)), x, loadersByName, load)
    {
      var presets := buildPresets.value;
      var orderPresets := OrEmpty(presets.currentContext) + OrEmpty(presets.linkedAssets);
      if presets.currentContext.Some? {
        buildPresets := Some(presets.(currentContext := Some(orderPresets)));
      }
      var ids := OrderProductIds(orderPresets, x.products);
      if ids.Failure? {
        return Failure(ids.error);
      }
      var ordered := OrderRepresentations(ids.value, x.validRepres);
      OrderedEntriesSpec(orderPresets, x);
      var loadedContainers, attempts := LoadOrdered(ordered, x.products.items, x.profiles, loadersByName, load);
      loadCalls := loadCalls + attempts;
      r := Success(loadedContainers);
    }

    /**
     * `load_containers_by_asset_data`: nothing happens on an early return;
     * otherwise `_load_containers` runs on the folder's indexes.
     */
    method LoadContainersByAssetData(data: FolderData, buildProfiles: Option<seq<BuildProfile>>,
                                     loadersByName: map<string, LoaderPlugin>, regexMatch: (string, string) -> bool,
                                     load: (LoaderPlugin, Id, string) -> LoadOutcome)
      returns (r: Result<Option<LoadedFolder>, BuildError>)
      requires ProductsKeyed(data) && buildPresets.Some?
      modifies this
      ensures PrepareLoad(data, buildProfiles, loadersByName, regexMatch).None? ==> buildPresets == old(buildPresets)
      ensures PrepareLoad(data, buildProfiles, loadersByName, regexMatch).Some? ==>
                buildPresets == Some(Extended(old(buildPresets.value)))
      ensures r == FolderResultOf(data, buildProfiles, OrderPresets(old(buildPresets.value)), loadersByName, regexMatch, load)
      ensures loadCalls == old(loadCalls)
                           + FolderCallsOf(data, buildProfiles, OrderPresets(old(buildPresets.value)), loadersByName, regexMatch, load)
    {
      if buildProfiles.None? || buildProfiles.value == [] || loadersByName == map[] {
        return Success(None);
      }
      var validProfiles := FilterBuildProfiles(buildProfiles.value, loadersByName);
      if validProfiles == [] {
        return Success(None);
      }
      var x := IndexProducts(data);
      if x.productsById.keys == [] {
        return Success(None);
      }
      IndexedFolder(data);
      IndexedDocs(data);
      var docs := PyDict.Values(x.productsById);
      PrepareProfileForProductsSpec(docs, validProfiles, regexMatch);
      var profilesByProductId := PrepareProfileForProducts(docs, validProfiles, regexMatch);
      if profilesByProductId == map[] {
        return Success(None);
      }
      var validReprs := CollectValidRepres(profilesByProductId, x);
      var input := LoadInput(x.productsById, profilesByProductId, validReprs);
      assert PrepareLoad(data, buildProfiles, loadersByName, regexMatch) == Some(input);
      var containers := LoadContainers(input, loadersByName, load);
      if containers.Failure? {
        return Failure(containers.error);
      }
      r := Success(Some(LoadedFolder(data.assetDoc, containers.value)));
    }
  
    /**
     * One linked folder's `load_containers_by_asset_data` call, whose
     * outcome does not depend on how often the presets were extended.
     */
    method LoadLinkedFolder(data: FolderData, linkedProfiles: Option<seq<BuildProfile>>, presets: Presets, ghost n0: nat,
                            loadersByName: map<string, LoaderPlugin>, backend: Backend)
      returns (r: Result<Option<LoadedFolder>, BuildError>, ghost n: nat)
      requires ProductsKeyed(data) && buildPresets == Some(ExtendedN(presets, n0))
      modifies this
      ensures n == n0 + Extension(data, linkedProfiles, loadersByName, backend.regexMatch)
      ensures buildPresets == Some(ExtendedN(presets, n))
      ensures r == FolderResultOf(data, linkedProfiles, OrderPresets(presets), loadersByName, backend.regexMatch, backend.load)
      ensures loadCalls == old(loadCalls)
                           + FolderCallsOf(data, linkedProfiles, OrderPresets(presets), loadersByName, backend.regexMatch, backend.load)
    {
      FolderOfExtendedN(data, linkedProfiles, presets, n0, loadersByName, backend.regexMatch, backend.load);
      r := LoadContainersByAssetData(data, linkedProfiles, loadersByName, backend.regexMatch, backend.load);
      if PrepareLoad(data, linkedProfiles, loadersByName, backend.regexMatch).Some? {
        n := n0 + 1;
        ExtendedNNext(presets, n0, n);
      } else {
        n := n0;
      }
    }

    /** The loop over the linked folders' data. */
    method LoadLinked(datas: seq<FolderData>, linkedProfiles: Option<seq<BuildProfile>>, presets: Presets, ghost n0: nat,
                      loadersByName: map<string, LoaderPlugin>, backend: Backend)
      returns (r: Result<seq<LoadedFolder>, BuildError>, ghost n: nat)
      requires AllKeyed(datas) && buildPresets == Some(ExtendedN(presets, n0))
      modifies this
      ensures n == n0 + LoadFolders(datas, linkedProfiles, OrderPresets(presets), loadersByName, backend.regexMatch, backend.load).extensions
      ensures buildPresets == Some(ExtendedN(presets, n))
      ensures r == LoadFolders(datas, linkedProfiles, OrderPresets(presets), loadersByName, backend.regexMatch, backend.load).result
      ensures loadCalls == old(loadCalls)
                           + LoadFolders(datas, linkedProfiles, OrderPresets(presets), loadersByName, backend.regexMatch, backend.load).attempts
    {
      var loaded := [];
      ghost var calls := [];
      ghost var k: nat := 0;
      ghost var total: nat := n0;
      for i := 0 to |datas|
        invariant buildPresets == Some(ExtendedN(presets, total)) && total == n0 + k
        invariant LoadFolders(datas[..i], linkedProfiles, OrderPresets(presets), loadersByName, backend.regexMatch, backend.load)
                  == BuildRun(Success(loaded), calls, k)
        invariant loadCalls == old(loadCalls) + calls
      {
        LoadLinkedStep(datas, i, linkedProfiles, OrderPresets(presets), loadersByName, backend.regexMatch, backend.load,
                       loaded, calls, k);
        ghost var before := calls;
        ghost var folderCalls := FolderCallsOf(datas[i], linkedProfiles, OrderPresets(presets), loadersByName,
                                               backend.regexMatch, backend.load);
        ghost var one := Extension(datas[i], linkedProfiles, loadersByName, backend.regexMatch);
        var loadedData;
        loadedData, total := LoadLinkedFolder(datas[i], linkedProfiles, presets, total, loadersByName, backend);
        if loadedData.Failure? {
          return Failure(loadedData.error), total;
        }
        loaded := loaded + (if loadedData.value.Some? then [loadedData.value.value] else []);
        calls := calls + folderCalls;
        k := k + one;
        SeqAssoc(old(loadCalls), before, folderCalls);
      }
      assert datas[..|datas|] == datas;
      r, n := Success(loaded), total;
    }

    /**
     * `build_workfile`: the early returns, the loader index, the presets,
     * the collected folders, then the current folder first and the linked
     * folders after it.
     */
    method BuildWorkfile(folder: Option<FolderDoc>, plugins: seq<LoaderPlugin>, taskName: string,
                         host: HostSettings, backend: Backend)
      returns (loadedContainers: Result<seq<LoadedFolder>, BuildError>)
      modifies this
      ensures loadedContainers == BuildSpec(folder, plugins, taskName, host, backend).result
      ensures loadCalls == old(loadCalls) + BuildSpec(folder, plugins, taskName, host, backend).attempts
      ensures folder.None? || LoaderIndex(plugins).Failure? || LoaderIndex(plugins) == Success(map[]) ==>
                buildPresets == old(buildPresets)
      ensures folder.Some? && LoaderIndex(plugins).Success? && LoaderIndex(plugins).value != map[] ==>
                match GetBuildPresets(host, taskName, folder.value, backend.filterProfiles)
                case None => buildPresets == None
                case Some(p) => buildPresets == Some(ExtendedN(p, BuildSpec(folder, plugins, taskName, host, backend).extensions))
    {
      if folder.None? {
        return Success([]);
      }
      var currentAssetDoc := folder.value;
      var index := BuildLoaderIndex(plugins);
      if index.Failure? {
        return Failure(index.error);
      }
      var loadersByName := index.value;
      if loadersByName == map[] {
        return Success([]);
      }
      buildPresets := GetBuildPresets(host, taskName, currentAssetDoc, backend.filterProfiles);
      if buildPresets.None? {
        return Success([]);
      }
      var presets := buildPresets.value;
      assert buildPresets == Some(ExtendedN(presets, 0));
      if Blank(presets.currentContext) && Blank(presets.linkedAssets) {
        return Success([]);
      }
      var assetDocs := [];
      var currentFolderId := "";
      if !Blank(presets.currentContext) {
        assetDocs := assetDocs + [currentAssetDoc];
        currentFolderId := currentAssetDoc.id;
      }
      if !Blank(presets.linkedAssets) {
        var linkAssets := backend.linkedAssetsOf(currentAssetDoc);
        if linkAssets != [] {
          assetDocs := assetDocs + linkAssets;
        }
      }
      assert assetDocs == AssetDocs(currentAssetDoc, presets, backend);
      if assetDocs == [] {
        return Success([]);
      }
      var collected := CollectLastVersionRepres(assetDocs, backend);
      if collected.Failure? {
        return Failure(collected.error);
      }
      CollectedFoldersKeyed(assetDocs, backend);
      ghost var n;
      loadedContainers, n := LoadCollected(collected.value, currentFolderId, presets, loadersByName, backend);
      ExtendedNSame(presets, n, BuildSpec(folder, plugins, taskName, host, backend).extensions);
    }

    /** The loads of `build_workfile` once the folders are collected. */
    method LoadCollected(prepared: PyDict.Dict<Id, FolderData>, currentFolderId: Id, presets: Presets,
                         loadersByName: map<string, LoaderPlugin>, backend: Backend)
      returns (r: Result<seq<LoadedFolder>, BuildError>, ghost n: nat)
      requires PyDict.Valid(prepared)
      requires forall f :: f in prepared.items ==> ProductsKeyed(prepared.items[f])
      requires buildPresets == Some(presets)
      modifies this
      ensures r == LoadPrepared(prepared, currentFolderId, presets, loadersByName, backend).result
      ensures loadCalls == old(loadCalls) + LoadPrepared(prepared, currentFolderId, presets, loadersByName, backend).attempts
      ensures n == LoadPrepared(prepared, currentFolderId, presets, loadersByName, backend).extensions
      ensures buildPresets == Some(ExtendedN(presets, n))
    {
      if currentFolderId != "" && currentFolderId in prepared.items {
        r, n := LoadCurrentFirst(prepared, currentFolderId, presets, loadersByName, backend);
      } else {
        LoadPreparedCases(prepared, currentFolderId, presets, loadersByName, backend);
        assert buildPresets == Some(ExtendedN(presets, 0));
        r, n := LoadLinked(PyDict.Values(prepared), presets.linkedAssets, presets, 0, loadersByName, backend);
      }
    }

    /** The current folder's data is popped and loaded first; the other folders follow unless it raised. */
    method LoadCurrentFirst(prepared: PyDict.Dict<Id, FolderData>, currentFolderId: Id, presets: Presets,
                            loadersByName: map<string, LoaderPlugin>, backend: Backend)
      returns (r: Result<seq<LoadedFolder>, BuildError>, ghost n: nat)
      requires PyDict.Valid(prepared)
      requires forall f :: f in prepared.items ==> ProductsKeyed(prepared.items[f])
      requires HasCurrent(prepared, currentFolderId)
      requires buildPresets == Some(presets)
      modifies this
      ensures r == LoadPrepared(prepared, currentFolderId, presets, loadersByName, backend).result
      ensures loadCalls == old(loadCalls) + LoadPrepared(prepared, currentFolderId, presets, loadersByName, backend).attempts
      ensures n == LoadPrepared(prepared, currentFolderId, presets, loadersByName, backend).extensions
      ensures buildPresets == Some(ExtendedN(presets, n))
    {
      LoadPreparedCases(prepared, currentFolderId, presets, loadersByName, backend);
      var currentContextData := prepared.items[currentFolderId];
      var linked := PyDict.Pop(prepared, currentFolderId);
      ghost var currentCalls := FolderCallsOf(currentContextData, presets.currentContext, OrderPresets(presets), loadersByName,
                                              backend.regexMatch, backend.load);
      ghost var rest := LoadFolders(PyDict.Values(linked), presets.linkedAssets, OrderPresets(presets),
                                    loadersByName, backend.regexMatch, backend.load);
      var loadedData := LoadContainersByAssetData(currentContextData, presets.currentContext, loadersByName,
                                                  backend.regexMatch, backend.load);
      ghost var first: nat := 0;
      if PrepareLoad(currentContextData, presets.currentContext, loadersByName, backend.regexMatch).Some? {
        first := 1;
        ExtendedNNext(presets, 0, first);
      }
      if loadedData.Failure? {
        assert loadCalls == old(loadCalls) + [];
        return Failure(loadedData.error), first;
      }
      var linkedResult;
      linkedResult, n := LoadLinked(PyDict.Values(linked), presets.linkedAssets, presets, first, loadersByName, backend);
      SeqAssoc(old(loadCalls), currentCalls, rest.attempts);
      if linkedResult.Failure? {
        return Failure(linkedResult.error), n;
      }
      r := Success((if loadedData.value.Some? then [loadedData.value.value] else []) + linkedResult.value);
    }
  }
}
