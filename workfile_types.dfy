/**
 * The documents and settings the settings-driven workfile builder works on.
 * Every database query, `load_container`, `filter_profiles` and `re.match`
 * is a parameter: the builder is modelled over whatever they answer.
 */
module WorkfileTypes {
  import opened Wrappers
  import PyDict

  type Id = string

  /** A folder (asset) document: its id, name and the type of each of its tasks. */
  datatype FolderDoc = FolderDoc(id: Id, name: string, taskTypes: map<string, Option<string>>)

  /**
   * A product (subset) document.  `family` is `data.family` ("" when it is
   * missing or empty) and `families` is `data.families` ([] when missing).
   */
  datatype SubsetDoc = SubsetDoc(id: Id, name: string, parent: Id, family: string, families: seq<string>)

  /** A version document and the product it belongs to. */
  datatype VersionDoc = VersionDoc(id: Id, parent: Id)

  /** A representation document and the version it belongs to. */
  datatype RepreDoc = RepreDoc(id: Id, name: string, parent: Id)

  /** A discovered loader plugin: its class name and whether it is enabled. */
  datatype LoaderPlugin = LoaderPlugin(name: string, enabled: bool)

  /**
   * One build profile.  An empty `loaders`, `repreNames` or `nameFilters`
   * stands for the key being missing or empty; `productTypes` is `None`
   * when the key is missing, since `preset["product_types"]` then raises.
   */
  datatype BuildProfile = BuildProfile(
    loaders: seq<string>,
    productTypes: Option<seq<string>>,
    repreNames: seq<string>,
    nameFilters: seq<string>)

  /** A profile that passed the filter, with its lower-cased lists. */
  datatype PreparedProfile = PreparedProfile(
    profile: BuildProfile,
    productTypesLowered: seq<string>,
    repreNamesLowered: seq<string>)

  /**
   * The build presets chosen for the task: the `current_context` and
   * `linked_assets` profile lists, `None` when the key is missing.
   */
  datatype Presets = Presets(currentContext: Option<seq<BuildProfile>>, linkedAssets: Option<seq<BuildProfile>>)

  /** `workfile_builder` / `workfile_build` settings; an empty `profiles` stands for a missing key. */
  datatype WorkfileSettings = WorkfileSettings(profiles: seq<Presets>)

  /** The host's project settings; `None` stands for a missing, `None` or empty dict. */
  datatype HostSettings = HostSettings(workfileBuilder: Option<WorkfileSettings>, workfileBuild: Option<WorkfileSettings>)

  /** What `load_container` returned: `Container(handle)`. */
  datatype Container = Container(handle: nat)

  /** The two kinds of exception the load loop tells apart. */
  datatype LoadError = IncompatibleLoader | OtherLoadError

  /** One call of `load_container`: it returned a container or raised. */
  datatype LoadOutcome = Loaded(container: Container) | Raised(error: LoadError)

  /** The log level chosen for a failed load. */
  datatype LogLevel = Info | Error

  /**
   * One call of `load_container` in the load loop: the loader's name, the
   * representation, what happened and, for a failure, the level it is
   * logged at.
   */
  datatype Attempt = Attempt(loader: string, repre: Id, outcome: LoadOutcome, failureLevel: Option<LogLevel>)

  /** Exceptions that escape `build_workfile`. */
  datatype BuildError =
    | DuplicatedLoaderName(name: string)   // KeyError at the loader index
    | MissingProductTypes                  // KeyError on preset["product_types"]
    | MissingEntity(id: Id)                // KeyError while grouping representations

  /** A product of a folder with its last version and that version's representations. */
  datatype ProductData = ProductData(subsetDoc: SubsetDoc, versionDoc: VersionDoc, repres: seq<RepreDoc>)

  /** A folder with its products (product id -> data, in insertion order). */
  datatype FolderData = FolderData(assetDoc: FolderDoc, subsets: PyDict.Dict<Id, ProductData>)

  /**
   * The shape `_collect_last_version_repres` gives a folder's data: every
   * product sits under its own id, with a version of that product.
   */
  ghost predicate ProductsKeyed(data: FolderData)
  {
    && PyDict.Valid(data.subsets)
    && (forall p :: p in data.subsets.items ==>
          data.subsets.items[p].subsetDoc.id == p && data.subsets.items[p].versionDoc.parent == p)
    && (forall p, q ::
          p in data.subsets.items && q in data.subsets.items && p != q ==>
          data.subsets.items[p].versionDoc.id != data.subsets.items[q].versionDoc.id)
  }

  /** What `load_containers_by_asset_data` returns for one folder. */
  datatype LoadedFolder = LoadedFolder(assetDoc: FolderDoc, containers: seq<Container>)

  /** The collaborators the builder calls. */
  datatype Backend = Backend(
    subsetsOf: set<Id> -> seq<SubsetDoc>,            // get_subsets(asset_ids=...)
    lastVersionsOf: set<Id> -> seq<VersionDoc>,      // get_last_versions(...).values()
    represOf: set<Id> -> seq<RepreDoc>,              // get_representations(version_ids=...)
    linkedAssetsOf: FolderDoc -> seq<FolderDoc>,     // get_linked_assets(...)
    load: (LoaderPlugin, Id, string) -> LoadOutcome, // load_container(loader, repre_id, name=...)
    regexMatch: (string, string) -> bool,            // bool(re.match(pattern, name))
    filterProfiles: (seq<Presets>, Option<string>, string) -> Option<Presets>)
                                                     // filter_profiles(profiles, {task_types, tasks})

  /** An element of a non-empty sequence is in all but its last position, or is the last one. */
  lemma InitOrLast<T>(s: seq<T>)
    requires s != []
    ensures forall x :: x in s <==> x in s[..|s| - 1] || x == s[|s| - 1]
  {
    assert s == s[..|s| - 1] + [s[|s| - 1]];
  }

  lemma SeqAssoc<T>(a: seq<T>, b: seq<T>, c: seq<T>)
    ensures (a + b) + c == a + (b + c)
  {
  }

  /** Dropping the last element of a concatenation drops it from the second part. */
  lemma DropLastOfAppend<T>(a: seq<T>, b: seq<T>)
    requires b != []
    ensures (a + b)[..|a + b| - 1] == a + b[..|b| - 1]
    ensures (a + b)[|a + b| - 1] == b[|b| - 1]
  {
  }
}
