/**
 * The settings side of the workfile builder: the loader index, grouping
 * products by type, filtering the build profiles, and choosing a profile
 * for each product.
 */
module WorkfileProfiles {
  import opened Wrappers
  import opened Text
  import PyDict
  import opened WorkfileTypes

  // ---------------------------------------------------------------------
  // loader index

  /** `loaders_by_name`, plugin by plugin: disabled plugins are skipped, a repeated enabled name raises. */
  function LoaderIndex(plugins: seq<LoaderPlugin>): Result<map<string, LoaderPlugin>, BuildError>
  {
    if plugins == [] then Success(map[])
    else match LoaderIndex(plugins[..|plugins| - 1])
      case Failure(e) => Failure(e)
      case Success(acc) =>
        var p := plugins[|plugins| - 1];
        if !p.enabled then Success(acc)
        else if p.name in acc then Failure(DuplicatedLoaderName(p.name))
        else Success(acc[p.name := p])
  }

  predicate EnabledNamesDistinct(plugins: seq<LoaderPlugin>)
  {
    forall i, j :: 0 <= i < j < |plugins| && plugins[i].enabled && plugins[j].enabled ==>
      plugins[i].name != plugins[j].name
  }

  /**
   * The index is built iff no two enabled plugins share a name; otherwise
   * the error names a repeated enabled name.
   */
  lemma {:induction false} LoaderIndexSpec(plugins: seq<LoaderPlugin>)
    ensures LoaderIndex(plugins).Success? <==> EnabledNamesDistinct(plugins)
    ensures LoaderIndex(plugins).Failure? ==>
      (exists i, j :: 0 <= i < j < |plugins|
        && plugins[i].enabled && plugins[j].enabled && plugins[i].name == plugins[j].name
        && LoaderIndex(plugins).error == DuplicatedLoaderName(plugins[j].name))
  {
    if plugins != [] {
      var n := |plugins| - 1;
      var init := plugins[..n];
      var p := plugins[n];
      LoaderIndexSpec(init);
      assert forall i :: 0 <= i < n ==> init[i] == plugins[i];
      if LoaderIndex(init).Failure? {
        var i, j :| 0 <= i < j < |init| && init[i].enabled && init[j].enabled && init[i].name == init[j].name
          && LoaderIndex(init).error == DuplicatedLoaderName(init[j].name);
        assert plugins[i] == init[i] && plugins[j] == init[j];
      } else {
        LoaderIndexContents(init);
        if p.enabled && p.name in LoaderIndex(init).value {
          var i :| 0 <= i < n && init[i].enabled && init[i].name == p.name;
          assert plugins[i] == init[i];
        }
      }
    }
  }

  /** A built index holds exactly the enabled plugins, each under its own name. */
  lemma {:induction false} LoaderIndexContents(plugins: seq<LoaderPlugin>)
    requires LoaderIndex(plugins).Success?
    ensures forall n :: n in LoaderIndex(plugins).value <==>
      exists i :: 0 <= i < |plugins| && plugins[i].enabled && plugins[i].name == n
    ensures forall n :: n in LoaderIndex(plugins).value ==>
      LoaderIndex(plugins).value[n].enabled && LoaderIndex(plugins).value[n].name == n
        && LoaderIndex(plugins).value[n] in plugins
  {
    if plugins != [] {
      var n := |plugins| - 1;
      var init := plugins[..n];
      LoaderIndexContents(init);
      InitOrLast(plugins);
      assert forall i :: 0 <= i < n ==> init[i] == plugins[i];
    }
  }

  /** A failure in a prefix of the plugins is the failure of the whole list. */
  lemma {:induction false} LoaderIndexPrefixFailure(plugins: seq<LoaderPlugin>, k: nat)
    requires k <= |plugins| && LoaderIndex(plugins[..k]).Failure?
    ensures LoaderIndex(plugins) == LoaderIndex(plugins[..k])
    decreases |plugins| - k
  {
    if k < |plugins| {
      assert plugins[..k + 1][..k] == plugins[..k];
      LoaderIndexPrefixFailure(plugins, k + 1);
    } else {
      assert plugins[..k] == plugins;
    }
  }

  /** The loop of `build_workfile` that fills `loaders_by_name`. */
  method BuildLoaderIndex(plugins: seq<LoaderPlugin>) returns (r: Result<map<string, LoaderPlugin>, BuildError>)
    ensures r == LoaderIndex(plugins)
  {
    var loadersByName: map<string, LoaderPlugin> := map[];
    for i := 0 to |plugins|
      invariant LoaderIndex(plugins[..i]) == Success(loadersByName)
    {
      assert plugins[..i + 1][..i] == plugins[..i];
      var loader := plugins[i];
      if !loader.enabled {
        continue;
      }
      if loader.name in loadersByName {
        LoaderIndexPrefixFailure(plugins, i + 1);
        return Failure(DuplicatedLoaderName(loader.name));
      }
      loadersByName := loadersByName[loader.name := loader];
    }
    assert plugins[..|plugins|] == plugins;
    return Success(loadersByName);
  }

  // ---------------------------------------------------------------------
  // products by type

  /** A product's type: `data.family` when truthy, else the first of `data.families`, else none. */
  function ProductType(d: SubsetDoc): Option<string>
  {
    if d.family != "" then Some(d.family)
    else if d.families != [] then Some(d.families[0])
    else None
  }

  /** The products of type `t`, in input order. */
  function GroupOf(docs: seq<SubsetDoc>, t: string): seq<SubsetDoc>
  {
    if docs == [] then []
    else GroupOf(docs[..|docs| - 1], t) + (if ProductType(docs[|docs| - 1]) == Some(t) then [docs[|docs| - 1]] else [])
  }

  /** The `defaultdict(list)` that `map_products_by_type` fills, product by product. */
  function ProductsByType(docs: seq<SubsetDoc>): (r: PyDict.Dict<string, seq<SubsetDoc>>)
    ensures PyDict.Valid(r)
  {
    if docs == [] then PyDict.Empty()
    else
      var acc := ProductsByType(docs[..|docs| - 1]);
      var d := docs[|docs| - 1];
      match ProductType(d)
      case None => acc
      case Some(t) => PyDict.Put(acc, t, (if t in acc.items then acc.items[t] else []) + [d])
  }

  /** `map_products_by_type` */
  method MapProductsByType(docs: seq<SubsetDoc>) returns (byType: PyDict.Dict<string, seq<SubsetDoc>>)
    ensures byType == ProductsByType(docs)
  {
    byType := PyDict.Empty();
    for i := 0 to |docs|
      invariant byType == ProductsByType(docs[..i])
    {
      assert docs[..i + 1][..i] == docs[..i];
      var doc := docs[i];
      var productType := doc.family;
      if productType == "" {
        var families := doc.families;
        if families == [] {
          continue;
        }
        productType := families[0];
      }
      var list := if productType in byType.items then byType.items[productType] else [];
      byType := PyDict.Put(byType, productType, list + [doc]);
    }
    assert docs[..|docs|] == docs;
  }

  /** A product belongs to the group of type `t` iff it is among the input and has type `t`. */
  lemma {:induction false} GroupOfMembers(docs: seq<SubsetDoc>, t: string)
    ensures forall x :: x in GroupOf(docs, t) <==> x in docs && ProductType(x) == Some(t)
  {
    if docs != [] {
      GroupOfMembers(docs[..|docs| - 1], t);
      assert docs == docs[..|docs| - 1] + [docs[|docs| - 1]];
    }
  }

  /** Grouping keeps input order: the group of a concatenation is the concatenation of the groups. */
  lemma {:induction false} GroupOfAppend(a: seq<SubsetDoc>, b: seq<SubsetDoc>, t: string)
    ensures GroupOf(a + b, t) == GroupOf(a, t) + GroupOf(b, t)
    decreases |b|
  {
    if b == [] {
      assert a + b == a;
    } else {
      var n := |b| - 1;
      assert (a + b)[..|a + b| - 1] == a + b[..n];
      GroupOfAppend(a, b[..n], t);
    }
  }

  /**
   * `map_products_by_type` has a key for every type some product has and
   * no other, and under each key exactly the products of that type in
   * input order; products without a type are dropped.
   */
  lemma {:induction false} ProductsByTypeSpec(docs: seq<SubsetDoc>)
    ensures forall t :: t in ProductsByType(docs).items <==> exists d :: d in docs && ProductType(d) == Some(t)
    ensures forall t :: t in ProductsByType(docs).items ==> ProductsByType(docs).items[t] == GroupOf(docs, t)
  {
    if docs != [] {
      var init := docs[..|docs| - 1];
      var d := docs[|docs| - 1];
      ProductsByTypeSpec(init);
      InitOrLast(docs);
      forall t | exists x :: x in docs && ProductType(x) == Some(t)
        ensures t in ProductsByType(docs).items
      {
        var x :| x in docs && ProductType(x) == Some(t);
        if x != d {
          assert x in init;
        }
      }
      forall t | t !in ProductsByType(init).items
        ensures GroupOf(init, t) == []
      {
        GroupOfMembers(init, t);
        if GroupOf(init, t) != [] {
          assert GroupOf(init, t)[0] in GroupOf(init, t);
        }
      }
    }
  }

  // ---------------------------------------------------------------------
  // build profiles

  /** Some loader the profile lists is available. */
  predicate AnyLoaderAvailable(profile: BuildProfile, loadersByName: map<string, LoaderPlugin>)
  {
    exists k :: 0 <= k < |profile.loaders| && profile.loaders[k] in loadersByName
  }

  /** The checks of `_filter_build_profiles`. */
  predicate IsValidProfile(profile: BuildProfile, loadersByName: map<string, LoaderPlugin>)
  {
    && profile.loaders != []
    && AnyLoaderAvailable(profile, loadersByName)
    && profile.productTypes.Some? && profile.productTypes.value != []
    && profile.repreNames != []
  }

  /** A kept profile with its lower-cased product types and representation names. */
  function Prepare(profile: BuildProfile): PreparedProfile
    requires profile.productTypes.Some?
  {
    PreparedProfile(profile, LowerAll(profile.productTypes.value), LowerAll(profile.repreNames))
  }

  /** The profiles `_filter_build_profiles` keeps, in order. */
  function ValidProfiles(profiles: seq<BuildProfile>, loadersByName: map<string, LoaderPlugin>): seq<PreparedProfile>
  {
    if profiles == [] then []
    else
      var p := profiles[|profiles| - 1];
      ValidProfiles(profiles[..|profiles| - 1], loadersByName)
        + (if IsValidProfile(p, loadersByName) then [Prepare(p)] else [])
  }

  /** `_filter_build_profiles` */
  method FilterBuildProfiles(profiles: seq<BuildProfile>, loadersByName: map<string, LoaderPlugin>)
    returns (valid: seq<PreparedProfile>)
    ensures valid == ValidProfiles(profiles, loadersByName)
  {
    valid := [];
    for i := 0 to |profiles|
      invariant valid == ValidProfiles(profiles[..i], loadersByName)
    {
      assert profiles[..i + 1][..i] == profiles[..i];
      var profile := profiles[i];
      if profile.loaders == [] {
        continue;
      }
      var loadersMatch := false;
      for j := 0 to |profile.loaders|
        invariant !loadersMatch
        invariant forall k :: 0 <= k < j ==> profile.loaders[k] !in loadersByName
      {
        if profile.loaders[j] in loadersByName {
          loadersMatch := true;
          break;
        }
      }
      if !loadersMatch {
        continue;
      }
      if profile.productTypes.None? || profile.productTypes.value == [] {
        continue;
      }
      if profile.repreNames == [] {
        continue;
      }
      valid := valid + [Prepare(profile)];
    }
    assert profiles[..|profiles|] == profiles;
  }

  /**
   * A profile is kept iff it passes every check, and a kept profile carries
   * the element-wise lower-cased lists of its product types and
   * representation names.
   */
  lemma {:induction false} ValidProfilesMembers(profiles: seq<BuildProfile>, loadersByName: map<string, LoaderPlugin>)
    ensures forall q :: q in ValidProfiles(profiles, loadersByName) ==>
      && q.profile in profiles && IsValidProfile(q.profile, loadersByName)
      && q.productTypesLowered == LowerAll(q.profile.productTypes.value)
      && q.repreNamesLowered == LowerAll(q.profile.repreNames)
    ensures forall p :: p in profiles && IsValidProfile(p, loadersByName) ==> Prepare(p) in ValidProfiles(profiles, loadersByName)
    ensures |ValidProfiles(profiles, loadersByName)| <= |profiles|
  {
    if profiles != [] {
      ValidProfilesMembers(profiles[..|profiles| - 1], loadersByName);
      assert profiles == profiles[..|profiles| - 1] + [profiles[|profiles| - 1]];
    }
  }

  /** Filtering keeps order: it distributes over concatenation. */
  lemma {:induction false} ValidProfilesAppend(a: seq<BuildProfile>, b: seq<BuildProfile>, loadersByName: map<string, LoaderPlugin>)
    ensures ValidProfiles(a + b, loadersByName) == ValidProfiles(a, loadersByName) + ValidProfiles(b, loadersByName)
    decreases |b|
  {
    if b == [] {
      assert a + b == a;
    } else {
      var n := |b| - 1;
      assert (a + b)[..|a + b| - 1] == a + b[..n];
      ValidProfilesAppend(a, b[..n], loadersByName);
    }
  }

  // ---------------------------------------------------------------------
  // profile per product

  /** The first profile whose lower-cased product types contain `low`. */
  function FirstProfile(low: string, profiles: seq<PreparedProfile>): Option<PreparedProfile>
  {
    if profiles == [] then None
    else if low in profiles[0].productTypesLowered then Some(profiles[0])
    else FirstProfile(low, profiles[1..])
  }

  /** `FirstProfile` finds a profile iff one lists the type, and then the earliest one. */
  lemma {:induction false} FirstProfileSpec(low: string, profiles: seq<PreparedProfile>)
    ensures FirstProfile(low, profiles).None? <==>
      forall i :: 0 <= i < |profiles| ==> low !in profiles[i].productTypesLowered
    ensures FirstProfile(low, profiles).Some? ==>
      exists i :: 0 <= i < |profiles| && FirstProfile(low, profiles).value == profiles[i]
        && low in profiles[i].productTypesLowered
        && forall j :: 0 <= j < i ==> low !in profiles[j].productTypesLowered
  {
    if profiles != [] && low !in profiles[0].productTypesLowered {
      var rest := profiles[1..];
      FirstProfileSpec(low, rest);
      assert forall i :: 0 <= i < |rest| ==> rest[i] == profiles[i + 1];
      if FirstProfile(low, rest).Some? {
        var i :| 0 <= i < |rest| && FirstProfile(low, rest).value == rest[i]
          && low in rest[i].productTypesLowered
          && forall j :: 0 <= j < i ==> low !in rest[j].productTypesLowered;
        assert forall j :: 0 <= j < i + 1 ==> low !in profiles[j].productTypesLowered by {
          forall j | 0 <= j < i + 1
            ensures low !in profiles[j].productTypesLowered
          {
            if j > 0 {
              assert profiles[j] == rest[j - 1];
            }
          }
        }
      } else {
        forall i | 0 <= i < |profiles|
          ensures low !in profiles[i].productTypesLowered
        {
          if i > 0 {
            assert profiles[i] == rest[i - 1];
          }
        }
      }
    }
  }

  /** The profile loop of `_prepare_profile_for_products`: skip profiles without the type, stop at the first with it. */
  method FindProfile(low: string, profiles: seq<PreparedProfile>) returns (r: Option<PreparedProfile>)
    ensures r == FirstProfile(low, profiles)
  {
    for i := 0 to |profiles|
      invariant FirstProfile(low, profiles) == FirstProfile(low, profiles[i..])
    {
      if low in profiles[i].productTypesLowered {
        return Some(profiles[i]);
      }
      assert profiles[i..][1..] == profiles[i + 1..];
    }
    return None;
  }

  /** Some name filter matches the product name at its start. */
  predicate AnyFilterMatches(filters: seq<string>, name: string, regexMatch: (string, string) -> bool)
  {
    exists k :: 0 <= k < |filters| && regexMatch(filters[k], name)
  }

  /** A product passes a profile's optional name filters. */
  predicate Accepted(profile: PreparedProfile, name: string, regexMatch: (string, string) -> bool)
  {
    profile.profile.nameFilters == [] || AnyFilterMatches(profile.profile.nameFilters, name, regexMatch)
  }

  /** The regex loop: `valid` becomes true at the first pattern that matches. */
  method MatchesAnyFilter(filters: seq<string>, name: string, regexMatch: (string, string) -> bool)
    returns (valid: bool)
    ensures valid <==> AnyFilterMatches(filters, name, regexMatch)
  {
    valid := false;
    for k := 0 to |filters|
      invariant !valid
      invariant forall j :: 0 <= j < k ==> !regexMatch(filters[j], name)
    {
      if regexMatch(filters[k], name) {
        valid := true;
        break;
      }
    }
  }

  /** The assignments for one group of products and its profile, product by product. */
  function AssignGroup(acc: map<Id, PreparedProfile>, docs: seq<SubsetDoc>, profile: PreparedProfile,
                       regexMatch: (string, string) -> bool): map<Id, PreparedProfile>
  {
    if docs == [] then acc
    else
      var r := AssignGroup(acc, docs[..|docs| - 1], profile, regexMatch);
      var d := docs[|docs| - 1];
      if Accepted(profile, d.name, regexMatch) then r[d.id := profile] else r
  }

  /** The product loop: every product that passes the filters gets the profile. */
  method AssignProfile(acc: map<Id, PreparedProfile>, docs: seq<SubsetDoc>, profile: PreparedProfile,
                       regexMatch: (string, string) -> bool) returns (r: map<Id, PreparedProfile>)
    ensures r == AssignGroup(acc, docs, profile, regexMatch)
  {
    r := acc;
    for i := 0 to |docs|
      invariant r == AssignGroup(acc, docs[..i], profile, regexMatch)
    {
      assert docs[..i + 1][..i] == docs[..i];
      var doc := docs[i];
      if profile.profile.nameFilters != [] {
        var valid := MatchesAnyFilter(profile.profile.nameFilters, doc.name, regexMatch);
        if !valid {
          continue;
        }
      }
      r := r[doc.id := profile];
    }
    assert docs[..|docs|] == docs;
  }

  /** The ids of some products. */
  function IdsOf(docs: seq<SubsetDoc>): set<Id>
  {
    set d | d in docs :: d.id
  }

  /** No two products share an id. */
  predicate IdsDistinct(docs: seq<SubsetDoc>)
  {
    forall i, j :: 0 <= i < j < |docs| ==> docs[i].id != docs[j].id
  }

  /** An id no product of the group carries keeps its entry. */
  lemma {:induction false} AssignGroupOther(acc: map<Id, PreparedProfile>, docs: seq<SubsetDoc>, profile: PreparedProfile,
                                            regexMatch: (string, string) -> bool, id: Id)
    requires id !in IdsOf(docs)
    ensures id in AssignGroup(acc, docs, profile, regexMatch) <==> id in acc
    ensures id in acc ==> AssignGroup(acc, docs, profile, regexMatch)[id] == acc[id]
  {
    if docs != [] {
      var init := docs[..|docs| - 1];
      assert docs == init + [docs[|docs| - 1]];
      assert IdsOf(init) <= IdsOf(docs);
      AssignGroupOther(acc, init, profile, regexMatch, id);
    }
  }

  /** A product of the group gets the profile iff it passes the filters; otherwise its id keeps its entry. */
  lemma {:induction false} AssignGroupMember(acc: map<Id, PreparedProfile>, docs: seq<SubsetDoc>, profile: PreparedProfile,
                                             regexMatch: (string, string) -> bool, d: SubsetDoc)
    requires IdsDistinct(docs) && d in docs
    ensures d.id in AssignGroup(acc, docs, profile, regexMatch) <==> Accepted(profile, d.name, regexMatch) || d.id in acc
    ensures Accepted(profile, d.name, regexMatch) ==> AssignGroup(acc, docs, profile, regexMatch)[d.id] == profile
    ensures !Accepted(profile, d.name, regexMatch) && d.id in acc ==> AssignGroup(acc, docs, profile, regexMatch)[d.id] == acc[d.id]
  {
    var n := |docs| - 1;
    var init := docs[..n];
    assert docs == init + [docs[n]];
    if d == docs[n] {
      forall x | x in init
        ensures x.id != d.id
      {
        var i :| 0 <= i < n && init[i] == x;
        assert docs[i] == x;
      }
      AssignGroupOther(acc, init, profile, regexMatch, d.id);
    } else {
      var i :| 0 <= i < n && docs[i] == d;
      assert init[i] == d;
      assert IdsDistinct(init) by {
        forall a, b | 0 <= a < b < |init|
          ensures init[a].id != init[b].id
        {
          assert init[a] == docs[a] && init[b] == docs[b];
        }
      }
      AssignGroupMember(acc, init, profile, regexMatch, d);
    }
  }

  /** The assignments after the first groups of products, type by type. */
  function ProfilesForTypes(keys: seq<string>, groups: map<string, seq<SubsetDoc>>, profiles: seq<PreparedProfile>,
                            regexMatch: (string, string) -> bool): map<Id, PreparedProfile>
    requires forall k :: k in keys ==> k in groups
  {
    if keys == [] then map[]
    else
      var acc := ProfilesForTypes(keys[..|keys| - 1], groups, profiles, regexMatch);
      var t := keys[|keys| - 1];
      match FirstProfile(Lower(t), profiles)
      case None => acc
      case Some(p) => AssignGroup(acc, groups[t], p, regexMatch)
  }

  /** What `_prepare_profile_for_products` returns. */
  function ProfilesForProducts(docs: seq<SubsetDoc>, profiles: seq<PreparedProfile>,
                               regexMatch: (string, string) -> bool): map<Id, PreparedProfile>
  {
    var byType := ProductsByType(docs);
    ProfilesForTypes(byType.keys, byType.items, profiles, regexMatch)
  }

  /** `_prepare_profile_for_products` */
  method PrepareProfileForProducts(docs: seq<SubsetDoc>, profiles: seq<PreparedProfile>,
                                   regexMatch: (string, string) -> bool)
    returns (profilesByProductId: map<Id, PreparedProfile>)
    ensures profilesByProductId == ProfilesForProducts(docs, profiles, regexMatch)
  {
    var byType := MapProductsByType(docs);
    profilesByProductId := map[];
    for i := 0 to |byType.keys|
      invariant profilesByProductId == ProfilesForTypes(byType.keys[..i], byType.items, profiles, regexMatch)
    {
      assert byType.keys[..i + 1][..i] == byType.keys[..i];
      var productType := byType.keys[i];
      var profile := FindProfile(Lower(productType), profiles);
      if profile.Some? {
        profilesByProductId := AssignProfile(profilesByProductId, byType.items[productType], profile.value, regexMatch);
      }
    }
    assert byType.keys[..|byType.keys|] == byType.keys;
  }

  /** The groups of different types share no id, and no group repeats one. */
  predicate GroupsUnique(groups: map<string, seq<SubsetDoc>>)
  {
    && (forall k :: k in groups ==> IdsDistinct(groups[k]))
    && (forall k1, k2 :: k1 in groups && k2 in groups && k1 != k2 ==> IdsOf(groups[k1]) !! IdsOf(groups[k2]))
  }

  /** Every assigned id is the id of a product of a processed type. */
  lemma {:induction false} ProfilesForTypesOwner(keys: seq<string>, groups: map<string, seq<SubsetDoc>>,
                                                 profiles: seq<PreparedProfile>, regexMatch: (string, string) -> bool, id: Id)
    requires forall k :: k in keys ==> k in groups
    requires id in ProfilesForTypes(keys, groups, profiles, regexMatch)
    ensures exists k :: k in keys && id in IdsOf(groups[k])
  {
    var init := keys[..|keys| - 1];
    var t := keys[|keys| - 1];
    assert keys == init + [t];
    var acc := ProfilesForTypes(init, groups, profiles, regexMatch);
    if id !in IdsOf(groups[t]) {
      if FirstProfile(Lower(t), profiles).Some? {
        AssignGroupOther(acc, groups[t], FirstProfile(Lower(t), profiles).value, regexMatch, id);
      }
      ProfilesForTypesOwner(init, groups, profiles, regexMatch, id);
      var k :| k in init && id in IdsOf(groups[k]);
      assert k in keys;
    }
  }

  /**
   * Type by type: a product of a processed type gets the first profile
   * listing its lower-cased type iff it passes that profile's filters.
   */
  lemma {:induction false} ProfilesForTypesMember(keys: seq<string>, groups: map<string, seq<SubsetDoc>>,
                                                  profiles: seq<PreparedProfile>, regexMatch: (string, string) -> bool,
                                                  k: string, d: SubsetDoc)
    requires forall k :: k in keys ==> k in groups
    requires PyDict.Distinct(keys) && GroupsUnique(groups)
    requires k in keys && d in groups[k]
    ensures d.id in ProfilesForTypes(keys, groups, profiles, regexMatch) <==>
      FirstProfile(Lower(k), profiles).Some? && Accepted(FirstProfile(Lower(k), profiles).value, d.name, regexMatch)
    ensures d.id in ProfilesForTypes(keys, groups, profiles, regexMatch) ==>
      ProfilesForTypes(keys, groups, profiles, regexMatch)[d.id] == FirstProfile(Lower(k), profiles).value
  {
    var init := keys[..|keys| - 1];
    var t := keys[|keys| - 1];
    assert keys == init + [t];
    var acc := ProfilesForTypes(init, groups, profiles, regexMatch);
    if k == t {
      assert t !in init;
      if d.id in acc {
        ProfilesForTypesOwner(init, groups, profiles, regexMatch, d.id);
        assert false;
      }
      if FirstProfile(Lower(t), profiles).Some? {
        AssignGroupMember(acc, groups[t], FirstProfile(Lower(t), profiles).value, regexMatch, d);
      }
    } else {
      assert k in init;
      assert d.id in IdsOf(groups[k]);
      assert d.id !in IdsOf(groups[t]);
      ProfilesForTypesMember(init, groups, profiles, regexMatch, k, d);
      if FirstProfile(Lower(t), profiles).Some? {
        AssignGroupOther(acc, groups[t], FirstProfile(Lower(t), profiles).value, regexMatch, d.id);
      }
    }
  }

  /** A product can get a profile: it has a type, some profile lists it, and it passes that profile's filters. */
  predicate Eligible(d: SubsetDoc, profiles: seq<PreparedProfile>, regexMatch: (string, string) -> bool)
  {
    && ProductType(d).Some?
    && FirstProfile(Lower(ProductType(d).value), profiles).Some?
    && Accepted(FirstProfile(Lower(ProductType(d).value), profiles).value, d.name, regexMatch)
  }

  /**
   * `_prepare_profile_for_products` assigns a product a profile iff it is
   * eligible, and then the first profile listing its lower-cased type; a
   * product that fails that profile's filters is not tried against a later
   * one.  Every assigned id is a product's.
   */
  lemma {:induction false} PrepareProfileForProductsSpec(docs: seq<SubsetDoc>, profiles: seq<PreparedProfile>,
                                                         regexMatch: (string, string) -> bool)
    requires IdsDistinct(docs)
    ensures forall d :: d in docs ==> (d.id in ProfilesForProducts(docs, profiles, regexMatch) <==> Eligible(d, profiles, regexMatch))
    ensures forall d :: d in docs && Eligible(d, profiles, regexMatch) ==>
      d.id in ProfilesForProducts(docs, profiles, regexMatch)
        && ProfilesForProducts(docs, profiles, regexMatch)[d.id] == FirstProfile(Lower(ProductType(d).value), profiles).value
    ensures forall id :: id in ProfilesForProducts(docs, profiles, regexMatch) ==> exists d :: d in docs && d.id == id
  {
    var byType := ProductsByType(docs);
    ProductsByTypeSpec(docs);
    GroupsOfDistinctProducts(docs);
    var r := ProfilesForProducts(docs, profiles, regexMatch);
    forall d | d in docs
      ensures d.id in r <==> Eligible(d, profiles, regexMatch)
      ensures Eligible(d, profiles, regexMatch) ==> r[d.id] == FirstProfile(Lower(ProductType(d).value), profiles).value
    {
      match ProductType(d)
      case Some(t) =>
        GroupOfMembers(docs, t);
        ProfilesForTypesMember(byType.keys, byType.items, profiles, regexMatch, t, d);
      case None =>
        if d.id in r {
          ProfilesForTypesOwner(byType.keys, byType.items, profiles, regexMatch, d.id);
          var k :| k in byType.keys && d.id in IdsOf(byType.items[k]);
          var x :| x in byType.items[k] && x.id == d.id;
          GroupOfMembers(docs, k);
          SameIdSameProduct(docs, x, d);
          assert false;
        }
    }
    forall id | id in r
      ensures exists d :: d in docs && d.id == id
    {
      ProfilesForTypesOwner(byType.keys, byType.items, profiles, regexMatch, id);
      var k :| k in byType.keys && id in IdsOf(byType.items[k]);
      var x :| x in byType.items[k] && x.id == id;
      GroupOfMembers(docs, k);
    }
  }

  /** With distinct ids, two products with the same id are the same product. */
  lemma SameIdSameProduct(docs: seq<SubsetDoc>, x: SubsetDoc, y: SubsetDoc)
    requires IdsDistinct(docs) && x in docs && y in docs && x.id == y.id
    ensures x == y
  {
    var a :| 0 <= a < |docs| && docs[a] == x;
    var b :| 0 <= b < |docs| && docs[b] == y;
    if a < b || b < a {
      assert false;
    }
  }

  /** Grouping products with distinct ids gives groups that share no id. */
  lemma GroupsOfDistinctProducts(docs: seq<SubsetDoc>)
    requires IdsDistinct(docs)
    ensures GroupsUnique(ProductsByType(docs).items)
  {
    var groups: map<string, seq<SubsetDoc>> := ProductsByType(docs).items;
    ProductsByTypeSpec(docs);
    forall k | k in groups
      ensures IdsDistinct(groups[k])
    {
      GroupOfDistinct(docs, k);
    }
    forall k1, k2 | k1 in groups && k2 in groups && k1 != k2
      ensures IdsOf(groups[k1]) !! IdsOf(groups[k2])
    {
      GroupOfMembers(docs, k1);
      GroupOfMembers(docs, k2);
      forall id | id in IdsOf(groups[k1])
        ensures id !in IdsOf(groups[k2])
      {
        var x: SubsetDoc :| x in groups[k1] && x.id == id;
        if id in IdsOf(groups[k2]) {
          var y: SubsetDoc :| y in groups[k2] && y.id == id;
          SameIdSameProduct(docs, x, y);
          assert false;
        }
      }
    }
  }

  /** A group of products with distinct ids has distinct ids. */
  lemma {:induction false} GroupOfDistinct(docs: seq<SubsetDoc>, t: string)
    requires IdsDistinct(docs)
    ensures IdsDistinct(GroupOf(docs, t))
  {
    if docs != [] {
      var n := |docs| - 1;
      var init := docs[..n];
      assert IdsDistinct(init) by {
        forall a, b | 0 <= a < b < |init|
          ensures init[a].id != init[b].id
        {
          assert init[a] == docs[a] && init[b] == docs[b];
        }
      }
      GroupOfDistinct(init, t);
      GroupOfMembers(init, t);
      var g := GroupOf(init, t);
      forall x | x in g
        ensures x.id != docs[n].id
      {
        var i :| 0 <= i < n && init[i] == x;
        assert docs[i] == x;
      }
    }
  }
}
