/**
 * The Maya publish validator that requires a mesh's default UV set (the set
 * at index 0) to be named "map1", and its repair.  The `polyUVSet` queries
 * are the lists of set indices and set names; the renames update a mesh's
 * index-to-name assignment.
 */
module ValidateMeshUvSetMap1 {
  import opened Wrappers
  import opened Text
  import PyDict

  /** What the two `polyUVSet` queries return for one mesh. */
  datatype UvQuery = UvQuery(mesh: string, indices: seq<int>, names: seq<string>)

  /** `mapping[0]` raising `KeyError`: the mesh has sets but none at index 0. */
  datatype UvError = MissingIndexZero(mesh: string)

  function ZipLength(indices: seq<int>, names: seq<string>): nat
  {
    if |indices| < |names| then |indices| else |names|
  }

  /** Lookup in `dict(zip(indices, names))` among the first `n` pairs: a later pair overrides an earlier one. */
  function ZipLookupUpTo(indices: seq<int>, names: seq<string>, n: nat, key: int): Option<string>
    requires n <= ZipLength(indices, names)
  {
    if n == 0 then None
    else if indices[n - 1] == key then Some(names[n - 1])
    else ZipLookupUpTo(indices, names, n - 1, key)
  }

  /** `dict(zip(indices, names)).get(key)` */
  function ZipLookup(indices: seq<int>, names: seq<string>, key: int): Option<string>
  {
    ZipLookupUpTo(indices, names, ZipLength(indices, names), key)
  }

  /** The zipped dict has `key` iff some zipped pair carries it, and then holds the name of the last such pair. */
  lemma {:induction false} ZipLookupUpToSpec(indices: seq<int>, names: seq<string>, n: nat, key: int)
    requires n <= ZipLength(indices, names)
    ensures ZipLookupUpTo(indices, names, n, key).None? <==> forall k :: 0 <= k < n ==> indices[k] != key
    ensures ZipLookupUpTo(indices, names, n, key).Some? ==>
      exists k :: 0 <= k < n && indices[k] == key && ZipLookupUpTo(indices, names, n, key) == Some(names[k])
        && forall j :: k < j < n ==> indices[j] != key
  {
    if n > 0 && indices[n - 1] != key {
      ZipLookupUpToSpec(indices, names, n - 1, key);
    }
  }

  /**
   * The decision of `get_invalid` for one mesh: `Success(true)` when the
   * mesh is invalid (it has no sets, or its index-0 set is not "map1"),
   * `Failure` when it has sets but none at index 0.
   */
  function IsInvalid(q: UvQuery): Result<bool, UvError>
  {
    if q.indices == [] || q.names == [] then Success(true)
    else match ZipLookup(q.indices, q.names, 0)
      case None => Failure(MissingIndexZero(q.mesh))
      case Some(name) => Success(name != "map1")
  }

  /** A mesh without UV sets is invalid; otherwise it is valid iff the name zipped with index 0 is "map1". */
  lemma IsInvalidRule(q: UvQuery)
    ensures q.indices == [] || q.names == [] ==> IsInvalid(q) == Success(true)
    ensures q.indices != [] && q.names != [] ==>
      (IsInvalid(q).Failure? <==> forall k :: 0 <= k < ZipLength(q.indices, q.names) ==> q.indices[k] != 0)
    ensures q.indices != [] && q.names != [] ==>
      (IsInvalid(q) == Success(false) <==>
        exists k :: 0 <= k < ZipLength(q.indices, q.names) && q.indices[k] == 0 && q.names[k] == "map1"
          && forall j :: k < j < ZipLength(q.indices, q.names) ==> q.indices[j] != 0)
  {
    ZipLookupUpToSpec(q.indices, q.names, ZipLength(q.indices, q.names), 0);
    if q.indices != [] && q.names != [] {
      var n := ZipLength(q.indices, q.names);
      if exists k :: 0 <= k < n && q.indices[k] == 0 && q.names[k] == "map1" && forall j :: k < j < n ==> q.indices[j] != 0 {
        var k :| 0 <= k < n && q.indices[k] == 0 && q.names[k] == "map1" && forall j :: k < j < n ==> q.indices[j] != 0;
        var k' :| 0 <= k' < n && q.indices[k'] == 0 && ZipLookup(q.indices, q.names, 0) == Some(q.names[k'])
          && forall j :: k' < j < n ==> q.indices[j] != 0;
        assert k == k';
      }
    }
  }

  /** The list `get_invalid` builds, mesh by mesh; the first `KeyError` aborts it. */
  function InvalidMeshes(qs: seq<UvQuery>): Result<seq<string>, UvError>
  {
    if qs == [] then Success([])
    else match InvalidMeshes(qs[..|qs| - 1])
      case Failure(e) => Failure(e)
      case Success(acc) =>
        match IsInvalid(qs[|qs| - 1])
        case Failure(e) => Failure(e)
        case Success(bad) => Success(if bad then acc + [qs[|qs| - 1].mesh] else acc)
  }

  /**
   * `get_invalid` succeeds iff every mesh's decision does, and then lists
   * exactly the meshes decided invalid.
   */
  lemma {:induction false} InvalidMeshesSpec(qs: seq<UvQuery>)
    ensures InvalidMeshes(qs).Success? <==> forall i :: 0 <= i < |qs| ==> IsInvalid(qs[i]).Success?
    ensures InvalidMeshes(qs).Success? ==>
      (forall i :: 0 <= i < |qs| && IsInvalid(qs[i]) == Success(true) ==> qs[i].mesh in InvalidMeshes(qs).value)
    ensures InvalidMeshes(qs).Success? ==>
      (forall m :: m in InvalidMeshes(qs).value ==>
        exists i :: 0 <= i < |qs| && qs[i].mesh == m && IsInvalid(qs[i]) == Success(true))
    ensures InvalidMeshes(qs).Success? ==> |InvalidMeshes(qs).value| <= |qs|
  {
    if qs != [] {
      var init := qs[..|qs| - 1];
      InvalidMeshesSpec(init);
      assert forall i :: 0 <= i < |init| ==> init[i] == qs[i];
    }
  }

  /** When every mesh passes, `get_invalid` returns the empty list. */
  lemma {:induction false} NoneInvalid(qs: seq<UvQuery>)
    requires forall i :: 0 <= i < |qs| ==> IsInvalid(qs[i]) == Success(false)
    ensures InvalidMeshes(qs) == Success([])
  {
    if qs != [] {
      var init := qs[..|qs| - 1];
      assert forall i :: 0 <= i < |init| ==> init[i] == qs[i];
      NoneInvalid(init);
    }
  }

  /** Once a prefix fails, the whole list fails with the same error. */
  lemma {:induction false} InvalidMeshesPrefixFailure(qs: seq<UvQuery>, k: nat)
    requires k <= |qs| && InvalidMeshes(qs[..k]).Failure?
    ensures InvalidMeshes(qs) == InvalidMeshes(qs[..k])
    decreases |qs| - k
  {
    if k < |qs| {
      assert qs[..k + 1][..k] == qs[..k];
      InvalidMeshesPrefixFailure(qs, k + 1);
    } else {
      assert qs[..k] == qs;
    }
  }

  /** `get_invalid`: the loop that appends every invalid mesh. */
  method GetInvalid(qs: seq<UvQuery>) returns (r: Result<seq<string>, UvError>)
    ensures r == InvalidMeshes(qs)
  {
    var invalid: seq<string> := [];
    var i := 0;
    while i < |qs|
      invariant 0 <= i <= |qs|
      invariant InvalidMeshes(qs[..i]) == Success(invalid)
    {
      assert qs[..i + 1][..i] == qs[..i];
      var q := qs[i];
      var decision := IsInvalid(q);
      if decision.Failure? {
        InvalidMeshesPrefixFailure(qs, i + 1);
        return Failure(decision.error);
      }
      if decision.value {
        invalid := invalid + [q.mesh];
      }
      i := i + 1;
    }
    assert qs[..|qs|] == qs;
    r := Success(invalid);
  }

  // ---------------------------------------------------------------------
  // repair

  /** `"map{0}".format(i)` */
  function MapName(i: nat): string
  {
    "map" + NatStr(i)
  }

  /** The length of the longest name in a set. */
  ghost function MaxLength(names: set<string>): (m: nat)
    ensures forall x :: x in names ==> |x| <= m
    decreases names
  {
    if names == {} then 0
    else
      var x :| x in names;
      var rest := MaxLength(names - {x});
      if |x| > rest then |x| else rest
  }

  /** A name of `"map{i}"` longer than every existing name is free. */
  lemma LongMapNameIsFree(existing: set<string>, i: nat)
    requires i >= Pow10(MaxLength(existing))
    ensures MapName(i) !in existing
  {
    NatStrLength(i, MaxLength(existing));
  }

  /**
   * The unique-name loop of `repair`: the smallest `i >= 2` whose
   * `"map{i}"` is not an existing set name.  It always stops, and the name
   * it finds is new and is not "map1".
   */
  method FreshMapName(existing: set<string>) returns (i: nat, name: string)
    ensures i >= 2 && name == MapName(i)
    ensures name !in existing
    ensures forall j :: 2 <= j < i ==> MapName(j) in existing
    ensures name != "map1"
  {
    ghost var bound := Pow10(MaxLength(existing)) + 2;
    i := 2;
    name := MapName(i);
    while name in existing
      invariant 2 <= i <= bound
      invariant name == MapName(i)
      invariant forall j :: 2 <= j < i ==> MapName(j) in existing
      decreases bound - i
    {
      if i >= Pow10(MaxLength(existing)) {
        LongMapNameIsFree(existing, i);
      }
      i := i + 1;
      name := MapName(i);
    }
    if name == "map1" {
      assert name[3..] == NatStr(i);
      NatStrOne(i);
    }
  }

  /**
   * `name` is what the unique-name loop of `repair` picks for `names`: the
   * smallest `"map{i}"` with `i >= 2` that no set carries.
   */
  ghost predicate IsClashName(names: seq<string>, name: string)
  {
    && name !in names
    && name != "map1"
    && exists i: nat :: i >= 2 && name == MapName(i) && forall j :: 2 <= j < i ==> MapName(j) in names
  }

  /** There is only one such name, so the clash rename is determined by the names alone. */
  lemma ClashNameUnique(names: seq<string>, a: string, b: string)
    requires IsClashName(names, a) && IsClashName(names, b)
    ensures a == b
  {
    var ia: nat :| ia >= 2 && a == MapName(ia) && forall j :: 2 <= j < ia ==> MapName(j) in names;
    var ib: nat :| ib >= 2 && b == MapName(ib) && forall j :: 2 <= j < ib ==> MapName(j) in names;
    if ia != ib {
      assert false;
    }
  }

  /** The names after `polyUVSet(rename=True, uvSet=from, newUVSet=to)`. */
  function Renamed(names: seq<string>, from: string, to: string): (r: seq<string>)
    ensures |r| == |names|
  {
    seq(|names|, k requires 0 <= k < |names| => if names[k] == from then to else names[k])
  }

  /** A mesh's UV sets as Maya holds them: parallel lists of distinct indices and distinct names. */
  class UvMesh {
    const mesh: string
    var indices: seq<int>
    var names: seq<string>

    ghost predicate Valid()
      reads this
    {
      && |indices| == |names|
      && PyDict.Distinct(indices)
      && PyDict.Distinct(names)
    }

    function Query(): UvQuery
      reads this
    {
      UvQuery(mesh, indices, names)
    }

    constructor (mesh: string, indices: seq<int>, names: seq<string>)
      requires |indices| == |names| && PyDict.Distinct(indices) && PyDict.Distinct(names)
      ensures Valid() && this.mesh == mesh && this.indices == indices && this.names == names
    {
      this.mesh := mesh;
      this.indices := indices;
      this.names := names;
    }

    /** `polyUVSet(rename=True, uvSet=from, newUVSet=to)` */
    method Rename(from: string, to: string)
      requires Valid() && from in names && to !in names
      modifies this
      ensures Valid() && indices == old(indices)
      ensures names == Renamed(old(names), from, to)
    {
      names := Renamed(names, from, to);
    }

    /** `polyUVSet(create=True, uvSet=name)` on a mesh without sets: the new set becomes the default one. */
    method Create(name: string)
      requires Valid() && indices == []
      modifies this
      ensures Valid() && indices == [0] && names == [name]
    {
      indices := [0];
      names := [name];
    }
  }

  /** With distinct indices, the zipped dict maps an index to the name at its position. */
  lemma ZipLookupDistinct(indices: seq<int>, names: seq<string>, p: int)
    requires |indices| == |names| && PyDict.Distinct(indices) && 0 <= p < |indices|
    ensures ZipLookup(indices, names, indices[p]) == Some(names[p])
  {
    ZipLookupUpToSpec(indices, names, |indices|, indices[p]);
  }

  /**
   * The names after the two renames of a repair: the optional clash rename
   * of "map1" to a fresh name, then the rename of the index-0 set to "map1".
   */
  function RenamedTwice(names: seq<string>, original: string, clash: Option<string>): (r: seq<string>)
    ensures |r| == |names|
  {
    var afterClash := if clash.Some? then Renamed(names, "map1", clash.value) else names;
    Renamed(afterClash, original, "map1")
  }

  /**
   * After the two renames, the index-0 set is "map1", the former "map1"
   * carries the fresh name, every other set keeps its name, and the names
   * stay distinct.
   */
  lemma RenamedTwiceNames(indices: seq<int>, names: seq<string>, p: int, clash: Option<string>)
    requires |indices| == |names| && PyDict.Distinct(indices) && PyDict.Distinct(names)
    requires 0 <= p < |names| && indices[p] == 0 && names[p] != "map1"
    requires clash.Some? <==> "map1" in names
    requires clash.Some? ==> clash.value !in names && clash.value != "map1"
    ensures PyDict.Distinct(RenamedTwice(names, names[p], clash))
    ensures forall k :: 0 <= k < |names| ==>
      RenamedTwice(names, names[p], clash)[k] == (if indices[k] == 0 then "map1"
                                                 else if names[k] == "map1" then clash.value
                                                 else names[k])
  {
    var r := RenamedTwice(names, names[p], clash);
    forall k | 0 <= k < |names|
      ensures r[k] == (if indices[k] == 0 then "map1" else if names[k] == "map1" then clash.value else names[k])
    {
      if indices[k] == 0 {
        assert indices[k] == indices[p];
      } else {
        assert k != p;
        assert names[k] != names[p];
      }
    }
  }

  /**
   * The first step of `repair` for a mesh with sets: a set already called
   * "map1" is renamed to the first "mapN" (N >= 2) not in use; the names of
   * the other sets do not change.
   */
  method FreeMap1(m: UvMesh) returns (clash: Option<string>)
    requires m.Valid()
    modifies m
    ensures m.Valid() && m.indices == old(m.indices)
    ensures clash.Some? <==> "map1" in old(m.names)
    ensures clash.Some? ==> clash.value !in old(m.names) && clash.value != "map1"
                            && exists i :: i >= 2 && clash.value == MapName(i)
                                           && forall j :: 2 <= j < i ==> MapName(j) in old(m.names)
    ensures m.names == if clash.Some? then Renamed(old(m.names), "map1", clash.value) else old(m.names)
  {
    var existing := set x | x in m.names;
    if "map1" in existing {
      var i, name := FreshMapName(existing);
      clash := Some(name);
      m.Rename("map1", name);
    } else {
      clash := None;
    }
  }

  /**
   * The branch of `repair` for a mesh that has sets: a set already called
   * "map1" is first renamed to the smallest free `"map{i}"` (returned as
   * `clash`), then the set at index 0 is renamed to "map1"; every other set
   * keeps its name.
   */
  method RenameDefaultToMap1(m: UvMesh) returns (clash: Option<string>)
    requires m.Valid() && m.indices != []
    requires IsInvalid(m.Query()) == Success(true)
    modifies m
    ensures m.Valid() && m.indices == old(m.indices)
    ensures ZipLookup(m.indices, m.names, 0) == Some("map1")
    ensures clash.Some? <==> "map1" in old(m.names)
    ensures clash.Some? ==> IsClashName(old(m.names), clash.value)
    ensures forall k :: 0 <= k < |m.names| ==>
      m.names[k] == (if m.indices[k] == 0 then "map1"
                     else if old(m.names)[k] == "map1" then clash.value
                     else old(m.names)[k])
  {
    ZipLookupUpToSpec(m.indices, m.names, |m.indices|, 0);
    var p :| 0 <= p < |m.indices| && m.indices[p] == 0 && ZipLookup(m.indices, m.names, 0) == Some(m.names[p]);
    var original := m.names[p];
    ghost var names0 := m.names;
    clash := FreeMap1(m);
    assert m.names[p] == original;
    m.Rename(original, "map1");
    assert m.names == RenamedTwice(names0, original, clash);
    RenamedTwiceNames(m.indices, names0, p, clash);
    ZipLookupDistinct(m.indices, m.names, p);
  }

  /**
   * The sets of a mesh after `repair` fixed it, given those before: a mesh
   * without sets has one `map1` set at index 0; otherwise the indices are
   * kept, the index-0 set is `map1`, a former `map1` carries the clash
   * name, and every other set keeps its name.
   */
  ghost predicate RepairedFrom(before: UvQuery, after: UvQuery)
  {
    if before.indices == [] then after.indices == [0] && after.names == ["map1"]
    else
      && after.indices == before.indices
      && |after.names| == |before.names| == |before.indices|
      && forall k :: 0 <= k < |after.names| ==>
           if after.indices[k] == 0 then after.names[k] == "map1"
           else if before.names[k] == "map1" then IsClashName(before.names, after.names[k])
           else after.names[k] == before.names[k]
  }

  /**
   * The body of `repair` for one invalid mesh: without sets it creates
   * "map1", otherwise it renames the default set to "map1".  The mesh then
   * passes the check.
   */
  method RepairMesh(m: UvMesh) returns (clash: Option<string>)
    requires m.Valid()
    requires IsInvalid(m.Query()) == Success(true)
    modifies m
    ensures m.Valid()
    ensures IsInvalid(m.Query()) == Success(false)
    ensures old(m.indices) == [] ==> m.indices == [0] && m.names == ["map1"] && clash.None?
    ensures old(m.indices) != [] ==> m.indices == old(m.indices)
    ensures clash.Some? <==> "map1" in old(m.names)
    ensures clash.Some? ==> IsClashName(old(m.names), clash.value)
    ensures old(m.indices) != [] ==> forall k :: 0 <= k < |m.names| ==>
      m.names[k] == (if m.indices[k] == 0 then "map1"
                     else if old(m.names)[k] == "map1" then clash.value
                     else old(m.names)[k])
    ensures RepairedFrom(old(m.Query()), m.Query())
  {
    if m.indices == [] {
      m.Create("map1");
      ZipLookupDistinct(m.indices, m.names, 0);
      return None;
    }
    clash := RenameDefaultToMap1(m);
  }

  /** The queries of a list of meshes, in order. */
  function Queries(meshes: seq<UvMesh>): (qs: seq<UvQuery>)
    reads meshes
    ensures |qs| == |meshes| && forall i :: 0 <= i < |meshes| ==> qs[i] == meshes[i].Query()
  {
    seq(|meshes|, i requires 0 <= i < |meshes| reads meshes => meshes[i].Query())
  }

  /** One step of the `repair` loop: an invalid mesh is repaired, a valid one is left alone. */
  method RepairIfInvalid(m: UvMesh)
    requires m.Valid() && IsInvalid(m.Query()).Success?
    modifies m
    ensures m.Valid() && IsInvalid(m.Query()) == Success(false)
    ensures old(IsInvalid(m.Query())) == Success(false) ==> m.Query() == old(m.Query())
    ensures old(IsInvalid(m.Query())) == Success(true) ==> RepairedFrom(old(m.Query()), m.Query())
  {
    if IsInvalid(m.Query()) == Success(true) {
      var _ := RepairMesh(m);
    }
  }

  /**
   * `repair`: a `KeyError` from `get_invalid` aborts it before any rename;
   * otherwise every invalid mesh is repaired, valid meshes are untouched,
   * and afterwards `get_invalid` returns the empty list.
   */
  method Repair(meshes: seq<UvMesh>) returns (r: Result<seq<string>, UvError>)
    requires forall i, j :: 0 <= i < j < |meshes| ==> meshes[i] != meshes[j]
    requires forall i :: 0 <= i < |meshes| ==> meshes[i].Valid()
    modifies meshes
    ensures r == old(InvalidMeshes(Queries(meshes)))
    ensures r.Failure? ==> forall i :: 0 <= i < |meshes| ==> meshes[i].Query() == old(meshes[i].Query())
    ensures r.Success? ==> forall i :: 0 <= i < |meshes| ==> meshes[i].Valid()
    ensures r.Success? ==> InvalidMeshes(Queries(meshes)) == Success([])
    ensures forall i :: 0 <= i < |meshes| && old(IsInvalid(meshes[i].Query())) == Success(false) ==>
      meshes[i].Query() == old(meshes[i].Query())
    ensures r.Success? ==> forall i :: 0 <= i < |meshes| && old(IsInvalid(meshes[i].Query())) == Success(true) ==>
      RepairedFrom(old(meshes[i].Query()), meshes[i].Query())
  {
    var before := Queries(meshes);
    r := GetInvalid(before);
    if r.Failure? {
      return;
    }
    InvalidMeshesSpec(before);
    for k := 0 to |meshes|
      invariant forall i :: 0 <= i < |meshes| ==> meshes[i].Valid()
      invariant forall i :: 0 <= i < k ==> IsInvalid(meshes[i].Query()) == Success(false)
      invariant forall i :: k <= i < |meshes| ==> meshes[i].Query() == before[i]
      invariant forall i :: 0 <= i < k && IsInvalid(before[i]) == Success(false) ==>
        meshes[i].Query() == before[i]
      invariant forall i :: 0 <= i < k && IsInvalid(before[i]) == Success(true) ==>
        RepairedFrom(before[i], meshes[i].Query())
    {
      label step:
      RepairIfInvalid(meshes[k]);
      forall i | 0 <= i < |meshes| && i != k
        ensures meshes[i].Query() == old@step(meshes[i].Query())
      {
        assert meshes[i] != meshes[k];
      }
    }
    NoneInvalid(Queries(meshes));
  }

  // ---------------------------------------------------------------------
  // process

  datatype ProcessOutcome =
    | Passed
    | ValidationFailed(invalid: seq<string>)   // PublishValidationError
    | LookupFailed(error: UvError)              // KeyError from get_invalid

  /** `process`: nothing when the plugin is inactive, otherwise it raises iff `get_invalid` finds a mesh. */
  method Process(active: bool, qs: seq<UvQuery>) returns (outcome: ProcessOutcome)
    ensures !active ==> outcome == Passed
    ensures active && InvalidMeshes(qs).Failure? ==> outcome == LookupFailed(InvalidMeshes(qs).error)
    ensures active && InvalidMeshes(qs).Success? ==>
      (outcome == Passed <==> InvalidMeshes(qs).value == [])
    ensures active && InvalidMeshes(qs).Success? && InvalidMeshes(qs).value != [] ==>
      outcome == ValidationFailed(InvalidMeshes(qs).value)
  {
    if !active {
      return Passed;
    }
    var invalid := GetInvalid(qs);
    if invalid.Failure? {
      return LookupFailed(invalid.error);
    }
    if invalid.value != [] {
      return ValidationFailed(invalid.value);
    }
    return Passed;
  }
}
