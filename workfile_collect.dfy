/**
 * `_collect_last_version_repres`: the representations of the last versions
 * of the folders' products, grouped folder -> product -> version.
 */
module WorkfileCollect {
  import opened Wrappers
  import PyDict
  import opened WorkfileTypes

  /** `{id_of(doc): doc for doc in docs}`: a later document with the same id wins. */
  function ById<T(==)>(docs: seq<T>, idOf: T -> Id): (m: map<Id, T>)
    ensures forall k :: k in m <==> exists d :: d in docs && idOf(d) == k
    ensures forall k :: k in m ==> idOf(m[k]) == k && m[k] in docs
  {
    if docs == [] then map[]
    else
      var last := docs[|docs| - 1];
      assert docs == docs[..|docs| - 1] + [last];
      ById(docs[..|docs| - 1], idOf)[idOf(last) := last]
  }

  function FolderId(d: FolderDoc): Id { d.id }
  function SubsetId(d: SubsetDoc): Id { d.id }
  function VersionId(d: VersionDoc): Id { d.id }

  /** The three id-keyed dicts the grouping looks documents up in. */
  datatype Lookups = Lookups(assets: map<Id, FolderDoc>, subsets: map<Id, SubsetDoc>, versions: map<Id, VersionDoc>)

  /** Where a representation goes: its folder and its product. */
  datatype Route = Route(folder: Id, product: Id)

  /**
   * The parent chain of a representation: version, product, folder.  A
   * missing link is the `KeyError` of the lookup that fails.
   */
  function Resolve(r: RepreDoc, l: Lookups): Result<Route, BuildError>
  {
    if r.parent !in l.versions then Failure(MissingEntity(r.parent))
    else
      var v := l.versions[r.parent];
      if v.parent !in l.subsets then Failure(MissingEntity(v.parent))
      else
        var s := l.subsets[v.parent];
        if s.parent !in l.assets then Failure(MissingEntity(s.parent))
        else Success(Route(s.parent, v.parent))
  }

  /** Every folder's product dict is a well-formed dict too. */
  ghost predicate WellFormed(out: PyDict.Dict<Id, FolderData>)
  {
    && PyDict.Valid(out)
    && forall f :: f in out.items ==> PyDict.Valid(out.items[f].subsets)
  }

  /** Appending `r` to product `p` of a folder's product dict, creating the entry on first use. */
  function AppendToProduct(subsets: PyDict.Dict<Id, ProductData>, p: Id, s: SubsetDoc, v: VersionDoc, r: RepreDoc)
    : (res: PyDict.Dict<Id, ProductData>)
    requires PyDict.Valid(subsets)
    ensures PyDict.Valid(res)
    ensures forall q :: q in res.items <==> q in subsets.items || q == p
    ensures forall q :: q in subsets.items && q != p ==> res.items[q] == subsets.items[q]
    ensures p in subsets.items ==> res.items[p] == subsets.items[p].(repres := subsets.items[p].repres + [r])
    ensures p !in subsets.items ==> res.items[p] == ProductData(s, v, [r])
  {
    var product := if p in subsets.items then subsets.items[p] else ProductData(s, v, []);
    PyDict.Put(subsets, p, product.(repres := product.repres + [r]))
  }

  /** One pass of the loop body: look the chain up, create the entries on first use, append. */
  function AddRepre(out: PyDict.Dict<Id, FolderData>, r: RepreDoc, l: Lookups): Result<PyDict.Dict<Id, FolderData>, BuildError>
    requires WellFormed(out)
  {
    match Resolve(r, l)
    case Failure(e) => Failure(e)
    case Success(route) =>
      var folder := if route.folder in out.items then out.items[route.folder] else FolderData(l.assets[route.folder], PyDict.Empty());
      var subsets := AppendToProduct(folder.subsets, route.product, l.subsets[route.product], l.versions[r.parent], r);
      Success(PyDict.Put(out, route.folder, folder.(subsets := subsets)))
  }

  /** The output after the first representations; the first unresolvable one raises. */
  function GroupRepres(repres: seq<RepreDoc>, l: Lookups): (r: Result<PyDict.Dict<Id, FolderData>, BuildError>)
    ensures r.Success? ==> WellFormed(r.value)
  {
    if repres == [] then Success(PyDict.Empty())
    else match GroupRepres(repres[..|repres| - 1], l)
      case Failure(e) => Failure(e)
      case Success(out) =>
        var r := AddRepre(out, repres[|repres| - 1], l);
        assert r.Success? ==> WellFormed(r.value);
        r
  }

  /** The lookups built from the folders and the answers of the queries. */
  function BuildLookups(assetDocs: seq<FolderDoc>, backend: Backend): (l: Lookups)
    ensures forall k :: k in l.assets ==> l.assets[k].id == k && l.assets[k] in assetDocs
    ensures forall k :: k in assetDocs ==> k.id in l.assets
    ensures forall k :: k in l.subsets ==> l.subsets[k].id == k
    ensures forall k :: k in l.versions ==> l.versions[k].id == k
  {
    var assets := ById(assetDocs, FolderId);
    var subsets := ById(backend.subsetsOf(assets.Keys), SubsetId);
    var versions := ById(backend.lastVersionsOf(subsets.Keys), VersionId);
    Lookups(assets, subsets, versions)
  }

  /** What `_collect_last_version_repres` returns. */
  function LastVersionRepres(assetDocs: seq<FolderDoc>, backend: Backend): Result<PyDict.Dict<Id, FolderData>, BuildError>
  {
    if assetDocs == [] then Success(PyDict.Empty())
    else
      var l := BuildLookups(assetDocs, backend);
      GroupRepres(backend.represOf(l.versions.Keys), l)
  }

  /** A failure while grouping a prefix is the failure of the whole grouping. */
  lemma {:induction false} GroupRepresPrefixFailure(repres: seq<RepreDoc>, l: Lookups, k: nat)
    requires k <= |repres| && GroupRepres(repres[..k], l).Failure?
    ensures GroupRepres(repres, l) == GroupRepres(repres[..k], l)
    decreases |repres| - k
  {
    if k < |repres| {
      assert repres[..k + 1][..k] == repres[..k];
      GroupRepresPrefixFailure(repres, l, k + 1);
    } else {
      assert repres[..k] == repres;
    }
  }

  /** The body of the grouping loop for one representation. */
  method AddRepreDoc(output: PyDict.Dict<Id, FolderData>, repreDoc: RepreDoc, l: Lookups)
    returns (r: Result<PyDict.Dict<Id, FolderData>, BuildError>)
    requires WellFormed(output)
    ensures r == AddRepre(output, repreDoc, l)
  {
    var versionId := repreDoc.parent;
    if versionId !in l.versions {
      return Failure(MissingEntity(versionId));
    }
    var versionDoc := l.versions[versionId];
    var productId := versionDoc.parent;
    if productId !in l.subsets {
      return Failure(MissingEntity(productId));
    }
    var subsetDoc := l.subsets[productId];
    var folderId := subsetDoc.parent;
    if folderId !in l.assets {
      return Failure(MissingEntity(folderId));
    }
    var assetDoc := l.assets[folderId];
    var folder := if folderId in output.items then output.items[folderId] else FolderData(assetDoc, PyDict.Empty());
    var product := if productId in folder.subsets.items then folder.subsets.items[productId]
                   else ProductData(subsetDoc, versionDoc, []);
    folder := folder.(subsets := PyDict.Put(folder.subsets, productId, product.(repres := product.repres + [repreDoc])));
    return Success(PyDict.Put(output, folderId, folder));
  }

  /** One more representation after a successful prefix is one more pass of the loop body. */
  lemma GroupRepresPrefixStep(repres: seq<RepreDoc>, i: nat, l: Lookups)
    requires i < |repres| && GroupRepres(repres[..i], l).Success?
    ensures GroupRepres(repres[..i + 1], l) == AddRepre(GroupRepres(repres[..i], l).value, repres[i], l)
  {
    assert repres[..i + 1][..i] == repres[..i];
  }

  /** The grouping loop over the queried representations. */
  method GroupRepreDocs(repreDocs: seq<RepreDoc>, l: Lookups) returns (r: Result<PyDict.Dict<Id, FolderData>, BuildError>)
    ensures r == GroupRepres(repreDocs, l)
  {
    var output := PyDict.Empty();
    for i := 0 to |repreDocs|
      invariant GroupRepres(repreDocs[..i], l) == Success(output)
    {
      GroupRepresPrefixStep(repreDocs, i, l);
      var step := AddRepreDoc(output, repreDocs[i], l);
      if step.Failure? {
        GroupRepresPrefixFailure(repreDocs, l, i + 1);
        return Failure(step.error);
      }
      output := step.value;
    }
    assert repreDocs[..|repreDocs|] == repreDocs;
    return Success(output);
  }

  /** `_collect_last_version_repres`: nothing for no folders, otherwise the queries and the grouping loop. */
  method CollectLastVersionRepres(assetDocs: seq<FolderDoc>, backend: Backend)
    returns (r: Result<PyDict.Dict<Id, FolderData>, BuildError>)
    ensures r == LastVersionRepres(assetDocs, backend)
    ensures assetDocs == [] ==> r.Success? && r.value.keys == [] && r.value.items == map[]
  {
    if assetDocs == [] {
      return Success(PyDict.Empty());
    }
    var l := BuildLookups(assetDocs, backend);
    var repreDocs := backend.represOf(l.versions.Keys);
    r := GroupRepreDocs(repreDocs, l);
  }

  /** Some representation resolves into folder `f`. */
  predicate ReachesFolder(repres: seq<RepreDoc>, l: Lookups, f: Id)
  {
    exists r :: r in repres && Resolve(r, l).Success? && Resolve(r, l).value.folder == f
  }

  /** The representations, in query order, that resolve to product `p` of folder `f`. */
  function RoutedTo(repres: seq<RepreDoc>, l: Lookups, f: Id, p: Id): seq<RepreDoc>
  {
    if repres == [] then []
    else
      var last := repres[|repres| - 1];
      RoutedTo(repres[..|repres| - 1], l, f, p) + (if Resolve(last, l) == Success(Route(f, p)) then [last] else [])
  }

  /** One pass of the loop body, seen from folder `f`. */
  lemma AddRepreFolder(out: PyDict.Dict<Id, FolderData>, r: RepreDoc, l: Lookups, f: Id)
    requires WellFormed(out) && AddRepre(out, r, l).Success?
    ensures Resolve(r, l).Success?
    ensures f in AddRepre(out, r, l).value.items <==> f in out.items || Resolve(r, l).value.folder == f
    ensures f in out.items ==> AddRepre(out, r, l).value.items[f].assetDoc == out.items[f].assetDoc
    ensures f !in out.items && Resolve(r, l).value.folder == f ==>
              f in l.assets && AddRepre(out, r, l).value.items[f].assetDoc == l.assets[f]
  {
  }

  /** One pass of the loop body replaces the entry of the folder the representation resolves to. */
  lemma AddRepreAt(out: PyDict.Dict<Id, FolderData>, r: RepreDoc, l: Lookups)
    requires WellFormed(out) && AddRepre(out, r, l).Success?
    ensures Resolve(r, l).Success?
    ensures var route := Resolve(r, l).value;
            && route.folder in l.assets && route.product in l.subsets && r.parent in l.versions
            && var folder := if route.folder in out.items then out.items[route.folder]
                             else FolderData(l.assets[route.folder], PyDict.Empty());
               AddRepre(out, r, l).value.items
               == out.items[route.folder := folder.(subsets := AppendToProduct(folder.subsets, route.product,
                                                                                l.subsets[route.product],
                                                                                l.versions[r.parent], r))]
  {
  }

  /** One pass of the loop body, seen from product `p` of folder `f`. */
  lemma AddRepreProduct(out: PyDict.Dict<Id, FolderData>, r: RepreDoc, l: Lookups, f: Id, p: Id)
    requires WellFormed(out) && AddRepre(out, r, l).Success?
    requires f in AddRepre(out, r, l).value.items
    ensures Resolve(r, l).Success?
    ensures p in AddRepre(out, r, l).value.items[f].subsets.items <==>
            (f in out.items && p in out.items[f].subsets.items) || Resolve(r, l).value == Route(f, p)
    ensures f in out.items && p in out.items[f].subsets.items ==>
              AddRepre(out, r, l).value.items[f].subsets.items[p]
              == out.items[f].subsets.items[p].(repres := out.items[f].subsets.items[p].repres
                                                          + (if Resolve(r, l).value == Route(f, p) then [r] else []))
    ensures !(f in out.items && p in out.items[f].subsets.items) && Resolve(r, l).value == Route(f, p) ==>
              && p in l.subsets && r.parent in l.versions
              && AddRepre(out, r, l).value.items[f].subsets.items[p] == ProductData(l.subsets[p], l.versions[r.parent], [r])
  {
    AddRepreAt(out, r, l);
    var route := Resolve(r, l).value;
    var out' := AddRepre(out, r, l).value;
    if route.folder != f {
      assert out'.items[f] == out.items[f];
    } else {
      var folder := if f in out.items then out.items[f] else FolderData(l.assets[f], PyDict.Empty());
      var subsets := AppendToProduct(folder.subsets, route.product, l.subsets[route.product], l.versions[r.parent], r);
      assert out'.items[f].subsets == subsets;
      assert f !in out.items ==> folder.subsets.items == map[];
      if p == route.product {
        if p in folder.subsets.items {
          assert subsets.items[p] == folder.subsets.items[p].(repres := folder.subsets.items[p].repres + [r]);
        } else {
          assert subsets.items[p] == ProductData(l.subsets[p], l.versions[r.parent], [r]);
        }
      } else if p in folder.subsets.items {
        assert subsets.items[p] == folder.subsets.items[p];
      } else {
        assert p !in subsets.items;
      }
    }
  }

  /** How folder `f` looks in `out` after the representations `repres`. */
  ghost predicate FolderEntry(out: PyDict.Dict<Id, FolderData>, repres: seq<RepreDoc>, l: Lookups, f: Id)
  {
    && (f in out.items <==> ReachesFolder(repres, l, f))
    && (f in out.items ==> f in l.assets && out.items[f].assetDoc == l.assets[f])
  }

  /** One pass of the loop body keeps the description of folder `f` up to date. */
  lemma AddRepreKeepsFolder(out: PyDict.Dict<Id, FolderData>, repres: seq<RepreDoc>, l: Lookups, f: Id)
    requires repres != [] && WellFormed(out) && AddRepre(out, repres[|repres| - 1], l).Success?
    requires FolderEntry(out, repres[..|repres| - 1], l, f)
    ensures FolderEntry(AddRepre(out, repres[|repres| - 1], l).value, repres, l, f)
  {
    AddRepreFolder(out, repres[|repres| - 1], l, f);
    ReachesFolderSplit(repres, l, f);
  }

  lemma ReachesFolderSplit(repres: seq<RepreDoc>, l: Lookups, f: Id)
    requires repres != []
    ensures var last := repres[|repres| - 1];
            ReachesFolder(repres, l, f)
            <==> ReachesFolder(repres[..|repres| - 1], l, f) || (Resolve(last, l).Success? && Resolve(last, l).value.folder == f)
  {
    var n := |repres| - 1;
    assert repres == repres[..n] + [repres[n]];
  }

  /**
   * The grouping, folder by folder: a folder appears iff a representation
   * reaches it, with the folder document found for its id.
   */
  lemma {:induction false} GroupRepresFolder(repres: seq<RepreDoc>, l: Lookups, f: Id)
    requires GroupRepres(repres, l).Success?
    ensures f in GroupRepres(repres, l).value.items <==> ReachesFolder(repres, l, f)
    ensures f in GroupRepres(repres, l).value.items ==>
              f in l.assets && GroupRepres(repres, l).value.items[f].assetDoc == l.assets[f]
  {
    if repres != [] {
      var n := |repres| - 1;
      var init := repres[..n];
      GroupRepresLast(repres, l);
      GroupRepresFolder(init, l, f);
      AddRepreKeepsFolder(GroupRepres(init, l).value, repres, l, f);
    }
  }

  /** How product `p` of folder `f` looks in `out` after the representations `repres`. */
  ghost predicate ProductEntry(out: PyDict.Dict<Id, FolderData>, repres: seq<RepreDoc>, l: Lookups, f: Id, p: Id)
  {
    && (f !in out.items ==> RoutedTo(repres, l, f, p) == [])
    && (f in out.items ==> (p in out.items[f].subsets.items <==> RoutedTo(repres, l, f, p) != []))
    && (f in out.items && RoutedTo(repres, l, f, p) != [] ==>
          && p in out.items[f].subsets.items
          && p in l.subsets && RoutedTo(repres, l, f, p)[0].parent in l.versions
          && out.items[f].subsets.items[p]
             == ProductData(l.subsets[p], l.versions[RoutedTo(repres, l, f, p)[0].parent], RoutedTo(repres, l, f, p)))
  }

  /** One pass of the loop body keeps the description of product `p` of folder `f` up to date. */
  lemma AddRepreKeepsEntry(out: PyDict.Dict<Id, FolderData>, repres: seq<RepreDoc>, l: Lookups, f: Id, p: Id)
    requires repres != [] && WellFormed(out) && AddRepre(out, repres[|repres| - 1], l).Success?
    requires ProductEntry(out, repres[..|repres| - 1], l, f, p)
    ensures ProductEntry(AddRepre(out, repres[|repres| - 1], l).value, repres, l, f, p)
  {
    var r := repres[|repres| - 1];
    RoutedToLast(repres, l, f, p);
    AddRepreFolder(out, r, l, f);
    if f in AddRepre(out, r, l).value.items {
      AddRepreProduct(out, r, l, f, p);
    }
  }

  /** The representations routed to a product, one more representation later. */
  lemma RoutedToLast(repres: seq<RepreDoc>, l: Lookups, f: Id, p: Id)
    requires repres != []
    ensures var n := |repres| - 1;
            var prev := RoutedTo(repres[..n], l, f, p);
            && RoutedTo(repres, l, f, p) == prev + (if Resolve(repres[n], l) == Success(Route(f, p)) then [repres[n]] else [])
            && (prev != [] ==> RoutedTo(repres, l, f, p)[0] == prev[0])
  {
  }

  /** `ProductEntry` holds of the grouping for every folder and product. */
  lemma {:induction false} GroupRepresEntry(repres: seq<RepreDoc>, l: Lookups, f: Id, p: Id)
    requires GroupRepres(repres, l).Success?
    ensures ProductEntry(GroupRepres(repres, l).value, repres, l, f, p)
  {
    if repres != [] {
      var n := |repres| - 1;
      var init := repres[..n];
      GroupRepresLast(repres, l);
      GroupRepresEntry(init, l, f, p);
      AddRepreKeepsEntry(GroupRepres(init, l).value, repres, l, f, p);
    }
  }

  /**
   * The grouping, product by product: within a folder that appears, a
   * product appears iff a representation is routed to it, and it holds
   * exactly those representations, in query order, with the product
   * document found for its id and the version of its first representation.
   */
  lemma GroupRepresProduct(repres: seq<RepreDoc>, l: Lookups, f: Id, p: Id)
    requires GroupRepres(repres, l).Success? && f in GroupRepres(repres, l).value.items
    ensures p in GroupRepres(repres, l).value.items[f].subsets.items <==> RoutedTo(repres, l, f, p) != []
    ensures RoutedTo(repres, l, f, p) != [] ==>
              && p in GroupRepres(repres, l).value.items[f].subsets.items
              && p in l.subsets && RoutedTo(repres, l, f, p)[0].parent in l.versions
              && GroupRepres(repres, l).value.items[f].subsets.items[p]
                 == ProductData(l.subsets[p], l.versions[RoutedTo(repres, l, f, p)[0].parent], RoutedTo(repres, l, f, p))
  {
    GroupRepresEntry(repres, l, f, p);
  }

  /** Every representation of the query is in the output, exactly where its parent chain leads. */
  lemma RoutedToMembers(repres: seq<RepreDoc>, l: Lookups, f: Id, p: Id)
    ensures forall r :: r in RoutedTo(repres, l, f, p) <==> r in repres && Resolve(r, l) == Success(Route(f, p))
  {
    if repres != [] {
      var n := |repres| - 1;
      assert repres == repres[..n] + [repres[n]];
      RoutedToMembers(repres[..n], l, f, p);
    }
  }

  /** One pass of the loop body raises exactly when the parent chain breaks. */
  lemma AddRepreFailure(out: PyDict.Dict<Id, FolderData>, r: RepreDoc, l: Lookups)
    requires WellFormed(out)
    ensures AddRepre(out, r, l).Failure? <==> Resolve(r, l).Failure?
    ensures Resolve(r, l).Failure? ==> AddRepre(out, r, l).error == Resolve(r, l).error
  {
  }

  /** A successful grouping is the grouping of all but the last representation, plus the last one. */
  lemma GroupRepresLast(repres: seq<RepreDoc>, l: Lookups)
    requires repres != [] && GroupRepres(repres, l).Success?
    ensures GroupRepres(repres[..|repres| - 1], l).Success?
    ensures GroupRepres(repres, l) == AddRepre(GroupRepres(repres[..|repres| - 1], l).value, repres[|repres| - 1], l)
  {
  }

  /** One more representation: the grouping goes on succeeding iff its parent chain is complete. */
  lemma GroupRepresStep(repres: seq<RepreDoc>, l: Lookups)
    requires repres != []
    ensures GroupRepres(repres, l).Success?
            <==> GroupRepres(repres[..|repres| - 1], l).Success? && Resolve(repres[|repres| - 1], l).Success?
  {
    var g := GroupRepres(repres[..|repres| - 1], l);
    if g.Success? {
      AddRepreFailure(g.value, repres[|repres| - 1], l);
    }
  }

  /** Every representation's parent chain is complete. */
  predicate AllResolve(repres: seq<RepreDoc>, l: Lookups)
  {
    forall i :: 0 <= i < |repres| ==> Resolve(repres[i], l).Success?
  }

  lemma AllResolveSplit(repres: seq<RepreDoc>, l: Lookups)
    requires repres != []
    ensures AllResolve(repres, l)
            <==> AllResolve(repres[..|repres| - 1], l) && Resolve(repres[|repres| - 1], l).Success?
  {
    var n := |repres| - 1;
    assert forall j :: 0 <= j < n ==> repres[..n][j] == repres[j];
  }

  /** The grouping succeeds iff every representation's parent chain is complete. */
  lemma {:induction false} GroupRepresSuccess(repres: seq<RepreDoc>, l: Lookups)
    ensures GroupRepres(repres, l).Success? <==> AllResolve(repres, l)
  {
    if repres != [] {
      GroupRepresStep(repres, l);
      GroupRepresSuccess(repres[..|repres| - 1], l);
      AllResolveSplit(repres, l);
    }
  }

  /** A failing grouping raises the error of the first broken parent chain. */
  lemma {:induction false} GroupRepresFailure(repres: seq<RepreDoc>, l: Lookups)
    requires GroupRepres(repres, l).Failure?
    ensures exists i :: 0 <= i < |repres| && Resolve(repres[i], l) == Failure(GroupRepres(repres, l).error)
                        && forall j :: 0 <= j < i ==> Resolve(repres[j], l).Success?
  {
    var n := |repres| - 1;
    var init := repres[..n];
    assert repres == init + [repres[n]];
    assert forall j :: 0 <= j < n ==> repres[j] == init[j];
    if GroupRepres(init, l).Failure? {
      GroupRepresFailure(init, l);
      var i :| 0 <= i < n && Resolve(init[i], l) == Failure(GroupRepres(init, l).error)
               && forall j :: 0 <= j < i ==> Resolve(init[j], l).Success?;
      assert repres[i] == init[i];
    } else {
      GroupRepresSuccess(init, l);
      AddRepreFailure(GroupRepres(init, l).value, repres[n], l);
    }
  }

  /** A grouped product sits under its own id, with a version of that product. */
  lemma GroupedProductKeyed(repres: seq<RepreDoc>, l: Lookups, f: Id, p: Id)
    requires forall k :: k in l.subsets ==> l.subsets[k].id == k
    requires forall k :: k in l.versions ==> l.versions[k].id == k
    requires GroupRepres(repres, l).Success? && f in GroupRepres(repres, l).value.items
    requires p in GroupRepres(repres, l).value.items[f].subsets.items
    ensures GroupRepres(repres, l).value.items[f].subsets.items[p].subsetDoc.id == p
    ensures GroupRepres(repres, l).value.items[f].subsets.items[p].versionDoc.parent == p
    ensures GroupRepres(repres, l).value.items[f].subsets.items[p].versionDoc.id in l.versions
    ensures GroupRepres(repres, l).value.items[f].subsets.items[p].versionDoc
            == l.versions[GroupRepres(repres, l).value.items[f].subsets.items[p].versionDoc.id]
  {
    GroupRepresProduct(repres, l, f, p);
    RoutedToMembers(repres, l, f, p);
    assert RoutedTo(repres, l, f, p)[0] in RoutedTo(repres, l, f, p);
  }

  /** A grouped folder sits under its own id and its products are keyed by their own ids. */
  lemma GroupedFolderKeyed(repres: seq<RepreDoc>, l: Lookups, f: Id)
    requires forall k :: k in l.assets ==> l.assets[k].id == k
    requires forall k :: k in l.subsets ==> l.subsets[k].id == k
    requires forall k :: k in l.versions ==> l.versions[k].id == k
    requires GroupRepres(repres, l).Success? && f in GroupRepres(repres, l).value.items
    ensures GroupRepres(repres, l).value.items[f].assetDoc.id == f
    ensures ProductsKeyed(GroupRepres(repres, l).value.items[f])
  {
    GroupRepresFolder(repres, l, f);
    var subsets := GroupRepres(repres, l).value.items[f].subsets.items;
    forall p | p in subsets
      ensures subsets[p].subsetDoc.id == p && subsets[p].versionDoc.parent == p
      ensures subsets[p].versionDoc.id in l.versions && subsets[p].versionDoc == l.versions[subsets[p].versionDoc.id]
    {
      GroupedProductKeyed(repres, l, f, p);
    }
  }

  /**
   * What the builder relies on: every collected folder sits under its own
   * id, and each of its products under the product's own id with a version
   * of that product.
   */
  lemma CollectedFoldersKeyed(assetDocs: seq<FolderDoc>, backend: Backend)
    requires LastVersionRepres(assetDocs, backend).Success?
    ensures PyDict.Valid(LastVersionRepres(assetDocs, backend).value)
    ensures forall f :: f in LastVersionRepres(assetDocs, backend).value.items ==>
              && LastVersionRepres(assetDocs, backend).value.items[f].assetDoc.id == f
              && ProductsKeyed(LastVersionRepres(assetDocs, backend).value.items[f])
  {
    if assetDocs != [] {
      var l := BuildLookups(assetDocs, backend);
      var repres := backend.represOf(l.versions.Keys);
      forall f | f in GroupRepres(repres, l).value.items
        ensures GroupRepres(repres, l).value.items[f].assetDoc.id == f
        ensures ProductsKeyed(GroupRepres(repres, l).value.items[f])
      {
        GroupedFolderKeyed(repres, l, f);
      }
    }
  }
}
