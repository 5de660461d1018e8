/**
 * Loading one folder: `load_containers_by_asset_data` and the pieces of
 * `_load_containers` that do not touch the builder's state — the product
 * index, the valid representations, the product order, the de-duplicated
 * representation order and the load attempts for one product.
 */
module WorkfileLoad {
  import opened Wrappers
  import opened Text
  import PyDict
  import opened WorkfileTypes
  import opened WorkfileProfiles

  // ---------------------------------------------------------------------
  // product index

  /** `products_by_id`, `version_by_product_id` and `repres_by_version_id`. */
  datatype ProductIndex = ProductIndex(
    productsById: PyDict.Dict<Id, SubsetDoc>,
    versionByProductId: map<Id, VersionDoc>,
    represByVersionId: map<Id, seq<RepreDoc>>)

  /** The three indexes after the first products of the folder, in dict order. */
  function IndexOf(keys: seq<Id>, subsets: map<Id, ProductData>): (x: ProductIndex)
    requires forall k :: k in keys ==> k in subsets
    ensures PyDict.Valid(x.productsById)
  {
    if keys == [] then ProductIndex(PyDict.Empty(), map[], map[])
    else
      var x := IndexOf(keys[..|keys| - 1], subsets);
      var productId := keys[|keys| - 1];
      var data := subsets[productId];
      ProductIndex(PyDict.Put(x.productsById, data.subsetDoc.id, data.subsetDoc),
                   x.versionByProductId[productId := data.versionDoc],
                   x.represByVersionId[data.versionDoc.id := data.repres])
  }

  /** The indexes of a folder's products. */
  function Index(folder: FolderData): ProductIndex
    requires PyDict.Valid(folder.subsets)
  {
    IndexOf(folder.subsets.keys, folder.subsets.items)
  }

  /** One more product in the index. */
  lemma IndexOfStep(keys: seq<Id>, subsets: map<Id, ProductData>, i: nat)
    requires forall k :: k in keys ==> k in subsets
    requires i < |keys|
    ensures forall k :: k in keys[..i] ==> k in subsets
    ensures var x := IndexOf(keys[..i], subsets);
            var data := subsets[keys[i]];
            IndexOf(keys[..i + 1], subsets)
            == ProductIndex(PyDict.Put(x.productsById, data.subsetDoc.id, data.subsetDoc),
                            x.versionByProductId[keys[i] := data.versionDoc],
                            x.represByVersionId[data.versionDoc.id := data.repres])
  {
    assert keys[..i + 1][..i] == keys[..i];
  }

  /** The indexing loop of `load_containers_by_asset_data`. */
  method IndexProducts(folder: FolderData) returns (x: ProductIndex)
    requires PyDict.Valid(folder.subsets)
    ensures x == Index(folder)
  {
    var keys := folder.subsets.keys;
    var productsById := PyDict.Empty();
    var versionByProductId := map[];
    var represByVersionId := map[];
    for i := 0 to |keys|
      invariant ProductIndex(productsById, versionByProductId, represByVersionId)
                == IndexOf(keys[..i], folder.subsets.items)
    {
      IndexOfStep(keys, folder.subsets.items, i);
      var productId := keys[i];
      var inData := folder.subsets.items[productId];
      productsById := PyDict.Put(productsById, inData.subsetDoc.id, inData.subsetDoc);
      versionByProductId := versionByProductId[productId := inData.versionDoc];
      represByVersionId := represByVersionId[inData.versionDoc.id := inData.repres];
    }
    assert keys[..|keys|] == keys;
    x := ProductIndex(productsById, versionByProductId, represByVersionId);
  }

  /** What the index holds after some products, each keyed by its own id with a version of its own. */
  lemma {:induction false} IndexOfSpec(keys: seq<Id>, subsets: map<Id, ProductData>)
    requires PyDict.Distinct(keys) && forall k :: k in keys ==> k in subsets
    requires forall p :: p in subsets ==> subsets[p].subsetDoc.id == p
    requires forall p, q :: p in subsets && q in subsets && p != q ==> subsets[p].versionDoc.id != subsets[q].versionDoc.id
    ensures IndexOf(keys, subsets).productsById.keys == keys
    ensures forall p :: p in keys ==> IndexOf(keys, subsets).productsById.items[p] == subsets[p].subsetDoc
    ensures forall p :: p in IndexOf(keys, subsets).versionByProductId <==> p in keys
    ensures forall p :: p in keys ==>
              && IndexOf(keys, subsets).versionByProductId[p] == subsets[p].versionDoc
              && subsets[p].versionDoc.id in IndexOf(keys, subsets).represByVersionId
              && IndexOf(keys, subsets).represByVersionId[subsets[p].versionDoc.id] == subsets[p].repres
  {
    if keys != [] {
      var n := |keys| - 1;
      var init := keys[..n];
      assert keys == init + [keys[n]];
      assert PyDict.Distinct(init) by {
        forall i, j | 0 <= i < j < |init| ensures init[i] != init[j] {
          assert init[i] == keys[i] && init[j] == keys[j];
        }
      }
      assert keys[n] !in init by {
        forall i | 0 <= i < n ensures init[i] != keys[n] {
          assert init[i] == keys[i];
        }
      }
      IndexOfSpec(init, subsets);
    }
  }

  // ---------------------------------------------------------------------
  // valid representations

  /** The representations whose lower-cased name the profile lists, in version order. */
  function ValidRepres(repres: seq<RepreDoc>, profile: PreparedProfile): seq<RepreDoc>
  {
    if repres == [] then []
    else
      var r := repres[|repres| - 1];
      ValidRepres(repres[..|repres| - 1], profile)
        + (if Lower(r.name) in profile.repreNamesLowered then [r] else [])
  }

  /** A representation is valid iff the profile lists its lower-cased name; the filter keeps order. */
  lemma {:induction false} ValidRepresMembers(repres: seq<RepreDoc>, profile: PreparedProfile)
    ensures forall r :: r in ValidRepres(repres, profile) <==> r in repres && Lower(r.name) in profile.repreNamesLowered
    ensures |ValidRepres(repres, profile)| <= |repres|
  {
    if repres != [] {
      var n := |repres| - 1;
      assert repres == repres[..n] + [repres[n]];
      ValidRepresMembers(repres[..n], profile);
    }
  }

  /** The index can answer for every product that has a profile. */
  predicate IndexCovers(profiles: map<Id, PreparedProfile>, x: ProductIndex)
  {
    forall productId :: productId in profiles ==>
      productId in x.versionByProductId && x.versionByProductId[productId].id in x.represByVersionId
  }

  /** The last version's representations of a product, through the two indexes. */
  function ReprsOf(x: ProductIndex, productId: Id): seq<RepreDoc>
    requires productId in x.versionByProductId && x.versionByProductId[productId].id in x.represByVersionId
  {
    x.represByVersionId[x.versionByProductId[productId].id]
  }

  /**
   * `valid_repres_by_product_id`: a product with a profile appears iff one
   * of its representations is valid for that profile, with exactly those.
   */
  function ValidReprsByProduct(profiles: map<Id, PreparedProfile>, x: ProductIndex): map<Id, seq<RepreDoc>>
    requires IndexCovers(profiles, x)
  {
    map productId | productId in profiles && ValidRepres(ReprsOf(x, productId), profiles[productId]) != []
      :: ValidRepres(ReprsOf(x, productId), profiles[productId])
  }

  /** The filter loop over one product's representations. */
  method FilterRepres(repres: seq<RepreDoc>, profile: PreparedProfile) returns (valid: seq<RepreDoc>)
    ensures valid == ValidRepres(repres, profile)
  {
    valid := [];
    for i := 0 to |repres|
      invariant valid == ValidRepres(repres[..i], profile)
    {
      assert repres[..i + 1][..i] == repres[..i];
      if Lower(repres[i].name) in profile.repreNamesLowered {
        valid := valid + [repres[i]];
      }
    }
    assert repres[..|repres|] == repres;
  }

  /** The loop over `profiles_by_product_id`, appending into a `defaultdict(list)`. */
  method CollectValidRepres(profiles: map<Id, PreparedProfile>, x: ProductIndex)
    returns (validByProduct: map<Id, seq<RepreDoc>>)
    requires IndexCovers(profiles, x)
    ensures validByProduct == ValidReprsByProduct(profiles, x)
  {
    validByProduct := map[];
    var todo := profiles.Keys;
    while todo != {}
      invariant todo <= profiles.Keys
      invariant validByProduct == map productId | productId in profiles.Keys - todo
                                    && ValidRepres(ReprsOf(x, productId), profiles[productId]) != []
                                    :: ValidRepres(ReprsOf(x, productId), profiles[productId])
      decreases |todo|
    {
      var productId :| productId in todo;
      var repres := ReprsOf(x, productId);
      var valid := FilterRepres(repres, profiles[productId]);
      if valid != [] {
        validByProduct := validByProduct[productId := valid];
      }
      todo := todo - {productId};
    }
  }

  // ---------------------------------------------------------------------
  // product order

  /** The products, in `products_by_id` order, whose `data.families` lists the type (case-sensitive). */
  function IdsForType(productType: string, keys: seq<Id>, products: map<Id, SubsetDoc>): seq<Id>
    requires forall k :: k in keys ==> k in products
  {
    if keys == [] then []
    else
      var k := keys[|keys| - 1];
      IdsForType(productType, keys[..|keys| - 1], products)
        + (if productType in products[k].families then [k] else [])
  }

  /** The products for each of a preset's types in turn. */
  function IdsForTypes(types: seq<string>, keys: seq<Id>, products: map<Id, SubsetDoc>): seq<Id>
    requires forall k :: k in keys ==> k in products
  {
    if types == [] then []
    else IdsForTypes(types[..|types| - 1], keys, products) + IdsForType(types[|types| - 1], keys, products)
  }

  /**
   * `product_ids_ordered`: preset by preset, type by type, product by
   * product.  A preset without `product_types` raises `KeyError`.
   */
  function OrderedProductIds(presets: seq<BuildProfile>, products: PyDict.Dict<Id, SubsetDoc>): Result<seq<Id>, BuildError>
    requires PyDict.Valid(products)
  {
    if presets == [] then Success([])
    else
      match OrderedProductIds(presets[..|presets| - 1], products)
      case Failure(e) => Failure(e)
      case Success(ids) =>
        var preset := presets[|presets| - 1];
        if preset.productTypes.None? then Failure(MissingProductTypes)
        else Success(ids + IdsForTypes(preset.productTypes.value, products.keys, products.items))
  }

  /** The inner loop over `products_by_id` for one type. */
  method AppendIdsForType(ids: seq<Id>, productType: string, products: PyDict.Dict<Id, SubsetDoc>)
    returns (r: seq<Id>)
    requires PyDict.Valid(products)
    ensures r == ids + IdsForType(productType, products.keys, products.items)
  {
    r := ids;
    var keys := products.keys;
    for i := 0 to |keys|
      invariant r == ids + IdsForType(productType, keys[..i], products.items)
    {
      assert keys[..i + 1][..i] == keys[..i];
      var subsetDoc := products.items[keys[i]];
      if productType !in subsetDoc.families {
        assert IdsForType(productType, keys[..i + 1], products.items) == IdsForType(productType, keys[..i], products.items) + [];
        continue;
      }
      SeqAssoc(ids, IdsForType(productType, keys[..i], products.items), [keys[i]]);
      r := r + [keys[i]];
    }
    assert keys[..|keys|] == keys;
  }

  /** The loop over one preset's types. */
  method AppendIdsForTypes(ids: seq<Id>, types: seq<string>, products: PyDict.Dict<Id, SubsetDoc>)
    returns (r: seq<Id>)
    requires PyDict.Valid(products)
    ensures r == ids + IdsForTypes(types, products.keys, products.items)
  {
    r := ids;
    for j := 0 to |types|
      invariant r == ids + IdsForTypes(types[..j], products.keys, products.items)
    {
      assert types[..j + 1][..j] == types[..j];
      SeqAssoc(ids, IdsForTypes(types[..j], products.keys, products.items),
               IdsForType(types[j], products.keys, products.items));
      r := AppendIdsForType(r, types[j], products);
    }
    assert types[..|types|] == types;
  }

  /** The three nested loops that build `product_ids_ordered`. */
  method OrderProductIds(presets: seq<BuildProfile>, products: PyDict.Dict<Id, SubsetDoc>)
    returns (r: Result<seq<Id>, BuildError>)
    requires PyDict.Valid(products)
    ensures r == OrderedProductIds(presets, products)
  {
    var ids := [];
    for i := 0 to |presets|
      invariant OrderedProductIds(presets[..i], products) == Success(ids)
    {
      assert presets[..i + 1][..i] == presets[..i];
      var preset := presets[i];
      if preset.productTypes.None? {
        OrderedProductIdsPrefixFailure(presets, products, i + 1);
        return Failure(MissingProductTypes);
      }
      ids := AppendIdsForTypes(ids, preset.productTypes.value, products);
    }
    assert presets[..|presets|] == presets;
    return Success(ids);
  }

  /** A preset that raises stops the ordering for good. */
  lemma {:induction false} OrderedProductIdsPrefixFailure(presets: seq<BuildProfile>, products: PyDict.Dict<Id, SubsetDoc>, k: nat)
    requires PyDict.Valid(products)
    requires k <= |presets| && OrderedProductIds(presets[..k], products).Failure?
    ensures OrderedProductIds(presets, products) == OrderedProductIds(presets[..k], products)
    decreases |presets| - k
  {
    if k < |presets| {
      assert presets[..k + 1][..k] == presets[..k];
      OrderedProductIdsPrefixFailure(presets, products, k + 1);
    } else {
      assert presets[..k] == presets;
    }
  }

  /** A product is listed for a type iff it is a product of the folder whose families hold the type. */
  lemma {:induction false} IdsForTypeMembers(productType: string, keys: seq<Id>, products: map<Id, SubsetDoc>)
    requires forall k :: k in keys ==> k in products
    ensures forall id :: id in IdsForType(productType, keys, products) <==> id in keys && productType in products[id].families
  {
    if keys != [] {
      var n := |keys| - 1;
      assert keys == keys[..n] + [keys[n]];
      IdsForTypeMembers(productType, keys[..n], products);
    }
  }

  /** The preset wants the product: one of its types is among the product's families. */
  predicate Wants(preset: BuildProfile, d: SubsetDoc)
  {
    preset.productTypes.Some? && exists t :: t in preset.productTypes.value && t in d.families
  }

  lemma {:induction false} IdsForTypesMembers(types: seq<string>, keys: seq<Id>, products: map<Id, SubsetDoc>)
    requires forall k :: k in keys ==> k in products
    ensures forall id :: id in IdsForTypes(types, keys, products) <==>
              id in keys && exists t :: t in types && t in products[id].families
  {
    if types != [] {
      var n := |types| - 1;
      assert types == types[..n] + [types[n]];
      IdsForTypesMembers(types[..n], keys, products);
      IdsForTypeMembers(types[n], keys, products);
    }
  }

  /** The ordering raises, with `MissingProductTypes`, iff some preset lacks `product_types`. */
  lemma {:induction false} OrderedProductIdsSuccess(presets: seq<BuildProfile>, products: PyDict.Dict<Id, SubsetDoc>)
    requires PyDict.Valid(products)
    ensures OrderedProductIds(presets, products).Success? <==> forall i :: 0 <= i < |presets| ==> presets[i].productTypes.Some?
    ensures OrderedProductIds(presets, products).Failure? ==> OrderedProductIds(presets, products).error == MissingProductTypes
  {
    if presets != [] {
      var n := |presets| - 1;
      var init := presets[..n];
      OrderedProductIdsSuccess(init, products);
      assert forall i :: 0 <= i < n ==> presets[i] == init[i];
    }
  }

  /**
   * Without an error the ordering lists exactly the products some preset
   * wants through their `data.families`, so a product no preset wants this
   * way is never loaded.
   */
  lemma {:induction false} OrderedProductIdsSpec(presets: seq<BuildProfile>, products: PyDict.Dict<Id, SubsetDoc>)
    requires PyDict.Valid(products)
    requires OrderedProductIds(presets, products).Success?
    ensures forall id ::
              id in OrderedProductIds(presets, products).value <==>
              id in products.items && exists i :: 0 <= i < |presets| && Wants(presets[i], products.items[id])
  {
    if presets != [] {
      var n := |presets| - 1;
      var preset := presets[n];
      OrderedProductIdsStep(presets, products);
      OrderedProductIdsSpec(presets[..n], products);
      IdsForTypesMembers(preset.productTypes.value, products.keys, products.items);
      forall id | id in products.items
        ensures (exists i :: 0 <= i < |presets| && Wants(presets[i], products.items[id]))
                <==> (exists i :: 0 <= i < n && Wants(presets[..n][i], products.items[id]))
                     || Wants(preset, products.items[id])
      {
        WantedSplit(presets, products.items[id]);
      }
    }
  }

  /** Some preset wants a product iff one before the last does, or the last one does. */
  lemma WantedSplit(presets: seq<BuildProfile>, d: SubsetDoc)
    requires presets != []
    ensures var n := |presets| - 1;
            (exists i :: 0 <= i < |presets| && Wants(presets[i], d))
            <==> (exists i :: 0 <= i < n && Wants(presets[..n][i], d)) || Wants(presets[n], d)
  {
    var n := |presets| - 1;
    assert forall i :: 0 <= i < n ==> presets[..n][i] == presets[i];
  }

  /** One more preset with types appends the products of those types. */
  lemma OrderedProductIdsStep(presets: seq<BuildProfile>, products: PyDict.Dict<Id, SubsetDoc>)
    requires PyDict.Valid(products) && presets != []
    requires OrderedProductIds(presets, products).Success?
    ensures OrderedProductIds(presets[..|presets| - 1], products).Success?
    ensures presets[|presets| - 1].productTypes.Some?
    ensures OrderedProductIds(presets, products).value
            == OrderedProductIds(presets[..|presets| - 1], products).value
               + IdsForTypes(presets[|presets| - 1].productTypes.value, products.keys, products.items)
  {
  }

  /** A preset with types after a successful ordering appends the products of those types. */
  lemma OrderedProductIdsExtend(presets: seq<BuildProfile>, products: PyDict.Dict<Id, SubsetDoc>)
    requires PyDict.Valid(products) && presets != []
    ensures OrderedProductIds(presets[..|presets| - 1], products).Success? && presets[|presets| - 1].productTypes.Some? ==>
              OrderedProductIds(presets, products)
              == Success(OrderedProductIds(presets[..|presets| - 1], products).value
                         + IdsForTypes(presets[|presets| - 1].productTypes.value, products.keys, products.items))
  {
  }

  /** Ordering by two lists of presets is ordering by the first, then by the second. */
  lemma {:induction false} OrderedProductIdsAppend(a: seq<BuildProfile>, b: seq<BuildProfile>, products: PyDict.Dict<Id, SubsetDoc>)
    requires PyDict.Valid(products)
    requires OrderedProductIds(a, products).Success? && OrderedProductIds(b, products).Success?
    ensures OrderedProductIds(a + b, products) == Success(OrderedProductIds(a, products).value + OrderedProductIds(b, products).value)
  {
    if b == [] {
      assert a + b == a;
      assert OrderedProductIds(a, products).value + [] == OrderedProductIds(a, products).value;
    } else {
      OrderedProductIdsStep(b, products);
      OrderedProductIdsAppend(a, b[..|b| - 1], products);
      OrderedProductIdsAppendStep(a, b, products);
    }
  }

  /** The inductive step of `OrderedProductIdsAppend`: one more preset at the end of the second list. */
  lemma OrderedProductIdsAppendStep(a: seq<BuildProfile>, b: seq<BuildProfile>, products: PyDict.Dict<Id, SubsetDoc>)
    requires PyDict.Valid(products) && b != []
    requires OrderedProductIds(a, products).Success? && OrderedProductIds(b, products).Success?
    requires OrderedProductIds(b[..|b| - 1], products).Success? && b[|b| - 1].productTypes.Some?
    requires OrderedProductIds(b, products).value
             == OrderedProductIds(b[..|b| - 1], products).value
                + IdsForTypes(b[|b| - 1].productTypes.value, products.keys, products.items)
    requires OrderedProductIds(a + b[..|b| - 1], products)
             == Success(OrderedProductIds(a, products).value + OrderedProductIds(b[..|b| - 1], products).value)
    ensures OrderedProductIds(a + b, products) == Success(OrderedProductIds(a, products).value + OrderedProductIds(b, products).value)
  {
    var n := |b| - 1;
    DropLastOfAppend(a, b);
    OrderedProductIdsExtend(a + b, products);
    SeqAssoc(OrderedProductIds(a, products).value, OrderedProductIds(b[..n], products).value,
             IdsForTypes(b[n].productTypes.value, products.keys, products.items));
  }

  // ---------------------------------------------------------------------
  // representation order

  /** One entry of `representations_ordered`. */
  datatype ProductRepres = ProductRepres(product: Id, repres: seq<RepreDoc>)

  /** `representations`: the representation lists taken so far. */
  function Listed(entries: seq<ProductRepres>): (r: seq<seq<RepreDoc>>)
    ensures |r| == |entries| && forall i :: 0 <= i < |entries| ==> r[i] == entries[i].repres
  {
    seq(|entries|, i requires 0 <= i < |entries| => entries[i].repres)
  }

  /**
   * `representations_ordered`: each ordered product with valid
   * representations, unless an equal representation list was already taken.
   */
  function RepresOrdered(ids: seq<Id>, byProduct: map<Id, seq<RepreDoc>>): seq<ProductRepres>
  {
    if ids == [] then []
    else
      var acc := RepresOrdered(ids[..|ids| - 1], byProduct);
      var id := ids[|ids| - 1];
      if id in byProduct && byProduct[id] !in Listed(acc) then acc + [ProductRepres(id, byProduct[id])] else acc
  }

  /** The ordering loop; the scan over `repres_by_product_id` for the one matching key is a lookup. */
  method OrderRepresentations(ids: seq<Id>, byProduct: map<Id, seq<RepreDoc>>) returns (ordered: seq<ProductRepres>)
    ensures ordered == RepresOrdered(ids, byProduct)
  {
    ordered := [];
    var representations := [];
    for i := 0 to |ids|
      invariant ordered == RepresOrdered(ids[..i], byProduct)
      invariant representations == Listed(ordered)
    {
      assert ids[..i + 1][..i] == ids[..i];
      var orderedProductId := ids[i];
      if orderedProductId in byProduct && byProduct[orderedProductId] !in representations {
        ordered := ordered + [ProductRepres(orderedProductId, byProduct[orderedProductId])];
        representations := representations + [byProduct[orderedProductId]];
      }
    }
    assert ids[..|ids|] == ids;
  }

  /**
   * Every entry is an ordered product with its own valid representations,
   * and no representation list (hence no product) is taken twice.
   */
  lemma {:induction false} RepresOrderedEntries(ids: seq<Id>, byProduct: map<Id, seq<RepreDoc>>)
    ensures forall e :: e in RepresOrdered(ids, byProduct) ==>
              e.product in ids && e.product in byProduct && e.repres == byProduct[e.product]
    ensures forall i, j :: 0 <= i < j < |RepresOrdered(ids, byProduct)| ==>
              RepresOrdered(ids, byProduct)[i].repres != RepresOrdered(ids, byProduct)[j].repres
              && RepresOrdered(ids, byProduct)[i].product != RepresOrdered(ids, byProduct)[j].product
  {
    if ids != [] {
      var n := |ids| - 1;
      assert ids == ids[..n] + [ids[n]];
      RepresOrderedEntries(ids[..n], byProduct);
    }
  }

  /** Every ordered product with valid representations has its list taken (possibly by an earlier equal list). */
  lemma {:induction false} RepresOrderedComplete(ids: seq<Id>, byProduct: map<Id, seq<RepreDoc>>)
    ensures forall id :: id in ids && id in byProduct ==> byProduct[id] in Listed(RepresOrdered(ids, byProduct))
  {
    if ids != [] {
      var n := |ids| - 1;
      assert ids == ids[..n] + [ids[n]];
      RepresOrderedComplete(ids[..n], byProduct);
      var acc := RepresOrdered(ids[..n], byProduct);
      var r := RepresOrdered(ids, byProduct);
      assert forall x :: x in Listed(acc) ==> x in Listed(r) by {
        forall x | x in Listed(acc) ensures x in Listed(r) {
          var i :| 0 <= i < |acc| && Listed(acc)[i] == x;
          assert r[i] == acc[i];
        }
      }
      if ids[n] in byProduct && byProduct[ids[n]] !in Listed(acc) {
        assert Listed(r)[|acc|] == byProduct[ids[n]];
      }
    }
  }

  /** Ordered products listed again, after the first time, change nothing. */
  lemma {:induction false} RepresOrderedRepeat(ids: seq<Id>, extra: seq<Id>, byProduct: map<Id, seq<RepreDoc>>)
    requires forall x :: x in extra ==> x in ids
    ensures RepresOrdered(ids + extra, byProduct) == RepresOrdered(ids, byProduct)
  {
    if extra == [] {
      assert ids + extra == ids;
    } else {
      var n := |extra| - 1;
      assert (ids + extra)[..|ids| + n] == ids + extra[..n];
      RepresOrderedRepeat(ids, extra[..n], byProduct);
      RepresOrderedComplete(ids, byProduct);
    }
  }

  // ---------------------------------------------------------------------
  // loading one product

  /** `repre_by_low_name`: a later representation with the same lower-cased name wins. */
  function ByLowName(repres: seq<RepreDoc>): map<string, RepreDoc>
  {
    if repres == [] then map[]
    else
      var r := repres[|repres| - 1];
      ByLowName(repres[..|repres| - 1])[Lower(r.name) := r]
  }

  /** A name is a key iff some representation carries it, lower-cased, and maps to one of those. */
  lemma {:induction false} ByLowNameMembers(repres: seq<RepreDoc>)
    ensures forall n :: n in ByLowName(repres) <==> exists r :: r in repres && Lower(r.name) == n
    ensures forall n :: n in ByLowName(repres) ==> ByLowName(repres)[n] in repres && Lower(ByLowName(repres)[n].name) == n
  {
    if repres != [] {
      var last := |repres| - 1;
      assert repres == repres[..last] + [repres[last]];
      ByLowNameMembers(repres[..last]);
    }
  }

  /** The representation chosen for a name is the last one with that lower-cased name. */
  lemma {:induction false} ByLowNameLast(repres: seq<RepreDoc>, n: string)
    requires n in ByLowName(repres)
    ensures exists j :: 0 <= j < |repres| && repres[j] == ByLowName(repres)[n]
                        && forall k :: j < k < |repres| ==> Lower(repres[k].name) != n
  {
    var last := |repres| - 1;
    assert repres == repres[..last] + [repres[last]];
    if Lower(repres[last].name) == n {
      assert ByLowName(repres)[n] == repres[last];
    } else {
      assert ByLowName(repres)[n] == ByLowName(repres[..last])[n];
      ByLowNameLast(repres[..last], n);
      var j :| 0 <= j < last && repres[..last][j] == ByLowName(repres[..last])[n]
               && forall k :: j < k < last ==> Lower(repres[..last][k].name) != n;
      assert repres[j] == repres[..last][j];
      assert forall k :: j < k < last ==> repres[k] == repres[..last][k];
    }
  }

  /** One load to try: the loader's name, the loader, the representation. */
  datatype Candidate = Candidate(loaderName: string, loader: LoaderPlugin, repre: RepreDoc)

  /** The available loaders of the profile, in order, for one representation. */
  function LoaderCandidates(loaders: seq<string>, loadersByName: map<string, LoaderPlugin>, repre: RepreDoc): seq<Candidate>
  {
    if loaders == [] then []
    else
      var name := loaders[|loaders| - 1];
      LoaderCandidates(loaders[..|loaders| - 1], loadersByName, repre)
        + (if name in loadersByName then [Candidate(name, loadersByName[name], repre)] else [])
  }

  /** Representation names in profile order, and within each the available loaders in profile order. */
  function Candidates(names: seq<string>, byLow: map<string, RepreDoc>, loaders: seq<string>,
                      loadersByName: map<string, LoaderPlugin>): seq<Candidate>
  {
    if names == [] then []
    else
      var name := names[|names| - 1];
      Candidates(names[..|names| - 1], byLow, loaders, loadersByName)
        + (if name in byLow then LoaderCandidates(loaders, loadersByName, byLow[name]) else [])
  }

  lemma {:induction false} LoaderCandidatesMembers(loaders: seq<string>, loadersByName: map<string, LoaderPlugin>, repre: RepreDoc)
    ensures forall c :: c in LoaderCandidates(loaders, loadersByName, repre) <==>
              c.repre == repre && c.loaderName in loaders && c.loaderName in loadersByName && c.loader == loadersByName[c.loaderName]
  {
    if loaders != [] {
      var n := |loaders| - 1;
      assert loaders == loaders[..n] + [loaders[n]];
      LoaderCandidatesMembers(loaders[..n], loadersByName, repre);
    }
  }

  /**
   * The loads tried are exactly the pairs of a listed name that some
   * representation carries and an available listed loader; a loader that
   * is not available is never tried.
   */
  lemma {:induction false} CandidatesMembers(names: seq<string>, byLow: map<string, RepreDoc>, loaders: seq<string>,
                                             loadersByName: map<string, LoaderPlugin>)
    ensures forall c :: c in Candidates(names, byLow, loaders, loadersByName) <==>
              && (exists i :: 0 <= i < |names| && names[i] in byLow && c.repre == byLow[names[i]])
              && c.loaderName in loaders && c.loaderName in loadersByName && c.loader == loadersByName[c.loaderName]
  {
    if names != [] {
      var n := |names| - 1;
      var init := names[..n];
      assert names == init + [names[n]];
      CandidatesMembers(init, byLow, loaders, loadersByName);
      if names[n] in byLow {
        LoaderCandidatesMembers(loaders, loadersByName, byLow[names[n]]);
      }
      assert forall i :: 0 <= i < n ==> names[i] == init[i];
    }
  }

  /** The loads for earlier names all come before those for later names. */
  lemma {:induction false} CandidatesPrefix(names: seq<string>, k: nat, byLow: map<string, RepreDoc>, loaders: seq<string>,
                                            loadersByName: map<string, LoaderPlugin>)
    requires k <= |names|
    ensures Candidates(names[..k], byLow, loaders, loadersByName) <= Candidates(names, byLow, loaders, loadersByName)
    decreases |names| - k
  {
    if k < |names| {
      assert names[..k + 1][..k] == names[..k];
      CandidatesPrefix(names, k + 1, byLow, loaders, loadersByName);
    } else {
      assert names[..k] == names;
    }
  }

  /** The level a failed load is logged at: `info` for an incompatible loader, `error` otherwise. */
  function FailureLogLevel(e: LoadError): (level: LogLevel)
    ensures level == Info <==> e == IncompatibleLoader
  {
    match e
    case IncompatibleLoader => Info
    case OtherLoadError => Error
  }

  /**
   * The level as the source computes it: `exc == IncompatibleLoaderError`
   * compares an exception instance with the class, which is never equal.
   */
  function FailureLogLevelAsWritten(e: LoadError): (level: LogLevel)
    ensures level == Error
  {
    // the instance-to-class comparison is false for every error
    Error
  }

  /** The level as written differs from the intended one exactly for an incompatible loader. */
  lemma FailureLogLevelAsWrittenMisses()
    ensures FailureLogLevelAsWritten(IncompatibleLoader) != FailureLogLevel(IncompatibleLoader)
    ensures FailureLogLevelAsWritten(OtherLoadError) == FailureLogLevel(OtherLoadError)
  {
  }

  /** One call of `load_container` for a candidate, with the level its failure is logged at as written. */
  function AttemptOf(c: Candidate, load: (LoaderPlugin, Id, string) -> LoadOutcome, productName: string): Attempt
  {
    var outcome := load(c.loader, c.repre.id, productName);
    Attempt(c.loaderName, c.repre.id, outcome, if outcome.Raised? then Some(FailureLogLevelAsWritten(outcome.error)) else None)
  }

  /** The product's container, if any, and the calls made. */
  datatype ProductLoad = ProductLoad(container: Option<Container>, attempts: seq<Attempt>)

  /** The loads tried after some candidates: once one returns, the rest are skipped (`is_loaded`). */
  function TryLoad(cands: seq<Candidate>, load: (LoaderPlugin, Id, string) -> LoadOutcome, productName: string): ProductLoad
  {
    if cands == [] then ProductLoad(None, [])
    else
      var p := TryLoad(cands[..|cands| - 1], load, productName);
      if p.container.Some? then p
      else
        var a := AttemptOf(cands[|cands| - 1], load, productName);
        ProductLoad(if a.outcome.Loaded? then Some(a.outcome.container) else None, p.attempts + [a])
  }

  /** Once a load returned, further candidates change nothing. */
  lemma {:induction false} TryLoadStable(cands: seq<Candidate>, more: seq<Candidate>,
                                         load: (LoaderPlugin, Id, string) -> LoadOutcome, productName: string)
    requires TryLoad(cands, load, productName).container.Some?
    ensures TryLoad(cands + more, load, productName) == TryLoad(cands, load, productName)
  {
    if more == [] {
      assert cands + more == cands;
    } else {
      var n := |more| - 1;
      assert (cands + more)[..|cands| + n] == cands + more[..n];
      TryLoadStable(cands, more[..n], load, productName);
    }
  }

  /**
   * The candidates are tried in order; every call but the last raised; the
   * container is the one the last call returned, and when none returned
   * every candidate was tried.  So a product gets at most one container.
   */
  lemma {:induction false} TryLoadSpec(cands: seq<Candidate>, load: (LoaderPlugin, Id, string) -> LoadOutcome, productName: string)
    ensures |TryLoad(cands, load, productName).attempts| <= |cands|
    ensures forall j :: 0 <= j < |TryLoad(cands, load, productName).attempts| ==>
              TryLoad(cands, load, productName).attempts[j] == AttemptOf(cands[j], load, productName)
    ensures forall j :: 0 <= j < |TryLoad(cands, load, productName).attempts| - 1 ==>
              TryLoad(cands, load, productName).attempts[j].outcome.Raised?
    ensures TryLoad(cands, load, productName).container.None? ==>
              |TryLoad(cands, load, productName).attempts| == |cands|
              && forall j :: 0 <= j < |cands| ==> load(cands[j].loader, cands[j].repre.id, productName).Raised?
    ensures TryLoad(cands, load, productName).container.Some? ==>
              var n := |TryLoad(cands, load, productName).attempts|;
              n > 0 && load(cands[n - 1].loader, cands[n - 1].repre.id, productName)
                       == Loaded(TryLoad(cands, load, productName).container.value)
  {
    if cands != [] {
      var n := |cands| - 1;
      var init := cands[..n];
      assert forall j :: 0 <= j < n ==> cands[j] == init[j];
      TryLoadSpec(init, load, productName);
    }
  }

  /** The nested loops of `_load_containers` for one product, with the `is_loaded` flag. */
  method LoadProduct(productName: string, profile: PreparedProfile, repres: seq<RepreDoc>,
                     loadersByName: map<string, LoaderPlugin>, load: (LoaderPlugin, Id, string) -> LoadOutcome)
    returns (container: Option<Container>, attempts: seq<Attempt>)
    ensures ProductLoad(container, attempts)
            == TryLoad(Candidates(profile.repreNamesLowered, ByLowName(repres), profile.profile.loaders, loadersByName),
                       load, productName)
  {
    var names := profile.repreNamesLowered;
    var loaders := profile.profile.loaders;
    var repreByLowName := ByLowName(repres);
    container := None;
    attempts := [];
    var isLoaded := false;
    for i := 0 to |names|
      invariant ProductLoad(container, attempts) == TryLoad(Candidates(names[..i], repreByLowName, loaders, loadersByName), load, productName)
      invariant isLoaded <==> container.Some?
    {
      if isLoaded {
        CandidatesPrefix(names, i, repreByLowName, loaders, loadersByName);
        var all := Candidates(names, repreByLowName, loaders, loadersByName);
        var done := Candidates(names[..i], repreByLowName, loaders, loadersByName);
        assert all == done + all[|done|..];
        TryLoadStable(done, all[|done|..], load, productName);
        return;
      }
      assert names[..i + 1][..i] == names[..i];
      var name := names[i];
      var done := Candidates(names[..i], repreByLowName, loaders, loadersByName);
      if name !in repreByLowName {
        assert Candidates(names[..i + 1], repreByLowName, loaders, loadersByName) == done + [];
        assert done + [] == done;
        continue;
      }
      var repre := repreByLowName[name];
      assert Candidates(names[..i + 1], repreByLowName, loaders, loadersByName)
             == done + LoaderCandidates(loaders, loadersByName, repre);
      container, attempts, isLoaded := TryLoaders(done, repre, loaders, loadersByName, load, productName);
      assert ProductLoad(container, attempts) == TryLoad(Candidates(names[..i + 1], repreByLowName, loaders, loadersByName), load, productName);
    }
    assert names[..|names|] == names;
  }

  /** The inner loop over the profile's loaders for one representation. */
  method TryLoaders(done: seq<Candidate>, repre: RepreDoc, loaders: seq<string>, loadersByName: map<string, LoaderPlugin>,
                    load: (LoaderPlugin, Id, string) -> LoadOutcome, productName: string)
    returns (container: Option<Container>, attempts: seq<Attempt>, isLoaded: bool)
    requires TryLoad(done, load, productName).container.None?
    ensures ProductLoad(container, attempts) == TryLoad(done + LoaderCandidates(loaders, loadersByName, repre), load, productName)
    ensures isLoaded <==> container.Some?
  {
    container := None;
    attempts := TryLoad(done, load, productName).attempts;
    isLoaded := false;
    assert done + LoaderCandidates(loaders[..0], loadersByName, repre) == done;
    for j := 0 to |loaders|
      invariant ProductLoad(container, attempts) == TryLoad(done + LoaderCandidates(loaders[..j], loadersByName, repre), load, productName)
      invariant isLoaded <==> container.Some?
    {
      if isLoaded {
        LoadedAfterLoader(done, loaders, j, loadersByName, repre, load, productName);
        return;
      }
      var loaderName := loaders[j];
      ghost var tried := done + LoaderCandidates(loaders[..j], loadersByName, repre);
      LoaderCandidatesStep(loaders, j, loadersByName, repre);
      if loaderName !in loadersByName {
        assert done + LoaderCandidates(loaders[..j + 1], loadersByName, repre) == tried;
        continue;
      }
      var loader := loadersByName[loaderName];
      var outcome := load(loader, repre.id, productName);
      ghost var c := Candidate(loaderName, loader, repre);
      assert done + LoaderCandidates(loaders[..j + 1], loadersByName, repre) == tried + [c];
      TryLoadStep(tried, c, load, productName);
      if outcome.Loaded? {
        container := Some(outcome.container);
        isLoaded := true;
        attempts := attempts + [Attempt(loaderName, repre.id, outcome, None)];
      } else {
        attempts := attempts + [Attempt(loaderName, repre.id, outcome, Some(FailureLogLevelAsWritten(outcome.error)))];
      }
    }
    assert loaders[..|loaders|] == loaders;
  }

  /** Once a loader of the representation returned, its remaining loaders change nothing. */
  lemma LoadedAfterLoader(done: seq<Candidate>, loaders: seq<string>, j: nat, loadersByName: map<string, LoaderPlugin>,
                          repre: RepreDoc, load: (LoaderPlugin, Id, string) -> LoadOutcome, productName: string)
    requires j <= |loaders|
    requires TryLoad(done + LoaderCandidates(loaders[..j], loadersByName, repre), load, productName).container.Some?
    ensures TryLoad(done + LoaderCandidates(loaders, loadersByName, repre), load, productName)
            == TryLoad(done + LoaderCandidates(loaders[..j], loadersByName, repre), load, productName)
  {
    var all := LoaderCandidates(loaders, loadersByName, repre);
    var tried := LoaderCandidates(loaders[..j], loadersByName, repre);
    LoaderCandidatesPrefix(loaders, j, loadersByName, repre);
    assert done + all == (done + tried) + all[|tried|..];
    TryLoadStable(done + tried, all[|tried|..], load, productName);
  }

  /** The candidates after one more loader name. */
  lemma LoaderCandidatesStep(loaders: seq<string>, j: nat, loadersByName: map<string, LoaderPlugin>, repre: RepreDoc)
    requires j < |loaders|
    ensures LoaderCandidates(loaders[..j + 1], loadersByName, repre)
            == LoaderCandidates(loaders[..j], loadersByName, repre)
               + (if loaders[j] in loadersByName then [Candidate(loaders[j], loadersByName[loaders[j]], repre)] else [])
  {
    assert loaders[..j + 1][..j] == loaders[..j];
  }

  /** One more candidate while nothing is loaded yet: it is called, and its outcome decides. */
  lemma TryLoadStep(tried: seq<Candidate>, c: Candidate, load: (LoaderPlugin, Id, string) -> LoadOutcome, productName: string)
    requires TryLoad(tried, load, productName).container.None?
    ensures TryLoad(tried + [c], load, productName)
            == ProductLoad(if load(c.loader, c.repre.id, productName).Loaded?
                           then Some(load(c.loader, c.repre.id, productName).container) else None,
                           TryLoad(tried, load, productName).attempts + [AttemptOf(c, load, productName)])
  {
    assert (tried + [c])[..|tried|] == tried;
  }

  lemma {:induction false} LoaderCandidatesPrefix(loaders: seq<string>, k: nat, loadersByName: map<string, LoaderPlugin>, repre: RepreDoc)
    requires k <= |loaders|
    ensures LoaderCandidates(loaders[..k], loadersByName, repre) <= LoaderCandidates(loaders, loadersByName, repre)
    decreases |loaders| - k
  {
    if k < |loaders| {
      assert loaders[..k + 1][..k] == loaders[..k];
      LoaderCandidatesPrefix(loaders, k + 1, loadersByName, repre);
    } else {
      assert loaders[..k] == loaders;
    }
  }

  // ---------------------------------------------------------------------
  // loading the ordered products

  /** The loads for one ordered entry, with its product's name and profile. */
  function LoadOne(e: ProductRepres, products: map<Id, SubsetDoc>, profiles: map<Id, PreparedProfile>,
                   loadersByName: map<string, LoaderPlugin>, load: (LoaderPlugin, Id, string) -> LoadOutcome): ProductLoad
    requires e.product in products && e.product in profiles
  {
    var profile := profiles[e.product];
    TryLoad(Candidates(profile.repreNamesLowered, ByLowName(e.repres), profile.profile.loaders, loadersByName),
            load, products[e.product].name)
  }

  /** Every entry names a product with a document and a profile. */
  predicate EntriesKnown(entries: seq<ProductRepres>, products: map<Id, SubsetDoc>, profiles: map<Id, PreparedProfile>)
  {
    forall e :: e in entries ==> e.product in products && e.product in profiles
  }

  /** `loaded_containers` and the calls of `load_container`, in order. */
  datatype LoadRun = LoadRun(containers: seq<Container>, attempts: seq<Attempt>)

  /** The load loop of `_load_containers` over the first entries. */
  function LoadEntries(entries: seq<ProductRepres>, products: map<Id, SubsetDoc>, profiles: map<Id, PreparedProfile>,
                       loadersByName: map<string, LoaderPlugin>, load: (LoaderPlugin, Id, string) -> LoadOutcome): LoadRun
    requires EntriesKnown(entries, products, profiles)
  {
    if entries == [] then LoadRun([], [])
    else
      var run := LoadEntries(entries[..|entries| - 1], products, profiles, loadersByName, load);
      var p := LoadOne(entries[|entries| - 1], products, profiles, loadersByName, load);
      LoadRun(run.containers + (if p.container.Some? then [p.container.value] else []), run.attempts + p.attempts)
  }

  /** The loop over `representations_ordered`. */
  method LoadOrdered(entries: seq<ProductRepres>, products: map<Id, SubsetDoc>, profiles: map<Id, PreparedProfile>,
                     loadersByName: map<string, LoaderPlugin>, load: (LoaderPlugin, Id, string) -> LoadOutcome)
    returns (loadedContainers: seq<Container>, attempts: seq<Attempt>)
    requires EntriesKnown(entries, products, profiles)
    ensures LoadRun(loadedContainers, attempts) == LoadEntries(entries, products, profiles, loadersByName, load)
  {
    loadedContainers := [];
    attempts := [];
    for i := 0 to |entries|
      invariant LoadRun(loadedContainers, attempts) == LoadEntries(entries[..i], products, profiles, loadersByName, load)
    {
      assert entries[..i + 1][..i] == entries[..i];
      var e := entries[i];
      var container, tried := LoadProduct(products[e.product].name, profiles[e.product], e.repres, loadersByName, load);
      if container.Some? {
        loadedContainers := loadedContainers + [container.value];
      }
      attempts := attempts + tried;
    }
    assert entries[..|entries|] == entries;
  }

  /**
   * Each entry yields at most one container, and every container is the
   * one an entry's loads returned.
   */
  lemma {:induction false} LoadEntriesContainers(entries: seq<ProductRepres>, products: map<Id, SubsetDoc>,
                                                 profiles: map<Id, PreparedProfile>,
                                                 loadersByName: map<string, LoaderPlugin>,
                                                 load: (LoaderPlugin, Id, string) -> LoadOutcome)
    requires EntriesKnown(entries, products, profiles)
    ensures |LoadEntries(entries, products, profiles, loadersByName, load).containers| <= |entries|
    ensures forall c :: c in LoadEntries(entries, products, profiles, loadersByName, load).containers ==>
              exists i :: 0 <= i < |entries| && LoadOne(entries[i], products, profiles, loadersByName, load).container == Some(c)
  {
    if entries != [] {
      var n := |entries| - 1;
      var init := entries[..n];
      LoadEntriesContainers(init, products, profiles, loadersByName, load);
      var prev := LoadEntries(init, products, profiles, loadersByName, load);
      forall c | c in LoadEntries(entries, products, profiles, loadersByName, load).containers
        ensures exists i :: 0 <= i < |entries| && LoadOne(entries[i], products, profiles, loadersByName, load).container == Some(c)
      {
        if c in prev.containers {
          var i :| 0 <= i < n && LoadOne(init[i], products, profiles, loadersByName, load).container == Some(c);
          assert entries[i] == init[i];
        } else {
          assert LoadOne(entries[n], products, profiles, loadersByName, load).container == Some(c);
        }
      }
    }
  }

  /** Every entry whose loads returned a container contributes it. */
  lemma {:induction false} LoadEntriesContainersKept(entries: seq<ProductRepres>, products: map<Id, SubsetDoc>,
                                                     profiles: map<Id, PreparedProfile>,
                                                     loadersByName: map<string, LoaderPlugin>,
                                                     load: (LoaderPlugin, Id, string) -> LoadOutcome)
    requires EntriesKnown(entries, products, profiles)
    ensures forall i :: 0 <= i < |entries| && LoadOne(entries[i], products, profiles, loadersByName, load).container.Some? ==>
              LoadOne(entries[i], products, profiles, loadersByName, load).container.value
                in LoadEntries(entries, products, profiles, loadersByName, load).containers
  {
    if entries != [] {
      var n := |entries| - 1;
      var init := entries[..n];
      LoadEntriesContainersKept(init, products, profiles, loadersByName, load);
      forall i | 0 <= i < |entries| && LoadOne(entries[i], products, profiles, loadersByName, load).container.Some?
        ensures LoadOne(entries[i], products, profiles, loadersByName, load).container.value
                  in LoadEntries(entries, products, profiles, loadersByName, load).containers
      {
        if i < n {
          assert entries[i] == init[i];
        }
      }
    }
  }

  /** The calls of a run are those of its entries, one after another. */
  lemma {:induction false} LoadEntriesAttempts(entries: seq<ProductRepres>, products: map<Id, SubsetDoc>,
                                               profiles: map<Id, PreparedProfile>,
                                               loadersByName: map<string, LoaderPlugin>,
                                               load: (LoaderPlugin, Id, string) -> LoadOutcome)
    requires EntriesKnown(entries, products, profiles)
    ensures forall a :: a in LoadEntries(entries, products, profiles, loadersByName, load).attempts ==>
              exists i :: 0 <= i < |entries| && a in LoadOne(entries[i], products, profiles, loadersByName, load).attempts
  {
    if entries != [] {
      var n := |entries| - 1;
      var init := entries[..n];
      LoadEntriesAttempts(init, products, profiles, loadersByName, load);
      var prev := LoadEntries(init, products, profiles, loadersByName, load);
      forall a | a in LoadEntries(entries, products, profiles, loadersByName, load).attempts
        ensures exists i :: 0 <= i < |entries| && a in LoadOne(entries[i], products, profiles, loadersByName, load).attempts
      {
        if a in prev.attempts {
          var i :| 0 <= i < n && a in LoadOne(init[i], products, profiles, loadersByName, load).attempts;
          assert entries[i] == init[i];
        }
      }
    }
  }

  // ---------------------------------------------------------------------
  // one folder

  /** A folder's indexes: products in dict order, each keyed by its own id, with its own representations. */
  lemma IndexedFolder(data: FolderData)
    requires ProductsKeyed(data)
    ensures Index(data).productsById.keys == data.subsets.keys
    ensures forall p :: p in data.subsets.items ==> Index(data).productsById.items[p] == data.subsets.items[p].subsetDoc
    ensures forall p :: p in data.subsets.items ==>
              && p in Index(data).versionByProductId
              && Index(data).versionByProductId[p].id in Index(data).represByVersionId
              && ReprsOf(Index(data), p) == data.subsets.items[p].repres
  {
    IndexOfSpec(data.subsets.keys, data.subsets.items);
  }

  /** `products_by_id.values()`: the folder's product documents in dict order, with distinct ids. */
  lemma IndexedDocs(data: FolderData)
    requires ProductsKeyed(data)
    ensures IdsDistinct(PyDict.Values(Index(data).productsById))
    ensures |PyDict.Values(Index(data).productsById)| == |data.subsets.keys|
    ensures forall i :: 0 <= i < |data.subsets.keys| ==>
              PyDict.Values(Index(data).productsById)[i] == data.subsets.items[data.subsets.keys[i]].subsetDoc
    ensures forall d :: d in PyDict.Values(Index(data).productsById) ==> d.id in data.subsets.items && data.subsets.items[d.id].subsetDoc == d
  {
    var keys := data.subsets.keys;
    var items := data.subsets.items;
    IndexedFolder(data);
    var docs := PyDict.Values(Index(data).productsById);
    assert |docs| == |keys|;
    assert forall i :: 0 <= i < |docs| ==> docs[i] == items[keys[i]].subsetDoc && docs[i].id == keys[i];
  }

  /** What `_load_containers` is given for one folder. */
  datatype LoadInput = LoadInput(
    products: PyDict.Dict<Id, SubsetDoc>,          // products_by_id
    profiles: map<Id, PreparedProfile>,            // profiles_by_product_id
    validRepres: map<Id, seq<RepreDoc>>)           // valid_repres_by_product_id

  /** Every product with valid representations has a profile, and every product with a profile a document. */
  ghost predicate LoadInputValid(x: LoadInput)
  {
    && PyDict.Valid(x.products)
    && (forall p :: p in x.profiles ==> p in x.products.items)
    && (forall p :: p in x.validRepres ==> p in x.profiles)
  }

  /**
   * `load_containers_by_asset_data` up to the call of `_load_containers`:
   * `None` where it returns early, otherwise the indexes it hands on.
   */
  function PrepareLoad(data: FolderData, buildProfiles: Option<seq<BuildProfile>>,
                       loadersByName: map<string, LoaderPlugin>, regexMatch: (string, string) -> bool): (r: Option<LoadInput>)
    requires ProductsKeyed(data)
    ensures r.Some? ==> LoadInputValid(r.value)
  {
    if buildProfiles.None? || buildProfiles.value == [] || loadersByName == map[] then None
    else
      var validProfiles := ValidProfiles(buildProfiles.value, loadersByName);
      if validProfiles == [] then None
      else
        var x := Index(data);
        if x.productsById.keys == [] then None
        else
          IndexedFolder(data);
          IndexedDocs(data);
          var docs := PyDict.Values(x.productsById);
          var profiles := ProfilesForProducts(docs, validProfiles, regexMatch);
          PrepareProfileForProductsSpec(docs, validProfiles, regexMatch);
          if profiles == map[] then None
          else Some(LoadInput(x.productsById, profiles, ValidReprsByProduct(profiles, x)))
  }

  /** Which products get a profile: those for which the valid profiles are eligible. */
  lemma FolderProfiles(data: FolderData, validProfiles: seq<PreparedProfile>, regexMatch: (string, string) -> bool)
    requires ProductsKeyed(data)
    ensures forall p :: p in data.subsets.items ==>
              (p in ProfilesForProducts(PyDict.Values(Index(data).productsById), validProfiles, regexMatch)
               <==> Eligible(data.subsets.items[p].subsetDoc, validProfiles, regexMatch))
    ensures forall p :: p in ProfilesForProducts(PyDict.Values(Index(data).productsById), validProfiles, regexMatch) ==>
              p in data.subsets.items
  {
    IndexedDocs(data);
    var docs := PyDict.Values(Index(data).productsById);
    PrepareProfileForProductsSpec(docs, validProfiles, regexMatch);
    forall p | p in data.subsets.items
      ensures data.subsets.items[p].subsetDoc in docs
    {
      var i :| 0 <= i < |data.subsets.keys| && data.subsets.keys[i] == p;
      assert docs[i] == data.subsets.items[p].subsetDoc;
    }
  }

  /**
   * The folder is skipped iff the profiles are missing or empty, no loader
   * is available, no profile is valid, the folder has no product or no
   * product gets a profile.
   */
  lemma PrepareLoadSkips(data: FolderData, buildProfiles: Option<seq<BuildProfile>>,
                         loadersByName: map<string, LoaderPlugin>, regexMatch: (string, string) -> bool)
    requires ProductsKeyed(data)
    ensures PrepareLoad(data, buildProfiles, loadersByName, regexMatch).None? <==>
              || buildProfiles.None? || buildProfiles.value == [] || loadersByName == map[]
              || ValidProfiles(buildProfiles.value, loadersByName) == []
              || data.subsets.keys == []
              || forall p :: p in data.subsets.items ==>
                   !Eligible(data.subsets.items[p].subsetDoc, ValidProfiles(buildProfiles.value, loadersByName), regexMatch)
  {
    if !(buildProfiles.None? || buildProfiles.value == [] || loadersByName == map[]) {
      var validProfiles := ValidProfiles(buildProfiles.value, loadersByName);
      if validProfiles != [] && data.subsets.keys != [] {
        IndexedFolder(data);
        FolderProfiles(data, validProfiles, regexMatch);
        var profiles := ProfilesForProducts(PyDict.Values(Index(data).productsById), validProfiles, regexMatch);
        if profiles != map[] {
          var p :| p in profiles;
          assert p in data.subsets.items;
        }
      }
    }
  }

  /**
   * Otherwise each product gets the first valid profile for its type that
   * accepts its name, and keeps exactly its valid representations when it
   * has any.
   */
  lemma PrepareLoadSpec(data: FolderData, buildProfiles: Option<seq<BuildProfile>>,
                        loadersByName: map<string, LoaderPlugin>, regexMatch: (string, string) -> bool)
    requires ProductsKeyed(data)
    requires PrepareLoad(data, buildProfiles, loadersByName, regexMatch).Some?
    ensures var x := PrepareLoad(data, buildProfiles, loadersByName, regexMatch).value;
              && x.products.keys == data.subsets.keys
              && (forall p :: p in data.subsets.items ==>
                    (p in x.profiles <==> Eligible(data.subsets.items[p].subsetDoc, ValidProfiles(buildProfiles.value, loadersByName), regexMatch)))
              && (forall p :: p in x.validRepres <==>
                    p in x.profiles && ValidRepres(data.subsets.items[p].repres, x.profiles[p]) != [])
              && (forall p :: p in x.validRepres ==> x.validRepres[p] == ValidRepres(data.subsets.items[p].repres, x.profiles[p]))
  {
    IndexedFolder(data);
    FolderProfiles(data, ValidProfiles(buildProfiles.value, loadersByName), regexMatch);
  }

  /** The ordered products, then `representations_ordered`; a preset without `product_types` raises. */
  function OrderedEntries(orderPresets: seq<BuildProfile>, x: LoadInput): Result<seq<ProductRepres>, BuildError>
    requires PyDict.Valid(x.products)
  {
    match OrderedProductIds(orderPresets, x.products)
    case Failure(e) => Failure(e)
    case Success(ids) => Success(RepresOrdered(ids, x.validRepres))
  }

  /**
   * Without an error every entry is a product some preset wants, with its
   * valid representations; no product appears twice; and every wanted
   * product with valid representations has its list among the entries.
   */
  lemma OrderedEntriesSpec(orderPresets: seq<BuildProfile>, x: LoadInput)
    requires LoadInputValid(x)
    ensures OrderedEntries(orderPresets, x).Failure? <==> exists i :: 0 <= i < |orderPresets| && orderPresets[i].productTypes.None?
    ensures OrderedEntries(orderPresets, x).Failure? ==> OrderedEntries(orderPresets, x).error == MissingProductTypes
    ensures OrderedEntries(orderPresets, x).Success? ==>
              var entries := OrderedEntries(orderPresets, x).value;
              && EntriesKnown(entries, x.products.items, x.profiles)
              && (forall e :: e in entries ==>
                    && e.product in x.validRepres && e.repres == x.validRepres[e.product]
                    && exists i :: 0 <= i < |orderPresets| && Wants(orderPresets[i], x.products.items[e.product]))
              && (forall i, j :: 0 <= i < j < |entries| ==> entries[i].product != entries[j].product)
              && (forall p :: p in x.validRepres && (exists i :: 0 <= i < |orderPresets| && Wants(orderPresets[i], x.products.items[p])) ==>
                    x.validRepres[p] in Listed(entries))
  {
    OrderedProductIdsSuccess(orderPresets, x.products);
    if OrderedProductIds(orderPresets, x.products).Success? {
      var ids := OrderedProductIds(orderPresets, x.products).value;
      OrderedProductIdsSpec(orderPresets, x.products);
      RepresOrderedEntries(ids, x.validRepres);
      RepresOrderedComplete(ids, x.validRepres);
    }
  }

  /** `_load_containers` on one folder's input, ordering products by the given presets. */
  function LoadContainersOf(orderPresets: seq<BuildProfile>, x: LoadInput,
                            loadersByName: map<string, LoaderPlugin>,
                            load: (LoaderPlugin, Id, string) -> LoadOutcome): Result<LoadRun, BuildError>
    requires LoadInputValid(x)
  {
    match OrderedEntries(orderPresets, x)
    case Failure(e) => Failure(e)
    case Success(entries) =>
      OrderedEntriesSpec(orderPresets, x);
      Success(LoadEntries(entries, x.products.items, x.profiles, loadersByName, load))
  }

  /** What loading one folder gives: the folder's result (`None` for an early return) and the calls made. */
  datatype FolderRun = FolderRun(folder: Option<LoadedFolder>, attempts: seq<Attempt>)

  /** `load_containers_by_asset_data`, with the presets `_load_containers` orders products by. */
  function LoadFolder(data: FolderData, buildProfiles: Option<seq<BuildProfile>>, orderPresets: seq<BuildProfile>,
                      loadersByName: map<string, LoaderPlugin>, regexMatch: (string, string) -> bool,
                      load: (LoaderPlugin, Id, string) -> LoadOutcome): Result<FolderRun, BuildError>
    requires ProductsKeyed(data)
  {
    match PrepareLoad(data, buildProfiles, loadersByName, regexMatch)
    case None => Success(FolderRun(None, []))
    case Some(x) =>
      match LoadContainersOf(orderPresets, x, loadersByName, load)
      case Failure(e) => Failure(e)
      case Success(run) => Success(FolderRun(Some(LoadedFolder(data.assetDoc, run.containers)), run.attempts))
  }
}
