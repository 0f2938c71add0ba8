/** Migration of flat stock rows into the master-data model: one product per distinct
  * name-and-unit key, in the order the keys first appear, and one stock record per row linked
  * to its product. The random product ids and the current time are parameters. */
module Migration {
  import opened Wrappers
  import opened SeqUtil
  import opened StockTypes

  /** The key that identifies a product: `<name>-<unit>`. */
  function Key(item: StockItem): string {
    item.name + "-" + item.unit
  }

  /** The keys of the first `n` rows, in row order. */
  function KeysUpTo<K>(items: seq<StockItem>, keyOf: StockItem -> K, n: nat): (r: seq<K>)
    requires n <= |items|
    ensures |r| == n
  {
    if n == 0 then [] else KeysUpTo(items, keyOf, n - 1) + [keyOf(items[n - 1])]
  }

  /** The `g`-th key is the key of the `g`-th row. */
  lemma {:induction false} KeysUpToAt<K>(items: seq<StockItem>, keyOf: StockItem -> K, n: nat, g: nat)
    requires g < n <= |items|
    ensures KeysUpTo(items, keyOf, n)[g] == keyOf(items[g])
  {
    if g < n - 1 {
      KeysUpToAt(items, keyOf, n - 1, g);
    }
  }

  /** The keys of all rows, in row order. */
  function KeyList<K>(items: seq<StockItem>, keyOf: StockItem -> K): seq<K> {
    KeysUpTo(items, keyOf, |items|)
  }

  /** The product created for the first row of a key: its name, category, unit and notes, a
    * year of shelf life and no barcodes. */
  function NewProduct(item: StockItem, id: string): (p: Product)
    ensures p.id == id && p.name == item.name && p.category == item.category && p.unit == item.unit
    ensures p.description == item.notes && p.defaultExpirationDays == 365 && p.barcodes == []
  {
    Product(id, item.name, item.category, item.unit, 365, [], item.notes, None, None, None, None, None, None)
  }

  /** The stock record of a row: its id, quantity, date and storage copied, its branch name as
    * branch id, and missing timestamps filled with `now`. */
  function StockOf(item: StockItem, productId: string, now: string): (s: StockInventory)
    ensures s.id == item.id && s.productId == productId && s.branchId == item.branch
    ensures s.storageLocation == item.storageLocation && s.quantity == item.quantity
    ensures s.expirationDate == item.expirationDate && s.notes == item.notes
    ensures s.createdAt == OptOrStr(item.createdAt, now) && s.updatedAt == OptOrStr(item.updatedAt, now)
  {
    StockInventory(item.id, productId, item.branch, item.storageLocation, item.quantity, item.expirationDate,
                   OptOrStr(item.createdAt, now), OptOrStr(item.updatedAt, now), item.notes)
  }

  /** Row `f` is the first row whose key is `key`. */
  ghost predicate FirstRow<K>(items: seq<StockItem>, keyOf: StockItem -> K, f: int, key: K) {
    0 <= f < |items| && keyOf(items[f]) == key && forall g :: 0 <= g < f ==> keyOf(items[g]) != key
  }

  /** A key has at most one first row. */
  lemma FirstRowUnique<K>(items: seq<StockItem>, keyOf: StockItem -> K, f1: int, f2: int, key: K)
    requires FirstRow(items, keyOf, f1, key) && FirstRow(items, keyOf, f2, key)
    ensures f1 == f2
  {
  }

  /** After `i` rows, `firsts[j]` is the first row of the `j`-th key. */
  ghost predicate FirstsSoFar<K>(items: seq<StockItem>, keyOf: StockItem -> K, i: nat, order: seq<K>, firsts: seq<nat>) {
    |firsts| == |order|
    && forall j :: 0 <= j < |order| ==> firsts[j] < i && FirstRow(items, keyOf, firsts[j], order[j])
  }

  /** The map holds the keys of `order` and no other; the `j`-th key's product is built from its
    * first row with the id `freshId(j)`. */
  ghost predicate MapSoFar<K>(items: seq<StockItem>, order: seq<K>, productsMap: map<K, Product>,
                              firsts: seq<nat>, freshId: nat -> string) {
    |firsts| == |order|
    && (forall key :: key in productsMap ==> key in order)
    && forall j :: 0 <= j < |order| ==> (firsts[j] < |items| && order[j] in productsMap
      && productsMap[order[j]] == NewProduct(items[firsts[j]], freshId(j)))
  }

  /** After `i` rows: `order` holds the distinct keys seen, in first-occurrence order, and the
    * map the product of each. */
  ghost predicate ProductsSoFar<K(!new)>(items: seq<StockItem>, keyOf: StockItem -> K, i: nat, order: seq<K>,
                                         productsMap: map<K, Product>, firsts: seq<nat>, freshId: nat -> string)
    requires i <= |items|
  {
    order == Dedup(KeysUpTo(items, keyOf, i))
    && FirstsSoFar(items, keyOf, i, order, firsts)
    && MapSoFar(items, order, productsMap, firsts, freshId)
  }

  /** After `i` rows: one stock per row, linked through `which` to the key of its row. */
  ghost predicate StocksSoFar<K>(items: seq<StockItem>, keyOf: StockItem -> K, i: nat, order: seq<K>,
                                 productsMap: map<K, Product>, which: seq<nat>, stocks: seq<StockInventory>, now: string)
    requires i <= |items|
  {
    |stocks| == |which| == i
    && forall k :: 0 <= k < i ==> (which[k] < |order| && order[which[k]] == keyOf(items[k])
      && order[which[k]] in productsMap
      && stocks[k] == StockOf(items[k], productsMap[order[which[k]]].id, now))
  }

  /** A row whose key was seen before leaves the key order as it is; a row with a new key adds
    * it at the end, and is that key's first row. */
  lemma OrderStep<K(!new)>(items: seq<StockItem>, keyOf: StockItem -> K, i: nat, order: seq<K>)
    requires i < |items| && order == Dedup(KeysUpTo(items, keyOf, i))
    ensures keyOf(items[i]) in order ==> order == Dedup(KeysUpTo(items, keyOf, i + 1))
    ensures keyOf(items[i]) !in order ==> order + [keyOf(items[i])] == Dedup(KeysUpTo(items, keyOf, i + 1))
    ensures keyOf(items[i]) !in order ==> FirstRow(items, keyOf, i, keyOf(items[i]))
  {
    DedupAppend(KeysUpTo(items, keyOf, i), keyOf(items[i]));
    if keyOf(items[i]) !in order {
      forall g | 0 <= g < i ensures keyOf(items[g]) != keyOf(items[i]) {
        KeysUpToAt(items, keyOf, i, g);
      }
    }
  }

  lemma FirstsGrow<K>(items: seq<StockItem>, keyOf: StockItem -> K, i: nat, order: seq<K>, firsts: seq<nat>, key: K)
    requires FirstsSoFar(items, keyOf, i, order, firsts) && FirstRow(items, keyOf, i, key)
    ensures FirstsSoFar(items, keyOf, i + 1, order + [key], firsts + [i])
  {
    forall j | 0 <= j < |order| + 1
      ensures (firsts + [i])[j] < i + 1 && FirstRow(items, keyOf, (firsts + [i])[j], (order + [key])[j])
    {
      if j < |order| {
        assert (firsts + [i])[j] == firsts[j] && (order + [key])[j] == order[j];
      }
    }
  }

  lemma MapGrows<K>(items: seq<StockItem>, order: seq<K>, productsMap: map<K, Product>, firsts: seq<nat>,
                    freshId: nat -> string, i: nat, key: K, p: Product)
    requires MapSoFar(items, order, productsMap, firsts, freshId)
    requires i < |items| && key !in order && p == NewProduct(items[i], freshId(|order|))
    ensures MapSoFar(items, order + [key], productsMap[key := p], firsts + [i], freshId)
  {
    var order', map', firsts' := order + [key], productsMap[key := p], firsts + [i];
    forall j | 0 <= j < |order'|
      ensures firsts'[j] < |items| && order'[j] in map' && map'[order'[j]] == NewProduct(items[firsts'[j]], freshId(j))
    {
      if j < |order| {
        assert order'[j] == order[j] && firsts'[j] == firsts[j] && order[j] != key;
      } else {
        assert j == |order| && order'[j] == key && firsts'[j] == i;
      }
    }
  }

  /** Products after a row with a new key: the key is added, with the product of this row. */
  lemma NewKeyStep<K(!new)>(items: seq<StockItem>, keyOf: StockItem -> K, i: nat, order: seq<K>,
                            productsMap: map<K, Product>, firsts: seq<nat>, freshId: nat -> string, key: K, p: Product)
    requires i < |items| && ProductsSoFar(items, keyOf, i, order, productsMap, firsts, freshId)
    requires key == keyOf(items[i]) && key !in productsMap && p == NewProduct(items[i], freshId(|order|))
    ensures key !in order
    ensures ProductsSoFar(items, keyOf, i + 1, order + [key], productsMap[key := p], firsts + [i], freshId)
  {
    OrderStep(items, keyOf, i, order);
    FirstsGrow(items, keyOf, i, order, firsts, key);
    MapGrows(items, order, productsMap, firsts, freshId, i, key, p);
  }

  /** Products after a row whose key is in the map: nothing changes. */
  lemma SeenKeyStep<K(!new)>(items: seq<StockItem>, keyOf: StockItem -> K, i: nat, order: seq<K>,
                             productsMap: map<K, Product>, firsts: seq<nat>, freshId: nat -> string)
    requires i < |items| && ProductsSoFar(items, keyOf, i, order, productsMap, firsts, freshId)
    requires keyOf(items[i]) in productsMap
    ensures ProductsSoFar(items, keyOf, i + 1, order, productsMap, firsts, freshId)
  {
    OrderStep(items, keyOf, i, order);
  }

  lemma StockStep<K>(items: seq<StockItem>, keyOf: StockItem -> K, i: nat, order: seq<K>, productsMap: map<K, Product>,
                     which: seq<nat>, stocks: seq<StockInventory>, now: string, j: nat)
    requires i < |items| && StocksSoFar(items, keyOf, i, order, productsMap, which, stocks, now)
    requires j < |order| && order[j] == keyOf(items[i]) && order[j] in productsMap
    ensures StocksSoFar(items, keyOf, i + 1, order, productsMap, which + [j],
                        stocks + [StockOf(items[i], productsMap[order[j]].id, now)], now)
  {
  }

  /** Adding a product under a new key keeps every earlier stock's link. */
  lemma StocksGrow<K>(items: seq<StockItem>, keyOf: StockItem -> K, i: nat, order: seq<K>, productsMap: map<K, Product>,
                      which: seq<nat>, stocks: seq<StockInventory>, now: string, key: K, p: Product)
    requires i <= |items| && StocksSoFar(items, keyOf, i, order, productsMap, which, stocks, now)
    requires key !in order
    ensures StocksSoFar(items, keyOf, i, order + [key], productsMap[key := p], which, stocks, now)
  {
    forall k | 0 <= k < i
      ensures (order + [key])[which[k]] == order[which[k]] && order[which[k]] != key
    {
    }
  }

  /** The loop invariant of the migration after `i` rows. */
  ghost predicate Migrated<K(!new)>(items: seq<StockItem>, keyOf: StockItem -> K, i: nat, order: seq<K>,
                                    productsMap: map<K, Product>, firsts: seq<nat>, which: seq<nat>,
                                    stocks: seq<StockInventory>, freshId: nat -> string, now: string)
    requires i <= |items|
  {
    ProductsSoFar(items, keyOf, i, order, productsMap, firsts, freshId)
    && StocksSoFar(items, keyOf, i, order, productsMap, which, stocks, now)
  }

  /** A row whose key is in the map: it is some key of the order, and its stock links to the
    * product already made. */
  lemma SeenRow<K(!new)>(items: seq<StockItem>, keyOf: StockItem -> K, i: nat, order: seq<K>,
                         productsMap: map<K, Product>, firsts: seq<nat>, which: seq<nat>,
                         stocks: seq<StockInventory>, freshId: nat -> string, now: string)
    returns (j: nat)
    requires i < |items| && Migrated(items, keyOf, i, order, productsMap, firsts, which, stocks, freshId, now)
    requires keyOf(items[i]) in productsMap
    ensures j < |order| && order[j] == keyOf(items[i])
    ensures Migrated(items, keyOf, i + 1, order, productsMap, firsts, which + [j],
                     stocks + [StockOf(items[i], productsMap[keyOf(items[i])].id, now)], freshId, now)
  {
    assert keyOf(items[i]) in order;
    j :| 0 <= j < |order| && order[j] == keyOf(items[i]);
    SeenKeyStep(items, keyOf, i, order, productsMap, firsts, freshId);
    StockStep(items, keyOf, i, order, productsMap, which, stocks, now, j);
  }

  /** A row with a new key: a product is made for it, and its stock links to that product. */
  lemma NewRow<K(!new)>(items: seq<StockItem>, keyOf: StockItem -> K, i: nat, order: seq<K>,
                        productsMap: map<K, Product>, firsts: seq<nat>, which: seq<nat>,
                        stocks: seq<StockInventory>, freshId: nat -> string, now: string, key: K, p: Product)
    requires i < |items| && Migrated(items, keyOf, i, order, productsMap, firsts, which, stocks, freshId, now)
    requires key == keyOf(items[i]) && key !in productsMap && p == NewProduct(items[i], freshId(|order|))
    ensures Migrated(items, keyOf, i + 1, order + [key], productsMap[key := p], firsts + [i], which + [|order|],
                     stocks + [StockOf(items[i], p.id, now)], freshId, now)
  {
    NewKeyStep(items, keyOf, i, order, productsMap, firsts, freshId, key, p);
    StocksGrow(items, keyOf, i, order, productsMap, which, stocks, now, key, p);
    StockStep(items, keyOf, i, order + [key], productsMap[key := p], which, stocks, now, |order|);
  }

  /** Before the first row there are no keys, products or stocks. */
  lemma NothingMigrated<K(!new)>(items: seq<StockItem>, keyOf: StockItem -> K, freshId: nat -> string, now: string)
    ensures Migrated(items, keyOf, 0, [], map[], [], [], [], freshId, now)
  {
    assert items[..0] == [];
  }

  /** `migrateFromStockItems`: rows grouped by `<name>-<unit>`. */
  method MigrateFromStockItems(items: seq<StockItem>, freshId: nat -> string, now: string)
    returns (products: seq<Product>, stocks: seq<StockInventory>)
    ensures var keys := Dedup(KeyList(items, Key));
      |products| == |keys|
      && forall j, f :: 0 <= j < |keys| && FirstRow(items, Key, f, keys[j]) ==> products[j] == NewProduct(items[f], freshId(j))
    ensures var keys := Dedup(KeyList(items, Key));
      |stocks| == |items|
      && forall k, j :: 0 <= k < |items| && 0 <= j < |keys| && keys[j] == Key(items[k]) ==>
        stocks[k] == StockOf(items[k], products[j].id, now)
  {
    products, stocks := MigrateByKey(items, Key, freshId, now);
  }

  /** The migration loop, for any key of the rows. The `j`-th new product gets the id
    * `freshId(j)`. The products are one per distinct key in first-occurrence order, each built
    * from the first row of its key; the stocks are one per row, in row order, each linked to the
    * product of its row's key. */
  method MigrateByKey<K(==,!new)>(items: seq<StockItem>, keyOf: StockItem -> K, freshId: nat -> string, now: string)
    returns (products: seq<Product>, stocks: seq<StockInventory>)
    ensures var keys := Dedup(KeyList(items, keyOf));
      |products| == |keys|
      && forall j, f :: 0 <= j < |keys| && FirstRow(items, keyOf, f, keys[j]) ==> products[j] == NewProduct(items[f], freshId(j))
    ensures var keys := Dedup(KeyList(items, keyOf));
      |stocks| == |items|
      && forall k, j :: 0 <= k < |items| && 0 <= j < |keys| && keys[j] == keyOf(items[k]) ==>
        stocks[k] == StockOf(items[k], products[j].id, now)
  {
    var productsMap: map<K, Product> := map[];
    var order: seq<K> := [];
    ghost var firsts: seq<nat> := [];
    ghost var which: seq<nat> := [];
    stocks := [];
    var i := 0;
    NothingMigrated(items, keyOf, freshId, now);
    while i < |items|
      invariant 0 <= i <= |items|
      invariant Migrated(items, keyOf, i, order, productsMap, firsts, which, stocks, freshId, now)
    {
      order, productsMap, firsts, which, stocks :=
        MigrateRow(items, keyOf, i, order, productsMap, firsts, which, stocks, freshId, now);
      i := i + 1;
    }
    assert forall j :: 0 <= j < |order| ==> order[j] in productsMap;
    products := ValuesInOrder(order, productsMap);
    MigrationOutcome(items, keyOf, order, productsMap, firsts, which, stocks, freshId, now, products);
  }

  /** One turn of the loop: a row whose key is in the map reuses that key's product; a row with
    * a new key gets a new product with the next fresh id, added under its key. Either way the
    * row's stock, linked to that product, is appended. */
  method MigrateRow<K(==,!new)>(items: seq<StockItem>, keyOf: StockItem -> K, i: nat, order: seq<K>,
                                productsMap: map<K, Product>, ghost firsts: seq<nat>, ghost which: seq<nat>,
                                stocks: seq<StockInventory>, freshId: nat -> string, now: string)
    returns (order': seq<K>, productsMap': map<K, Product>, ghost firsts': seq<nat>, ghost which': seq<nat>,
             stocks': seq<StockInventory>)
    requires i < |items| && Migrated(items, keyOf, i, order, productsMap, firsts, which, stocks, freshId, now)
    ensures keyOf(items[i]) in productsMap ==> order' == order && productsMap' == productsMap
    ensures keyOf(items[i]) !in productsMap ==> (order' == order + [keyOf(items[i])]
      && productsMap' == productsMap[keyOf(items[i]) := NewProduct(items[i], freshId(|order|))])
    ensures keyOf(items[i]) in productsMap' && stocks' == stocks + [StockOf(items[i], productsMap'[keyOf(items[i])].id, now)]
    ensures Migrated(items, keyOf, i + 1, order', productsMap', firsts', which', stocks', freshId, now)
  {
    var item := items[i];
    var key := keyOf(item);
    var productId;
    if key in productsMap {
      productId := productsMap[key].id;
      ghost var j := SeenRow(items, keyOf, i, order, productsMap, firsts, which, stocks, freshId, now);
      order', productsMap', firsts', which' := order, productsMap, firsts, which + [j];
    } else {
      productId := freshId(|order|);
      var product := NewProduct(item, productId);
      NewRow(items, keyOf, i, order, productsMap, firsts, which, stocks, freshId, now, key, product);
      order', productsMap' := order + [key], productsMap[key := product];
      firsts', which' := firsts + [i], which + [|order|];
    }
    stocks' := stocks + [StockOf(item, productId, now)];
  }

  /** After the last row, the map's values in key order are the products the method promises,
    * and the stocks are linked to them. */
  lemma MigrationOutcome<K(!new)>(items: seq<StockItem>, keyOf: StockItem -> K, order: seq<K>,
                                  productsMap: map<K, Product>, firsts: seq<nat>, which: seq<nat>,
                                  stocks: seq<StockInventory>, freshId: nat -> string, now: string, products: seq<Product>)
    requires Migrated(items, keyOf, |items|, order, productsMap, firsts, which, stocks, freshId, now)
    requires |products| == |order| && forall j :: 0 <= j < |order| ==> order[j] in productsMap && products[j] == productsMap[order[j]]
    ensures var keys := Dedup(KeyList(items, keyOf));
      |products| == |keys|
      && forall j, f :: 0 <= j < |keys| && FirstRow(items, keyOf, f, keys[j]) ==> products[j] == NewProduct(items[f], freshId(j))
    ensures var keys := Dedup(KeyList(items, keyOf));
      |stocks| == |items|
      && forall k, j :: 0 <= k < |items| && 0 <= j < |keys| && keys[j] == keyOf(items[k]) ==>
        stocks[k] == StockOf(items[k], products[j].id, now)
  {
    ProductsResult(items, keyOf, order, productsMap, firsts, freshId, products);
    StocksResult(items, keyOf, order, productsMap, which, stocks, now, products);
  }

  /** The values of a map listed in the order of `order`, as `Array.from(map.values())`. */
  function ValuesInOrder<K>(order: seq<K>, m: map<K, Product>): (r: seq<Product>)
    requires forall j :: 0 <= j < |order| ==> order[j] in m
    ensures |r| == |order| && forall j :: 0 <= j < |order| ==> r[j] == m[order[j]]
  {
    seq(|order|, j requires 0 <= j < |order| => m[order[j]])
  }

  /** After the last row the products are one per key, built from the key's first row. */
  lemma ProductsResult<K(!new)>(items: seq<StockItem>, keyOf: StockItem -> K, order: seq<K>, productsMap: map<K, Product>,
                                firsts: seq<nat>, freshId: nat -> string, products: seq<Product>)
    requires ProductsSoFar(items, keyOf, |items|, order, productsMap, firsts, freshId)
    requires |products| == |order| && forall j :: 0 <= j < |order| ==> order[j] in productsMap && products[j] == productsMap[order[j]]
    ensures order == Dedup(KeyList(items, keyOf))
    ensures forall j, f :: 0 <= j < |order| && FirstRow(items, keyOf, f, order[j]) ==> products[j] == NewProduct(items[f], freshId(j))
  {
    assert items[..|items|] == items;
    forall j, f | 0 <= j < |order| && FirstRow(items, keyOf, f, order[j])
      ensures products[j] == NewProduct(items[f], freshId(j))
    {
      FirstRowUnique(items, keyOf, f, firsts[j], order[j]);
    }
  }

  /** After the last row there is one stock per row, linked to the product of its key. */
  lemma StocksResult<K(!new)>(items: seq<StockItem>, keyOf: StockItem -> K, order: seq<K>, productsMap: map<K, Product>,
                              which: seq<nat>, stocks: seq<StockInventory>, now: string, products: seq<Product>)
    requires StocksSoFar(items, keyOf, |items|, order, productsMap, which, stocks, now) && Distinct(order)
    requires |products| == |order| && forall j :: 0 <= j < |order| ==> order[j] in productsMap && products[j] == productsMap[order[j]]
    ensures |stocks| == |items|
    ensures forall k, j :: 0 <= k < |items| && 0 <= j < |order| && order[j] == keyOf(items[k]) ==>
      stocks[k] == StockOf(items[k], products[j].id, now)
  {
    forall k, j | 0 <= k < |items| && 0 <= j < |order| && order[j] == keyOf(items[k])
      ensures stocks[k] == StockOf(items[k], products[j].id, now)
    {
      assert order[which[k]] == order[j];
    }
  }

  /** Every row's key is listed once: so every row links to exactly one product, and rows
    * sharing a key share it. */
  lemma KeysAreDistinct(items: seq<StockItem>)
    ensures Distinct(Dedup(KeyList(items, Key)))
    ensures forall k :: 0 <= k < |items| ==> Key(items[k]) in Dedup(KeyList(items, Key))
  {
    forall k | 0 <= k < |items| ensures Key(items[k]) in Dedup(KeyList(items, Key)) {
      KeysUpToAt(items, Key, |items|, k);
    }
  }
}
