/**
  What the optional one-to-one index promises: between operations its
  entries are exactly the cached states with a present key, lookups and key
  streams agree with the cache, and its snapshot is reused exactly until an
  indexed state is added or removed.
 */
module IndexProperties {
  import opened IndexedCache

  /**
    Under the invariant's id and key discipline, the abstraction relation
    holds of exactly one map: the reference `Indexed`.
   */
  lemma AbstractsIsIndexed(items: map<Id, Item>, m: map<Key, Item>)
    requires OneToOne(items) && KeyedById(items)
    ensures Abstracts(m, items) <==> m == Indexed(items)
  {
    var ix := Indexed(items);
    forall id | id in items && items[id].key.Some?
      ensures items[id].key.value in ix && ix[items[id].key.value] == items[id]
    {
      var k := items[id].key.value;
      assert k in ix;
      var j :| j in items && items[j].key.Some? && items[j].key.value == k && ix[k] == items[j];
      assert j == id;
    }
    assert Abstracts(ix, items) by {
      forall k | k in ix
        ensures ix[k].key == Some(k) && ix[k].id in items && items[ix[k].id] == ix[k]
      {
        var j :| j in items && items[j].key.Some? && items[j].key.value == k && ix[k] == items[j];
        assert items[j].id == j;
      }
    }
    if Abstracts(m, items) {
      forall k | k in m ensures k in ix && m[k] == ix[k] {
        var id := m[k].id;
        assert items[id].key == Some(k);
      }
      forall k | k in ix ensures k in m {
        var j :| j in items && items[j].key.Some? && items[j].key.value == k;
      }
      assert m.Keys == ix.Keys;
    }
  }

  lemma EmptyInv()
    ensures Inv(Empty())
    ensures StreamKeys(Empty()) == {}
  {
  }

  /** Under the invariant, a key is used by some cached state exactly when it is indexed. */
  lemma KeyUsedIsIndexed(c: Cache, k: Key)
    requires Inv(c)
    ensures KeyUsed(c.items, k) <==> k in c.index.entries
  {
    if k in c.index.entries {
      assert c.items[c.index.entries[k].id].key == Some(k);
    }
  }

  /**
    Adding a state keeps the invariant, so the index stays the abstraction of
    the cache; the add is refused exactly when the id is already cached or
    another state already has the key.
   */
  lemma AddInv(c: Cache, item: Item)
    requires Inv(c)
    ensures Add(c, item).Fail? <==> item.id in c.items || (item.key.Some? && KeyUsed(c.items, item.key.value))
    ensures Add(c, item).Ok? ==> Inv(Add(c, item).value)
  {
    if item.key.Some? {
      KeyUsedIsIndexed(c, item.key.value);
    }
    if Add(c, item).Ok? {
      var c' := Add(c, item).value;
      var items' := c.items[item.id := item];
      assert OneToOne(items') by {
        forall a, b | a in items' && b in items' && a != b && items'[a].key.Some?
          ensures items'[a].key != items'[b].key
        {
          if a == item.id {
            assert items'[b] == c.items[b];
          } else if b == item.id && item.key.Some? {
            assert items'[a] == c.items[a];
            assert items'[a].key.value in c.index.entries;
          }
        }
      }
      assert Abstracts(c'.index.entries, items') by {
        forall k | k in c'.index.entries
          ensures c'.index.entries[k].key == Some(k) && c'.index.entries[k].id in items'
            && items'[c'.index.entries[k].id] == c'.index.entries[k]
        {
          if item.key != Some(k) {
            assert c.index.entries[k].id in c.items;
          }
        }
      }
    }
  }

  /**
    Deleting a state keeps the invariant; the delete is refused exactly when
    no state with that id is cached.
   */
  lemma DeleteInv(c: Cache, id: Id)
    requires Inv(c)
    ensures Delete(c, id).Fail? <==> id !in c.items
    ensures Delete(c, id).Ok? ==> Inv(Delete(c, id).value)
  {
    if id in c.items {
      var c' := Delete(c, id).value;
      var items' := c.items - {id};
      assert Abstracts(c'.index.entries, items') by {
        forall k | k in c'.index.entries
          ensures c'.index.entries[k].key == Some(k) && c'.index.entries[k].id in items'
            && items'[c'.index.entries[k].id] == c'.index.entries[k]
        {
          var j := c.index.entries[k].id;
          assert j != id;
        }
      }
    }
  }

  /** States added and refused together: fresh, distinct ids, and fresh, distinct present keys. */
  ghost predicate Admissible(items: map<Id, Item>, batch: seq<Item>) {
    && (forall i :: 0 <= i < |batch| ==> batch[i].id !in items)
    && (forall i :: 0 <= i < |batch| && batch[i].key.Some? ==> !KeyUsed(items, batch[i].key.value))
    && (forall i, j :: 0 <= i < j < |batch| ==> batch[i].id != batch[j].id)
    && (forall i, j :: 0 <= i < j < |batch| && batch[i].key.Some? ==> batch[i].key != batch[j].key)
  }

  /** The batch is admissible exactly when its head is and its tail is, against the cache with the head added. */
  lemma AdmissibleSplit(c: Cache, batch: seq<Item>)
    requires Inv(c) && batch != []
    ensures Admissible(c.items, batch) <==>
      Add(c, batch[0]).Ok? && Admissible(Add(c, batch[0]).value.items, batch[1..])
  {
    AddInv(c, batch[0]);
    var b := batch[0];
    var rest := batch[1..];
    var items' := c.items[b.id := b];
    if Admissible(c.items, batch) {
      assert Add(c, b).Ok?;
      forall i | 0 <= i < |rest| && rest[i].key.Some? ensures !KeyUsed(items', rest[i].key.value) {
        assert rest[i] == batch[i + 1];
      }
      forall i | 0 <= i < |rest| ensures rest[i].id !in items' {
        assert rest[i] == batch[i + 1];
      }
      forall i, j | 0 <= i < j < |rest| ensures rest[i].id != rest[j].id {
        assert rest[i] == batch[i + 1] && rest[j] == batch[j + 1];
      }
      forall i, j | 0 <= i < j < |rest| && rest[i].key.Some? ensures rest[i].key != rest[j].key {
        assert rest[i] == batch[i + 1] && rest[j] == batch[j + 1];
      }
    }
    if Add(c, b).Ok? && Admissible(items', rest) {
      forall i | 0 <= i < |batch| ensures batch[i].id !in c.items {
        if i > 0 { assert batch[i] == rest[i - 1]; }
      }
      forall i | 0 <= i < |batch| && batch[i].key.Some? ensures !KeyUsed(c.items, batch[i].key.value) {
        if i > 0 {
          assert batch[i] == rest[i - 1];
        }
      }
      forall i, j | 0 <= i < j < |batch| ensures batch[i].id != batch[j].id {
        assert batch[j] == rest[j - 1];
        if i > 0 { assert batch[i] == rest[i - 1]; }
        else { assert batch[j].id !in items'; }
      }
      forall i, j | 0 <= i < j < |batch| && batch[i].key.Some? ensures batch[i].key != batch[j].key {
        assert batch[j] == rest[j - 1];
        if i > 0 {
          assert batch[i] == rest[i - 1];
        } else if batch[j].key.Some? {
          assert items'[b.id] == b;
          assert KeyUsed(items', b.key.value);
        }
      }
    }
  }

  /**
    A batch add keeps the invariant and succeeds exactly when the batch is
    admissible; on success every state of the batch is cached under its id,
    every state cached before is still there, and nothing else is added.
   */
  lemma {:induction false} AddAllInv(c: Cache, batch: seq<Item>)
    requires Inv(c)
    ensures AddAll(c, batch).Ok? <==> Admissible(c.items, batch)
    ensures AddAll(c, batch).Ok? ==> Inv(AddAll(c, batch).value)
    ensures AddAll(c, batch).Ok? ==> AddedAll(c.items, batch, AddAll(c, batch).value.items)
    decreases |batch|
  {
    if batch != [] {
      AddInv(c, batch[0]);
      AdmissibleSplit(c, batch);
      if Add(c, batch[0]).Ok? {
        var c1 := Add(c, batch[0]).value;
        AddAllInv(c1, batch[1..]);
        if AddAll(c1, batch[1..]).Ok? {
          AddedAllStep(c.items, batch, AddAll(c1, batch[1..]).value.items);
        }
      }
    }
  }

  /** `after` is `before` with the states of `batch` added under their ids. */
  ghost predicate AddedAll(before: map<Id, Item>, batch: seq<Item>, after: map<Id, Item>) {
    && (forall id :: id in before ==> id in after && after[id] == before[id])
    && (forall i :: 0 <= i < |batch| ==> batch[i].id in after && after[batch[i].id] == batch[i])
    && after.Keys == before.Keys + (set x | x in batch :: x.id)
  }

  lemma AddedAllStep(before: map<Id, Item>, batch: seq<Item>, after: map<Id, Item>)
    requires batch != [] && AddedAll(before[batch[0].id := batch[0]], batch[1..], after)
    requires batch[0].id !in before
    ensures AddedAll(before, batch, after)
  {
    var rest := batch[1..];
    forall i | 0 <= i < |batch| ensures batch[i].id in after && after[batch[i].id] == batch[i] {
      if i > 0 {
        assert batch[i] == rest[i - 1];
      }
    }
    assert (set x | x in batch :: x.id) == {batch[0].id} + (set x | x in rest :: x.id) by {
      assert batch == [batch[0]] + rest;
    }
  }

  /** A lookup finds a state exactly when some cached state has that key, and then it is that state. */
  lemma GetOrNullFinds(c: Cache, k: Key)
    requires Inv(c)
    ensures GetOrNull(c, k).Some? <==> KeyUsed(c.items, k)
    ensures GetOrNull(c, k).Some? ==>
      var x := GetOrNull(c, k).value; x.key == Some(k) && x.id in c.items && c.items[x.id] == x
  {
    KeyUsedIsIndexed(c, k);
  }

  /** The keys streamed are exactly the present keys of the cached states. */
  lemma StreamKeysUsed(c: Cache)
    requires Inv(c)
    ensures forall k :: k in StreamKeys(c) <==> KeyUsed(c.items, k)
  {
    forall k ensures k in StreamKeys(c) <==> KeyUsed(c.items, k) {
      KeyUsedIsIndexed(c, k);
    }
  }

  /** Adding a state with an empty key indexes nothing: same keys, same snapshot. */
  lemma EmptyKeyNotIndexed(c: Cache, item: Item)
    requires Inv(c) && item.key.None? && Add(c, item).Ok?
    ensures StreamKeys(Add(c, item).value) == StreamKeys(c)
    ensures TakeSnapshot(Add(c, item).value).snap == TakeSnapshot(c).snap
  {
  }

  /** Adding a state with a present key makes the lookup of that key return it. */
  lemma PresentKeyIndexed(c: Cache, item: Item)
    requires Inv(c) && item.key.Some? && Add(c, item).Ok?
    ensures GetOrNull(Add(c, item).value, item.key.value) == Some(item)
  {
  }

  /** A snapshot shows exactly the cached states with a present key, and taking it keeps the invariant. */
  lemma SnapshotContents(c: Cache)
    requires Inv(c)
    ensures TakeSnapshot(c).snap.contents == Indexed(c.items)
    ensures Inv(TakeSnapshot(c).cache)
  {
    AbstractsIsIndexed(c.items, c.index.entries);
  }

  /** With no change in between, the second snapshot is the first one. */
  lemma SnapshotStable(c: Cache)
    ensures var t := TakeSnapshot(c); TakeSnapshot(t.cache) == t
  {
  }

  /** After adding an indexed state, the next snapshot is a new one holding the new entry. */
  lemma IndexedAddRenews(c: Cache, item: Item)
    requires Inv(c) && c.index.cached.Some? && item.key.Some? && Add(c, item).Ok?
    ensures var s := TakeSnapshot(Add(c, item).value).snap;
      && s.stamp != c.index.cached.value.stamp
      && s.contents == c.index.cached.value.contents[item.key.value := item]
  {
  }

  /** After deleting an indexed state, the next snapshot is a new one without its entry. */
  lemma IndexedDeleteRenews(c: Cache, id: Id)
    requires Inv(c) && c.index.cached.Some? && id in c.items && c.items[id].key.Some?
    ensures var s := TakeSnapshot(Delete(c, id).value).snap;
      && s.stamp != c.index.cached.value.stamp
      && s.contents == c.index.cached.value.contents - {c.items[id].key.value}
  {
    assert c.items[id].key.value in c.index.entries;
  }

  /** Deleting a state with an empty key indexes nothing: same keys, same snapshot. */
  lemma UnindexedDeleteKeeps(c: Cache, id: Id)
    requires Inv(c) && id in c.items && c.items[id].key.None?
    ensures StreamKeys(Delete(c, id).value) == StreamKeys(c)
    ensures TakeSnapshot(Delete(c, id).value).snap == TakeSnapshot(c).snap
  {
  }

  /** Deleting a state removes its own entry from the snapshot and leaves every other entry as it was. */
  lemma DeleteRemovesOnlyItsEntry(c: Cache, id: Id)
    requires Inv(c) && id in c.items
    ensures var before := TakeSnapshot(c).snap.contents;
      var after := TakeSnapshot(Delete(c, id).value).snap.contents;
      && (c.items[id].key.Some? ==> after == before - {c.items[id].key.value})
      && (c.items[id].key.None? ==> after == before)
  {
    DeleteInv(c, id);
  }
}
