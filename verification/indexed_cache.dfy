/**
  An immutable-object cache keyed by id, with one optional one-to-one
  secondary index over it. The index function gives each cached state an
  optional key; a state whose key is empty is not indexed, and no two indexed
  states share a key. The index keeps a lazily built snapshot of its
  key-to-state map and hands out the same snapshot until an indexed entry is
  added or removed.

  Snapshot identity (the same object returned twice) is modelled by a stamp:
  every snapshot built from a non-empty index takes a fresh stamp, and every
  empty snapshot carries stamp 0, standing for the one shared empty map.
 */
module IndexedCache {
  type Id = nat

  /** The index function's key type: a grid coordinate. */
  datatype Key = Coordinate(x: int, y: int)

  datatype Option<T> = None | Some(value: T)

  /** A cached state: its id and the key the index function gives it. */
  datatype Item = Item(id: Id, key: Option<Key>)

  datatype Snapshot = Snapshot(stamp: nat, contents: map<Key, Item>)

  /** The index's entries, the snapshot it last built (if still valid), and the next fresh stamp. */
  datatype Index = Index(entries: map<Key, Item>, cached: Option<Snapshot>, nextStamp: nat)

  datatype Cache = Cache(items: map<Id, Item>, index: Index)

  datatype CacheError = IdPresent(id: Id) | IdMissing(id: Id) | KeyTaken

  datatype Result<T> = Ok(value: T) | Fail(error: CacheError)

  /** A snapshot together with the cache as it is after taking it. */
  datatype Taken = Taken(cache: Cache, snap: Snapshot)

  function Empty(): Cache {
    Cache(map[], Index(map[], None, 1))
  }

  /** No two cached states have the same present key. */
  ghost predicate OneToOne(items: map<Id, Item>) {
    forall a, b :: a in items && b in items && a != b && items[a].key.Some? ==> items[a].key != items[b].key
  }

  /** Whether some cached state has key `k`. */
  ghost predicate KeyUsed(items: map<Id, Item>, k: Key) {
    exists id :: id in items && items[id].key == Some(k)
  }

  /**
    The reference definition of what the index holds: every cached state with
    a present key, under that key.
   */
  ghost function Indexed(items: map<Id, Item>): map<Key, Item>
    requires OneToOne(items)
  {
    map id | id in items && items[id].key.Some? :: items[id].key.value := items[id]
  }

  /**
    `entries` abstracts `items`: each entry is a cached state filed under its
    own present key, and every cached state with a present key has an entry.
   */
  ghost predicate Abstracts(entries: map<Key, Item>, items: map<Id, Item>) {
    && (forall k :: k in entries ==> entries[k].key == Some(k) && entries[k].id in items && items[entries[k].id] == entries[k])
    && (forall id :: id in items && items[id].key.Some? ==> items[id].key.value in entries)
  }

  /** The cache is keyed by the ids of its states. */
  ghost predicate KeyedById(items: map<Id, Item>) {
    forall id :: id in items ==> items[id].id == id
  }

  /** Everything the cache and its index promise between operations. */
  ghost predicate Inv(c: Cache) {
    && KeyedById(c.items)
    && OneToOne(c.items)
    && Abstracts(c.index.entries, c.items)
    && 1 <= c.index.nextStamp
    && (c.index.cached.Some? ==> Current(c.index.cached.value, c.index))
  }

  /**
    A cached snapshot is current: it shows the entries, its stamp was handed
    out earlier, and it carries stamp 0 exactly when it is empty.
   */
  ghost predicate Current(s: Snapshot, ix: Index) {
    && s.contents == ix.entries
    && s.stamp < ix.nextStamp
    && (s.stamp == 0 <==> s.contents == map[])
  }

  /**
    Adds a state. Fails on an id already cached, and on a key another state
    already has. A state with a present key invalidates the snapshot; one with
    an empty key leaves the index alone.
   */
  function Add(c: Cache, item: Item): (r: Result<Cache>)
    ensures r.Ok? ==> r.value.items == c.items[item.id := item]
    ensures r.Ok? && item.key.None? ==> r.value.index == c.index
    ensures r.Ok? && item.key.Some? ==> r.value.index.cached.None?
  {
    if item.id in c.items then Fail(IdPresent(item.id))
    else match item.key
      case None => Ok(c.(items := c.items[item.id := item]))
      case Some(k) =>
        if k in c.index.entries then Fail(KeyTaken)
        else Ok(Cache(c.items[item.id := item], c.index.(entries := c.index.entries[k := item], cached := None)))
  }

  /** Adds states one after another; the first failure rejects the whole batch. */
  function AddAll(c: Cache, items: seq<Item>): (r: Result<Cache>)
    ensures items == [] ==> r == Ok(c)
    ensures r.Ok? ==> forall id :: id in c.items ==> id in r.value.items && r.value.items[id] == c.items[id]
    ensures r.Ok? ==> forall i :: 0 <= i < |items| ==>
      items[i].id !in c.items && items[i].id in r.value.items && r.value.items[items[i].id] == items[i]
    ensures r.Ok? ==> |r.value.items| == |c.items| + |items|
    decreases |items|
  {
    if items == [] then Ok(c)
    else match Add(c, items[0])
      case Fail(e) => Fail(e)
      case Ok(c1) => AddAll(c1, items[1..])
  }

  /**
    Deletes the state with the given id. Fails when no such state is cached.
    Deleting an indexed state invalidates the snapshot; deleting an unindexed
    one leaves the index alone.
   */
  function Delete(c: Cache, id: Id): (r: Result<Cache>)
    ensures r.Fail? <==> id !in c.items
    ensures r.Ok? ==> r.value.items == c.items - {id}
    ensures r.Ok? && c.items[id].key.None? ==> r.value.index == c.index
    ensures r.Ok? && c.items[id].key.Some? ==> r.value.index.cached.None?
  {
    if id !in c.items then Fail(IdMissing(id))
    else match c.items[id].key
      case None => Ok(c.(items := c.items - {id}))
      case Some(k) => Ok(Cache(c.items - {id}, c.index.(entries := c.index.entries - {k}, cached := None)))
  }

  /** The state indexed under `k`, or nothing. */
  function GetOrNull(c: Cache, k: Key): (r: Option<Item>)
    ensures Abstracts(c.index.entries, c.items) ==> (r.Some? <==> KeyUsed(c.items, k))
    ensures Abstracts(c.index.entries, c.items) && r.Some? ==>
      r.value.key == Some(k) && r.value.id in c.items && c.items[r.value.id] == r.value
  {
    if k in c.index.entries then Some(c.index.entries[k]) else None
  }

  /** The keys currently indexed. */
  function StreamKeys(c: Cache): (r: set<Key>)
    ensures Abstracts(c.index.entries, c.items) ==> forall k :: k in r <==> KeyUsed(c.items, k)
  {
    c.index.entries.Keys
  }

  /**
    The snapshot: the cached one when still valid, else a new one, which is
    cached. A new snapshot of an empty index is the shared empty map.
   */
  function TakeSnapshot(c: Cache): (t: Taken)
    ensures t.cache.items == c.items && t.cache.index.entries == c.index.entries
    ensures t.cache.index.cached == Some(t.snap)
    ensures c.index.cached.Some? ==> t == Taken(c, c.index.cached.value)
  {
    match c.index.cached
      case Some(s) => Taken(c, s)
      case None =>
        if c.index.entries == map[] then
          var s := Snapshot(0, map[]);
          Taken(c.(index := c.index.(cached := Some(s))), s)
        else
          var s := Snapshot(c.index.nextStamp, c.index.entries);
          Taken(c.(index := c.index.(cached := Some(s), nextStamp := c.index.nextStamp + 1)), s)
  }
}
