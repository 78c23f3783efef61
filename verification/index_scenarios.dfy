/**
  The optional one-to-one index's own tests, each stated for the states and
  keys the test uses, starting from an empty cache. "The same snapshot
  object" is the same stamp.
 */
module IndexScenarios {
  import opened IndexedCache
  import opened IndexProperties

  function Origin(): Key { Coordinate(0, 0) }

  /** Adding a state whose key is empty leaves no key in the index. */
  lemma EmptyOptionalNotIndexed()
    ensures var r := Add(Empty(), Item(1, None)); r.Ok? && |StreamKeys(r.value)| == 0
  {
    EmptyInv();
    EmptyKeyNotIndexed(Empty(), Item(1, None));
  }

  /** Adding a state with a present key makes it the lookup of that key. */
  lemma PresentOptionalIndexed()
    ensures var s := Item(1, Some(Origin()));
      var r := Add(Empty(), s); r.Ok? && GetOrNull(r.value, Origin()) == Some(s)
  {
    EmptyInv();
    PresentKeyIndexed(Empty(), Item(1, Some(Origin())));
  }

  /** The snapshot of an empty index is the empty map. */
  lemma EmptyIndexEmptySnapshot()
    ensures TakeSnapshot(Empty()).snap.contents == map[]
  {
    EmptyInv();
    SnapshotContents(Empty());
  }

  /** One indexed state: the snapshot maps its key to it. */
  lemma SingleElementSnapshot()
    ensures var s := Item(1, Some(Origin()));
      var r := Add(Empty(), s); r.Ok? && TakeSnapshot(r.value).snap.contents == map[Origin() := s]
  {
    var s := Item(1, Some(Origin()));
    EmptyInv();
    AddInv(Empty(), s);
    SnapshotContents(Add(Empty(), s).value);
  }

  /** Of two states added together, the one with an empty key is left out of the snapshot. */
  lemma SnapshotWithoutUnindexed()
    ensures var one := Item(1, None); var two := Item(2, Some(Origin()));
      var r := AddAll(Empty(), [one, two]);
      r.Ok? && TakeSnapshot(r.value).snap.contents == map[Origin() := two]
  {
    EmptyInv();
    AddAllInv(Empty(), [Item(1, None), Item(2, Some(Origin()))]);
  }

  /** After a state is deleted, a later snapshot no longer holds it. */
  lemma SnapshotWithoutRemoved()
    ensures var one := Item(1, Some(Coordinate(0, 1))); var two := Item(2, Some(Coordinate(1, 0)));
      var r := AddAll(Empty(), [one, two]);
      && r.Ok?
      && var d := Delete(TakeSnapshot(r.value).cache, 1);
      && d.Ok?
      && TakeSnapshot(d.value).snap.contents == map[Coordinate(1, 0) := two]
  {
    var one := Item(1, Some(Coordinate(0, 1)));
    var two := Item(2, Some(Coordinate(1, 0)));
    var c1 := Cache(map[1 := one], Index(map[Coordinate(0, 1) := one], None, 1));
    var entries := map[Coordinate(0, 1) := one, Coordinate(1, 0) := two];
    var c2 := Cache(map[1 := one, 2 := two], Index(entries, None, 1));
    assert Add(Empty(), one) == Ok(c1);
    assert Add(c1, two) == Ok(c2);
    assert [one, two][1..] == [two] && [two][1..] == [];
    assert AddAll(c1, [two]) == Ok(c2);
    assert AddAll(Empty(), [one, two]) == Ok(c2);
    var t := TakeSnapshot(c2);
    assert t.cache.index == Index(entries, Some(Snapshot(1, entries)), 2);
    assert entries - {Coordinate(0, 1)} == map[Coordinate(1, 0) := two];
    assert map[1 := one, 2 := two] - {1} == map[2 := two];
    var c3 := Cache(map[2 := two], Index(map[Coordinate(1, 0) := two], None, 2));
    assert Delete(t.cache, 1) == Ok(c3);
  }

  /** Two snapshots of an empty cache are the same object. */
  lemma EmptySnapshotReused()
    ensures var t := TakeSnapshot(Empty()); TakeSnapshot(t.cache).snap.stamp == t.snap.stamp
  {
    SnapshotStable(Empty());
  }

  /** Two snapshots of a non-empty cache, with no change between, are the same object. */
  lemma NonEmptySnapshotReused()
    ensures var r := Add(Empty(), Item(1, Some(Origin())));
      && r.Ok?
      && var t := TakeSnapshot(r.value); TakeSnapshot(t.cache).snap.stamp == t.snap.stamp
  {
    SnapshotStable(Add(Empty(), Item(1, Some(Origin()))).value);
  }

  /** Adding an indexed state between two snapshots makes the second a new object. */
  lemma AddedToRenewed()
    ensures var t := TakeSnapshot(Empty());
      var r := Add(t.cache, Item(1, Some(Origin())));
      r.Ok? && TakeSnapshot(r.value).snap.stamp != t.snap.stamp
  {
    var c := TakeSnapshot(Empty()).cache;
    assert c == Cache(map[], Index(map[], Some(Snapshot(0, map[])), 1));
    assert Inv(c);
    IndexedAddRenews(c, Item(1, Some(Origin())));
  }

  /** Deleting an indexed state between two snapshots makes the second a new object. */
  lemma RemovedFromRenewed()
    ensures var r := Add(Empty(), Item(1, Some(Origin())));
      && r.Ok?
      && var t := TakeSnapshot(r.value);
      && var d := Delete(t.cache, 1);
      && d.Ok? && TakeSnapshot(d.value).snap.stamp != t.snap.stamp
  {
    var s := Item(1, Some(Origin()));
    EmptyInv();
    AddInv(Empty(), s);
    SnapshotContents(Add(Empty(), s).value);
    IndexedDeleteRenews(TakeSnapshot(Add(Empty(), s).value).cache, 1);
  }

  /** Adding a state with an empty key between two snapshots keeps the same object. */
  lemma NotAddedToReused()
    ensures var r := Add(Empty(), Item(1, Some(Origin())));
      && r.Ok?
      && var t := TakeSnapshot(r.value);
      && var r2 := Add(t.cache, Item(2, None));
      && r2.Ok? && TakeSnapshot(r2.value).snap.stamp == t.snap.stamp
  {
    var s := Item(1, Some(Origin()));
    EmptyInv();
    AddInv(Empty(), s);
    SnapshotContents(Add(Empty(), s).value);
    EmptyKeyNotIndexed(TakeSnapshot(Add(Empty(), s).value).cache, Item(2, None));
  }

  /** Deleting a state with an empty key between two snapshots keeps the same object. */
  lemma NotRemovedFromReused()
    ensures var r := Add(Empty(), Item(1, Some(Origin())));
      && r.Ok?
      && var r2 := Add(r.value, Item(2, None));
      && r2.Ok?
      && var t := TakeSnapshot(r2.value);
      && var d := Delete(t.cache, 2);
      && d.Ok? && TakeSnapshot(d.value).snap.stamp == t.snap.stamp
  {
    var s := Item(1, Some(Origin()));
    EmptyInv();
    AddInv(Empty(), s);
    var c := Add(Empty(), s).value;
    AddInv(c, Item(2, None));
    var c2 := Add(c, Item(2, None)).value;
    SnapshotContents(c2);
    UnindexedDeleteKeeps(TakeSnapshot(c2).cache, 2);
  }
}
