/** What holds of the two stores between requests when requests are served one after
    another: rows own disjoint keys, and `private/` is where private rows live. */
module World {
  import opened Records
  import opened Keys

  /** Both stores at one moment. */
  datatype Contents = Contents(objects: map<Key, Bytes>, rows: map<Id, Row>)

  /** Rendition keys are derived from the row's own key. */
  ghost predicate OwnKeys(row: Row) {
    && row.storageKey.rendition.None?
    && forall n :: n in row.renditions ==> row.renditions[n] == RenditionOf(row.storageKey, n)
  }

  /** The row's keys are spelled the way the service spells them. */
  ghost predicate ProperRow(row: Row) {
    ProperKey(row.storageKey) && row.renditions.Keys <= CANONICAL_NAMES
  }

  ghost predicate SameStem(a: Key, b: Key) {
    a.uuid == b.uuid && a.compressed == b.compressed
  }

  ghost predicate Sound(objects: map<Key, Bytes>, rows: map<Id, Row>, issued: set<string>) {
    && (forall k :: k in objects ==> k.uuid in issued)
    && (forall id :: id in rows ==>
          OwnKeys(rows[id]) && rows[id].storageKey.uuid in issued && rows[id].poster != Some(id))
    && (forall id :: id in rows ==> ProperRow(rows[id]))
    && (forall i, j :: i in rows && j in rows && i != j ==> !SameStem(rows[i].storageKey, rows[j].storageKey))
  }

  /** A row whose main object is present has it, and all its rendition keys, under
      `private/` exactly when it is private. */
  ghost predicate Boundary(objects: map<Key, Bytes>, rows: map<Id, Row>) {
    forall id :: id in rows && rows[id].storageKey in objects ==>
      forall k :: k in KeysOf(rows[id]) ==> (k.hidden <==> rows[id].visibility.Private?)
  }

  /** Every key of a row has the row's stem. */
  lemma KeysShareStem(row: Row, k: Key)
    requires OwnKeys(row) && k in KeysOf(row)
    ensures SameStem(k, row.storageKey) && k.hidden == row.storageKey.hidden
    ensures k.rendition.Some? <==> k != row.storageKey
  {
    if k != row.storageKey {
      var n :| n in row.renditions && row.renditions[n] == k;
      assert k == RenditionOf(row.storageKey, n);
    }
  }

  lemma RowsAreDisjoint(objects: map<Key, Bytes>, rows: map<Id, Row>, issued: set<string>, i: Id, j: Id)
    requires Sound(objects, rows, issued) && i in rows && j in rows && i != j
    ensures KeysOf(rows[i]) !! KeysOf(rows[j])
  {
    forall k | k in KeysOf(rows[i]) && k in KeysOf(rows[j]) ensures false {
      KeysShareStem(rows[i], k);
      KeysShareStem(rows[j], k);
    }
  }

  lemma RowKeysAreProper(row: Row, k: Key)
    requires OwnKeys(row) && ProperRow(row) && k in KeysOf(row)
    ensures ProperKey(k)
  {
    if k != row.storageKey {
      var n :| n in row.renditions && row.renditions[n] == k;
      RenditionOfProper(row.storageKey, n);
    }
  }

  /** Every key in use: of an object, or of a row. */
  ghost predicate InUse(objects: map<Key, Bytes>, rows: map<Id, Row>, k: Key) {
    k in objects || exists id :: id in rows && k in KeysOf(rows[id])
  }

  /** The same, said of the keys as the service spells them: what is private lives under
      `private/`, and no two keys in use are spelled alike. */
  ghost predicate SpelledBoundary(objects: map<Key, Bytes>, rows: map<Id, Row>) {
    && (forall id, k :: id in rows && rows[id].storageKey in objects && k in KeysOf(rows[id]) ==>
          (PRIVATE <= Text(k) <==> rows[id].visibility.Private?))
    && (forall a, b :: InUse(objects, rows, a) && InUse(objects, rows, b) && Text(a) == Text(b) ==> a == b)
  }

  lemma BoundaryIsSpelled(objects: map<Key, Bytes>, rows: map<Id, Row>, issued: set<string>)
    requires Sound(objects, rows, issued) && Boundary(objects, rows) && forall k :: k in objects ==> ProperKey(k)
    ensures SpelledBoundary(objects, rows)
  {
    forall k | InUse(objects, rows, k) ensures ProperKey(k) {
      if k !in objects {
        var id :| id in rows && k in KeysOf(rows[id]);
        RowKeysAreProper(rows[id], k);
      }
    }
    forall id, k | id in rows && rows[id].storageKey in objects && k in KeysOf(rows[id])
      ensures PRIVATE <= Text(k) <==> rows[id].visibility.Private?
    {
      assert InUse(objects, rows, k);
      TextBoundary(k);
    }
    forall a, b | InUse(objects, rows, a) && InUse(objects, rows, b) && Text(a) == Text(b) ensures a == b {
      TextInjective(a, b);
    }
  }

  /** The boundary only depends on the main key. */
  lemma BoundaryByMainKey(objects: map<Key, Bytes>, rows: map<Id, Row>)
    requires forall id :: id in rows ==> OwnKeys(rows[id])
    ensures Boundary(objects, rows) <==>
              forall id :: id in rows && rows[id].storageKey in objects ==>
                (rows[id].storageKey.hidden <==> rows[id].visibility.Private?)
  {
    forall id, k | id in rows && k in KeysOf(rows[id]) ensures k.hidden == rows[id].storageKey.hidden {
      KeysShareStem(rows[id], k);
    }
    forall id | id in rows ensures rows[id].storageKey in KeysOf(rows[id]) {}
  }

  /** Objects named before `issued` grew are untouched. */
  ghost predicate Kept(before: map<Key, Bytes>, after: map<Key, Bytes>, k: Key) {
    (k in after <==> k in before) && (k in before ==> after[k] == before[k])
  }
}
