/** Storing an image with its renditions and recording it: all or nothing. */
module ImageUpload {
  import opened Records
  import opened Keys
  import opened Stores

  datatype UploadResult =
    | Created(id: Id)
    | HttpFailure     // HTTPException, 502
    | ItemFailure     // the error entry of a bulk upload

  /** The keys one image upload may write. */
  ghost function ImageKeys(objectName: Key, names: set<string>): set<Key> {
    {objectName} + set n | n in names :: RenditionOf(objectName, n)
  }

  /** What the row of an image says. */
  ghost predicate HoldsImage(row: Row, owner: string, objectName: Key, visibility: Visibility,
                             contentHash: Option<string>) {
    && row.owner == owner && row.kind.Image? && row.storageKey == objectName && row.status.Ready?
    && row.visibility == visibility && row.contentHash == contentHash && row.poster.None? && !row.callback
  }

  /** Storage has gained exactly the keys of the row, every rendition of the image is in the
      row, and main object and renditions hold their bytes. */
  ghost predicate Complete(row: Row, before: map<Key, Bytes>, after: map<Key, Bytes>, main: Bytes,
                           renditions: map<string, Bytes>) {
    && after.Keys == before.Keys + KeysOf(row)
    && (forall k :: k in before && k !in KeysOf(row) ==> after[k] == before[k])
    && row.storageKey in after && after[row.storageKey] == main
    && row.renditions.Keys == renditions.Keys
    && (forall n :: n in renditions ==>
          && row.renditions[n] == RenditionOf(row.storageKey, n)
          && row.renditions[n] in after && after[row.renditions[n]] == renditions[n])
  }

  /** _cleanup_uploaded_keys: one delete call per key, failures suppressed. */
  method CleanupUploadedKeys(storage: ObjectStore, keys: seq<Key>)
    requires storage.Valid()
    modifies storage
    ensures storage.Valid() && storage.faults >= old(storage.faults)
    ensures |storage.deletes| == |old(storage.deletes)| + |keys| && old(storage.deletes) <= storage.deletes
    ensures forall i :: 0 <= i < |keys| ==> storage.deletes[|old(storage.deletes)| + i].key == keys[i]
    ensures forall k :: k in storage.objects ==>
              k in old(storage.objects) && storage.objects[k] == old(storage.objects)[k]
    ensures forall k :: k in old(storage.objects) && k !in keys ==> k in storage.objects
    ensures forall k :: k in keys && k in storage.objects ==> OnlyRefused(storage.deletes, |old(storage.deletes)|, k)
  {
    ghost var log := storage.deletes;
    for i := 0 to |keys|
      invariant storage.Valid() && storage.faults >= old(storage.faults)
      invariant |storage.deletes| == |log| + i && log <= storage.deletes
      invariant forall j :: 0 <= j < i ==> storage.deletes[|log| + j].key == keys[j]
      invariant forall k :: k in storage.objects ==>
                  k in old(storage.objects) && storage.objects[k] == old(storage.objects)[k]
      invariant forall k :: k in old(storage.objects) && k !in keys ==> k in storage.objects
      invariant forall j :: 0 <= j < i && storage.deletes[|log| + j].ok ==> keys[j] !in storage.objects
    {
      var ok := storage.Delete(keys[i]);
    }
    forall k | k in keys && k in storage.objects ensures OnlyRefused(storage.deletes, |log|, k) {
      var j :| 0 <= j < |keys| && keys[j] == k;
      assert storage.deletes[|log| + j] == Attempt(k, false);
      forall i | |log| <= i < |storage.deletes| && storage.deletes[i].key == k ensures !storage.deletes[i].ok {
        assert storage.deletes[|log| + (i - |log|)].key == keys[i - |log|];
      }
    }
  }

  /** _upload_image_renditions: uploads in some order, remembering each key and recording it
      under its name, and stops at the first failure. */
  method UploadImageRenditions(storage: ObjectStore, objectName: Key, renditions: map<string, Bytes>)
    returns (ok: bool, uploaded: seq<Key>, recorded: map<string, Key>)
    requires storage.Valid() && ProperKey(objectName) && objectName.rendition.None?
    requires renditions.Keys <= CANONICAL_NAMES
    modifies storage
    ensures storage.Valid() && storage.deletes == old(storage.deletes)
    ensures storage.faults == old(storage.faults) + if ok then 0 else 1
    ensures forall k :: k in uploaded ==> k in ImageKeys(objectName, renditions.Keys) && k in storage.objects
    ensures forall k :: k !in uploaded ==> (k in storage.objects <==> k in old(storage.objects))
    ensures forall k :: k !in uploaded && k in storage.objects ==> storage.objects[k] == old(storage.objects)[k]
    ensures objectName !in uploaded
    ensures ok ==> recorded.Keys == renditions.Keys
    ensures forall n :: n in recorded ==> recorded[n] == RenditionOf(objectName, n)
    ensures ok ==> forall n :: n in renditions ==>
              RenditionOf(objectName, n) in uploaded && storage.objects[RenditionOf(objectName, n)] == renditions[n]
  {
    uploaded, recorded := [], map[];
    var todo := renditions.Keys;
    while todo != {}
      invariant todo <= renditions.Keys && storage.Valid()
      invariant recorded.Keys == renditions.Keys - todo
      invariant forall n :: n in recorded ==> recorded[n] == RenditionOf(objectName, n)
      invariant storage.deletes == old(storage.deletes) && storage.faults == old(storage.faults)
      invariant forall k :: k in uploaded ==>
                  k in storage.objects && exists n :: n in renditions.Keys - todo && k == RenditionOf(objectName, n)
      invariant forall k :: k !in uploaded ==> (k in storage.objects <==> k in old(storage.objects))
      invariant forall k :: k !in uploaded && k in storage.objects ==> storage.objects[k] == old(storage.objects)[k]
      invariant forall n :: n in renditions.Keys - todo ==>
                  RenditionOf(objectName, n) in uploaded && storage.objects[RenditionOf(objectName, n)] == renditions[n]
      decreases todo
    {
      var n :| n in todo;
      RenditionOfProper(objectName, n);
      ok := storage.Upload(RenditionOf(objectName, n), renditions[n]);
      if !ok { return false, uploaded, recorded; }
      uploaded := uploaded + [RenditionOf(objectName, n)];
      recorded := recorded[n := RenditionOf(objectName, n)];
      todo := todo - {n};
    }
    ok := true;
  }

  /** _create_image_record, with what its caller does when it raises.  Without a row the
      uploaded keys are deleted, twice over when the failure is raised to the caller. */
  method CreateImageRecord(storage: ObjectStore, table: RowTable, row: Row, uploaded: seq<Key>, raiseOnError: bool)
    returns (r: UploadResult)
    requires storage.Valid() && table.Valid()
    modifies storage, table
    ensures storage.Valid() && table.Valid() && table.nextId >= old(table.nextId)
    ensures storage.faults >= old(storage.faults) && old(table.faults) <= table.faults
    ensures old(storage.deletes) <= storage.deletes
    ensures r.Created? <==> table.faults == old(table.faults)
    ensures r.Created? ==>
              && r.id == old(table.nextId) < table.nextId && table.rows == old(table.rows)[r.id := row]
              && storage.objects == old(storage.objects)
              && storage.deletes == old(storage.deletes) && storage.faults == old(storage.faults)
    ensures !r.Created? ==> table.rows == old(table.rows) && (r.HttpFailure? <==> raiseOnError)
    ensures !r.Created? ==>
              && (forall k :: k in storage.objects ==>
                    k in old(storage.objects) && storage.objects[k] == old(storage.objects)[k])
              && (forall k :: k in old(storage.objects) && k !in uploaded ==> k in storage.objects)
              && (forall k :: k in uploaded && k in storage.objects ==>
                    OnlyRefused(storage.deletes, |old(storage.deletes)|, k))
  {
    ghost var log := storage.deletes;
    var id := table.Create(row);
    if id.Some? { return Created(id.value); }
    CleanupUploadedKeys(storage, uploaded);
    if !raiseOnError { return ItemFailure; }
    // the HTTPException passes through the caller's own clean-up of the same keys
    ghost var first := storage.deletes;
    CleanupUploadedKeys(storage, uploaded);
    forall k | k in storage.objects && k in uploaded ensures OnlyRefused(storage.deletes, |log|, k) {
      TwoPasses(log, first, storage.deletes, k);
    }
    r := HttpFailure;
  }

  /** _store_and_record_image.  Succeeds exactly when no call raises.  Either a `ready` row
      whose main and rendition objects are all present, or no row, and of the keys written
      only those whose every delete attempt raised are still there. */
  method StoreAndRecordImage(storage: ObjectStore, table: RowTable, owner: string, objectName: Key, main: Bytes,
                             renditions: map<string, Bytes>, contentHash: Option<string>, visibility: Visibility,
                             raiseOnError: bool)
    returns (r: UploadResult)
    requires storage.Valid() && table.Valid()
    requires ProperKey(objectName) && objectName.rendition.None? && renditions.Keys <= CANONICAL_NAMES
    requires forall k :: k in ImageKeys(objectName, renditions.Keys) ==> k !in storage.objects
    modifies storage, table
    ensures storage.Valid() && table.Valid() && table.nextId >= old(table.nextId)
    ensures storage.faults >= old(storage.faults) && old(table.faults) <= table.faults
    ensures old(storage.deletes) <= storage.deletes
    ensures r.Created? <==> storage.faults == old(storage.faults) && table.faults == old(table.faults)
    ensures r.Created? ==>
              && r.id == old(table.nextId) < table.nextId && r.id in table.rows
              && table.rows == old(table.rows)[r.id := table.rows[r.id]]
              && HoldsImage(table.rows[r.id], owner, objectName, visibility, contentHash)
              && Complete(table.rows[r.id], old(storage.objects), storage.objects, main, renditions)
              && storage.deletes == old(storage.deletes)
    ensures !r.Created? ==>
              && table.rows == old(table.rows)
              && (r.HttpFailure? <==> raiseOnError)
              && (forall k :: k in old(storage.objects) ==>
                    k in storage.objects && storage.objects[k] == old(storage.objects)[k])
              && (forall k :: k in storage.objects && k !in old(storage.objects) ==>
                    k in ImageKeys(objectName, renditions.Keys) &&
                    OnlyRefused(storage.deletes, |old(storage.deletes)|, k))
  {
    var failure := if raiseOnError then HttpFailure else ItemFailure;
    var stored := storage.Upload(objectName, main);
    if !stored { return failure; }  // nothing uploaded, nothing to clean up
    var done, uploaded, recorded := UploadImageRenditions(storage, objectName, renditions);
    uploaded := [objectName] + uploaded;
    if !done {
      CleanupUploadedKeys(storage, uploaded);
      return failure;
    }
    var row := Row(owner, Image, objectName, recorded, Ready, visibility, contentHash, None, false);
    WholeImage(row, old(storage.objects), storage.objects, uploaded, main, renditions);
    r := CreateImageRecord(storage, table, row, uploaded, raiseOnError);
  }

  lemma TwoPasses(log: seq<Attempt>, first: seq<Attempt>, second: seq<Attempt>, k: Key)
    requires log <= first <= second
    requires OnlyRefused(first, |log|, k) && OnlyRefused(second, |first|, k)
    ensures OnlyRefused(second, |log|, k)
  {
    var i :| |log| <= i < |first| && first[i] == Attempt(k, false);
    assert second[i] == Attempt(k, false);
    forall j | |log| <= j < |second| && second[j].key == k ensures !second[j].ok {
      if j < |first| { assert second[j] == first[j]; }
    }
  }

  /** The uploads of one image add up to exactly that image. */
  lemma WholeImage(row: Row, before: map<Key, Bytes>, after: map<Key, Bytes>, uploaded: seq<Key>, main: Bytes,
                   renditions: map<string, Bytes>)
    requires row.storageKey in after && after[row.storageKey] == main && row.storageKey in uploaded
    requires row.renditions.Keys == renditions.Keys
    requires forall n :: n in row.renditions ==> row.renditions[n] == RenditionOf(row.storageKey, n)
    requires forall k :: k in uploaded ==> k in ImageKeys(row.storageKey, renditions.Keys) && k in after
    requires forall k :: k !in uploaded ==> (k in after <==> k in before) && (k in after ==> after[k] == before[k])
    requires forall n :: n in renditions ==>
               row.renditions[n] in uploaded && after[row.renditions[n]] == renditions[n]
    ensures Complete(row, before, after, main, renditions)
  {
    forall k ensures k in uploaded <==> k in KeysOf(row) {
      if k in uploaded && k != row.storageKey {
        var n :| n in renditions && k == RenditionOf(row.storageKey, n);
        assert row.renditions[n] == k;
      }
      if k in row.renditions.Values { var n :| n in row.renditions && row.renditions[n] == k; }
    }
  }
}
