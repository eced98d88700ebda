/** DELETE /files/{id}: objects first, the row only after its main object is gone, then a
    best-effort cascade to a video's poster. */
module Management {
  import opened Records
  import opened Keys
  import opened Stores
  import opened World
  import opened VisibilityPatch

  datatype DeleteResult = NoContent | Unknown | Unavailable

  ghost predicate Owns(s: Contents, id: Id, owner: string) {
    id in s.rows && s.rows[id].owner == owner
  }

  /** The poster row a DELETE of row `id` cascades to, if it is there. */
  ghost predicate CascadesTo(s: Contents, id: Id, owner: string, poster: Id) {
    && id in s.rows && s.rows[id].kind.Video? && s.rows[id].poster == Some(poster)
    && Owns(s, poster, owner)
  }

  /** The delete calls of one attempt took what is gone, and were about keys of the row and
      of its poster only. */
  ghost predicate OnlyItsObjects(s: Contents, t: Contents, id: Id, owner: string, log: seq<Attempt>, from: nat)
    requires id in s.rows
  {
    && t.objects == s.objects - Taken(log, from)
    && (forall i :: from <= i < |log| ==>
          || log[i].key in KeysOf(s.rows[id])
          || exists p :: CascadesTo(s, id, owner, p) && log[i].key in KeysOf(s.rows[p]))
  }

  /** Rows only disappear, and only the row and its poster's. */
  ghost predicate OnlyItsRows(s: Contents, t: Contents, id: Id, owner: string) {
    && (forall j :: j in t.rows ==> j in s.rows && t.rows[j] == s.rows[j])
    && (forall j :: j in s.rows && j !in t.rows ==> j == id || CascadesTo(s, id, owner, j))
  }

  ghost predicate AllTried(log: seq<Attempt>, from: nat, keys: set<Key>) {
    forall k :: k in keys ==> Attempted(log, from, k)
  }

  /** One attempt at DELETE, with the delete calls it made; `clean` when no call raised. */
  ghost predicate DeleteAttempt(s: Contents, t: Contents, id: Id, owner: string, r: DeleteResult, clean: bool,
                                log: seq<Attempt>, from: nat)
  {
    && (Owns(s, id, owner) ==>
          OnlyItsObjects(s, t, id, owner, log, from) && OnlyItsRows(s, t, id, owner) && !r.Unknown?)
    && (r.Unknown? ==> t == s && !Owns(s, id, owner))
    && (r.Unavailable? ==> !clean && t.rows == s.rows && (Owns(s, id, owner) || t == s))
    && (r.NoContent? ==>
          && Owns(s, id, owner) && id !in t.rows && s.rows[id].storageKey in Taken(log, from)
          && AllTried(log, from, KeysOf(s.rows[id]))
          && (forall p :: CascadesTo(s, id, owner, p) && p !in t.rows ==> AllTried(log, from, KeysOf(s.rows[p])))
          && (clean ==> forall p :: CascadesTo(s, id, owner, p) ==> p !in t.rows))
    && (clean ==> AllOk(log, from))
  }

  /** A key that was tried and is still there was refused, each time it was tried. */
  lemma LeftIsRefused(s: map<Key, Bytes>, t: map<Key, Bytes>, log: seq<Attempt>, from: nat, k: Key)
    requires t == s - Taken(log, from) && Attempted(log, from, k) && k in t
    ensures OnlyRefused(log, from, k) && !AllOk(log, from)
  {
    forall j | from <= j < |log| && log[j].ok ensures log[j].key in Taken(log, from) {}
    var i :| from <= i < |log| && log[i].key == k;
    assert log[i] == Attempt(k, false);
  }

  lemma TakenSplits(log: seq<Attempt>, longer: seq<Attempt>, from: nat)
    requires log <= longer && from <= |log|
    ensures Taken(longer, from) == Taken(log, from) + Taken(longer, |log|)
  {
    forall k | k in Taken(log, from) ensures k in Taken(longer, from) {
      var i :| from <= i < |log| && log[i].ok && log[i].key == k;
      assert longer[i] == log[i];
    }
    forall k | k in Taken(longer, from) ensures k in Taken(log, from) + Taken(longer, |log|) {
      var i :| from <= i < |longer| && longer[i].ok && longer[i].key == k;
      if i < |log| { assert log[i] == longer[i]; }
    }
  }

  lemma TriedStays(log: seq<Attempt>, longer: seq<Attempt>, from: nat, later: nat, keys: set<Key>)
    requires log <= longer && from <= later && AllTried(log, later, keys)
    ensures AllTried(longer, from, keys)
  {
    forall k | k in keys ensures Attempted(longer, from, k) {
      assert Attempted(log, later, k);
      var i :| later <= i < |log| && log[i].key == k;
      assert longer[i].key == k;
    }
  }

  /** The cascade: nothing happens, or the poster's objects are all tried and then its row goes. */
  ghost predicate Cascaded(s: Contents, t: Contents, poster: Option<Id>, owner: string, log: seq<Attempt>, from: nat,
                           clean: bool)
  {
    && t.objects == s.objects - Taken(log, from)
    && if poster.None? || !Owns(s, poster.value, owner) then t.rows == s.rows && |log| <= from
       else
         && (t.rows == s.rows || t.rows == s.rows - {poster.value})
         && OnlyTried(log, from, KeysOf(s.rows[poster.value]))
         && (poster.value !in t.rows ==> AllTried(log, from, KeysOf(s.rows[poster.value])))
         && (clean ==> poster.value !in t.rows)
  }

  /** _cascade_delete_poster: every failure is suppressed, and the poster's row goes even
      when its object could not be deleted. */
  method CascadeDeletePoster(storage: ObjectStore, table: RowTable, row: Row, owner: string)
    requires storage.Valid() && table.Valid()
    modifies storage, table
    ensures storage.Valid() && table.Valid() && table.nextId == old(table.nextId)
    ensures old(storage.deletes) <= storage.deletes
    ensures storage.faults >= old(storage.faults) && old(table.faults) <= table.faults
    ensures Cascaded(old(Contents(storage.objects, table.rows)), Contents(storage.objects, table.rows),
                     if row.kind.Video? then row.poster else None, owner, storage.deletes, |old(storage.deletes)|,
                     table.faults == old(table.faults))
    ensures storage.faults == old(storage.faults) ==> AllOk(storage.deletes, |old(storage.deletes)|)
  {
    assert Taken(storage.deletes, |storage.deletes|) == {};
    if !row.kind.Video? || row.poster.None? { return; }
    var loaded := table.Get(row.poster.value, owner);
    if loaded.Found? {
      DeleteAll(storage, KeysOf(loaded.row));
      var ok := table.Delete(loaded.id, owner);
    }
  }

  /** An attempt that fails before its row drop. */
  lemma HalfDone(s: Contents, t: Contents, id: Id, owner: string, log: seq<Attempt>, from: nat)
    requires Owns(s, id, owner) && t.rows == s.rows && t.objects == s.objects - Taken(log, from)
    requires OnlyTried(log, from, KeysOf(s.rows[id]))
    ensures DeleteAttempt(s, t, id, owner, Unavailable, false, log, from)
  {
  }

  /** An attempt that drops its row: `log` up to the row drop, `longer` with the cascade. */
  lemma Completed(s: Contents, n: Contents, t: Contents, id: Id, owner: string, log: seq<Attempt>, longer: seq<Attempt>,
                  from: nat, clean: bool)
    requires forall i :: i in s.rows ==> s.rows[i].poster != Some(i)
    requires Owns(s, id, owner) && n == Contents(s.objects - Taken(log, from), s.rows - {id})
    requires OnlyTried(log, from, KeysOf(s.rows[id])) && AllTried(log, from, KeysOf(s.rows[id]))
    requires s.rows[id].storageKey in Taken(log, from)
    requires Cascaded(n, t, if s.rows[id].kind.Video? then s.rows[id].poster else None, owner, longer, |log|, clean)
    requires log <= longer && from <= |log| && (clean ==> AllOk(longer, from))
    ensures DeleteAttempt(s, t, id, owner, NoContent, clean, longer, from)
  {
    TakenSplits(log, longer, from);
    TriedStays(log, longer, from, from, KeysOf(s.rows[id]));
    forall p ensures CascadesTo(s, id, owner, p) ==> Owns(n, p, owner) && n.rows[p] == s.rows[p] {}
    assert t.objects == s.objects - Taken(longer, from);
    forall i | from <= i < |longer|
      ensures longer[i].key in KeysOf(s.rows[id]) || exists p ::
                CascadesTo(s, id, owner, p) && longer[i].key in KeysOf(s.rows[p])
    {
      if i < |log| { assert longer[i] == log[i]; }
      else { assert CascadesTo(s, id, owner, s.rows[id].poster.value); }
    }
    forall p | CascadesTo(s, id, owner, p) && p !in t.rows ensures AllTried(longer, from, KeysOf(s.rows[p])) {
      TriedStays(longer, longer, from, |log|, KeysOf(s.rows[p]));
    }
  }

  /** The main object and then every rendition: together, all keys of the row. */
  lemma MainThenRenditions(row: Row, first: seq<Attempt>, log: seq<Attempt>, from: nat)
    requires |first| == from + 1 && first[from] == Attempt(row.storageKey, true) && first <= log
    requires OnlyTried(log, |first|, row.renditions.Values) && AllTried(log, |first|, row.renditions.Values)
    ensures OnlyTried(log, from, KeysOf(row)) && AllTried(log, from, KeysOf(row)) && row.storageKey in Taken(log, from)
  {
    assert log[from] == first[from];
    TriedStays(log, log, from, |first|, row.renditions.Values);
  }

  /** The row's objects: the main object must go, the renditions are tried. */
  method DeleteObjects(storage: ObjectStore, row: Row) returns (ok: bool)
    requires storage.Valid()
    modifies storage
    ensures storage.Valid() && old(storage.deletes) <= storage.deletes && storage.faults >= old(storage.faults)
    ensures storage.objects == old(storage.objects) - Taken(storage.deletes, |old(storage.deletes)|)
    ensures OnlyTried(storage.deletes, |old(storage.deletes)|, KeysOf(row))
    ensures if ok then
              && AllTried(storage.deletes, |old(storage.deletes)|, KeysOf(row))
              && row.storageKey in Taken(storage.deletes, |old(storage.deletes)|)
            else storage.faults > old(storage.faults)
    ensures !ok ==> storage.deletes == old(storage.deletes) + [Attempt(row.storageKey, false)]
    ensures storage.faults == old(storage.faults) ==> AllOk(storage.deletes, |old(storage.deletes)|)
  {
    ghost var before := storage.deletes;
    ok := storage.Delete(row.storageKey);
    assert Taken(before, |before|) == {};
    OneMoreTaken(before, |before|, Attempt(row.storageKey, ok));
    ghost var first := storage.deletes;
    if !ok { return; }
    DeleteAll(storage, row.renditions.Values);
    MainThenRenditions(row, first, storage.deletes, |before|);
    TakenSplits(first, storage.deletes, |before|);
  }

  /** The one call that was made is the delete of the main object, and it raised. */
  ghost predicate MainRefused(log: seq<Attempt>, from: nat, row: Row) {
    |log| == from + 1 && log[from] == Attempt(row.storageKey, false)
  }

  /** delete_upload.  It answers 502 only for a raising load, a raising delete of the main
      object or a raising row drop: a rendition or the poster never holds the row back. */
  method DeleteUpload(storage: ObjectStore, table: RowTable, id: Id, owner: string) returns (r: DeleteResult)
    requires storage.Valid() && table.Valid()
    requires forall i :: i in table.rows ==> table.rows[i].poster != Some(i)
    modifies storage, table
    ensures storage.Valid() && table.Valid() && table.nextId == old(table.nextId)
    ensures storage.faults >= old(storage.faults) && old(table.faults) <= table.faults
    ensures old(storage.deletes) <= storage.deletes
    ensures DeleteAttempt(old(Contents(storage.objects, table.rows)), Contents(storage.objects, table.rows), id, owner,
                          r, storage.faults == old(storage.faults) && table.faults == old(table.faults),
                          storage.deletes, |old(storage.deletes)|)
    ensures r.Unavailable? ==>
              || table.faults == old(table.faults) + [GetFault]
              || table.faults == old(table.faults) + [DeleteFault(id)]
              || (id in old(table.rows) && MainRefused(storage.deletes, |old(storage.deletes)|, old(table.rows)[id]))
  {
    ghost var s := Contents(storage.objects, table.rows);
    ghost var from := |storage.deletes|;
    assert Taken(storage.deletes, from) == {};
    var loaded := table.Get(id, owner);
    if loaded.Broken? { return Unavailable; }
    if loaded.Absent? { return Unknown; }
    var row := loaded.row;
    var gone := DeleteObjects(storage, row);
    ghost var log := storage.deletes;
    if !gone {
      HalfDone(s, Contents(storage.objects, table.rows), id, owner, log, from);
      return Unavailable;
    }
    var ok := table.Delete(id, owner);
    if !ok {
      HalfDone(s, Contents(storage.objects, table.rows), id, owner, log, from);
      return Unavailable;
    }
    CascadeDeletePoster(storage, table, row, owner);
    r := NoContent;
    ghost var clean := storage.faults == old(storage.faults) && table.faults == old(table.faults);
    Completed(s, Contents(s.objects - Taken(log, from), s.rows - {id}), Contents(storage.objects, table.rows), id,
              owner, log, storage.deletes, from, clean);
  }

  // ----- Retrying -----------------------------------------------------------------------

  /** One attempt after another at the same row, under any faults. */
  datatype Try = Try(after: Contents, result: DeleteResult, clean: bool, log: seq<Attempt>, from: nat)

  ghost predicate Attempts(s: Contents, tries: seq<Try>, id: Id, owner: string)
    decreases |tries|
  {
    tries != [] ==>
      && DeleteAttempt(s, tries[0].after, id, owner, tries[0].result, tries[0].clean, tries[0].log, tries[0].from)
      && Attempts(tries[0].after, tries[1..], id, owner)
  }

  ghost function Last(s: Contents, tries: seq<Try>): Contents {
    if tries == [] then s else tries[|tries| - 1].after
  }

  /** The attempt that answered 204, and what it was refused. */
  ghost predicate Finished(a: Try, keys: set<Key>, left: map<Key, Bytes>) {
    && a.result.NoContent? && AllTried(a.log, a.from, keys)
    && (forall k :: k in keys && k in left ==> OnlyRefused(a.log, a.from, k))
  }

  /** However many attempts and whatever fails: the row is either still there, unchanged,
      or its main object is gone, every one of its renditions was tried by the one attempt
      that answered 204, and those left were refused by it. */
  lemma {:induction false} RowOutlivesItsObject(s: Contents, tries: seq<Try>, id: Id, owner: string)
    requires Owns(s, id, owner) && Attempts(s, tries, id, owner)
    ensures var t := Last(s, tries);
            if id in t.rows then
              t.rows[id] == s.rows[id] && forall i :: 0 <= i < |tries| ==> tries[i].result.Unavailable?
            else
              && s.rows[id].storageKey !in t.objects
              && exists i :: 0 <= i < |tries| && Finished(tries[i], KeysOf(s.rows[id]), t.objects)
    decreases |tries|
  {
    if tries != [] {
      var m, rest := tries[0].after, tries[1..];
      if id in m.rows {
        RowOutlivesItsObject(m, rest, id, owner);
        assert Last(m, rest) == Last(s, tries);
        var t := Last(s, tries);
        if id !in t.rows {
          var i :| 0 <= i < |rest| && Finished(rest[i], KeysOf(s.rows[id]), t.objects);
          assert tries[i + 1] == rest[i];
        } else {
          forall i | 0 <= i < |tries| ensures tries[i].result.Unavailable? {
            if i > 0 { assert tries[i] == rest[i - 1]; }
          }
        }
      } else {
        NothingComesBack(m, rest, id, owner);
        assert Last(m, rest) == Last(s, tries);
        forall k | k in KeysOf(s.rows[id]) && k in m.objects ensures OnlyRefused(tries[0].log, tries[0].from, k) {
          LeftIsRefused(s.objects, m.objects, tries[0].log, tries[0].from, k);
        }
        assert Finished(tries[0], KeysOf(s.rows[id]), m.objects);
      }
    }
  }

  lemma {:induction false} NothingComesBack(s: Contents, tries: seq<Try>, id: Id, owner: string)
    requires id !in s.rows && Attempts(s, tries, id, owner)
    ensures Last(s, tries) == s
    decreases |tries|
  {
    if tries != [] {
      NothingComesBack(tries[0].after, tries[1..], id, owner);
    }
  }

  /** One attempt without a fault finishes whatever earlier attempts left: row, main
      object and renditions are gone, and so is the poster row the cascade reaches. */
  lemma CleanAttemptFinishes(s: Contents, tries: seq<Try>, last: Try, id: Id, owner: string)
    requires Owns(s, id, owner) && Attempts(s, tries, id, owner) && id in Last(s, tries).rows
    requires DeleteAttempt(Last(s, tries), last.after, id, owner, last.result, true, last.log, last.from)
    ensures last.result.NoContent? && id !in last.after.rows
    ensures forall k :: k in KeysOf(s.rows[id]) ==> k !in last.after.objects
    ensures forall p :: CascadesTo(Last(s, tries), id, owner, p) ==>
              p !in last.after.rows && forall k :: k in KeysOf(Last(s, tries).rows[p]) ==> k !in last.after.objects
  {
    RowOutlivesItsObject(s, tries, id, owner);
    var t := Last(s, tries);
    forall k | Attempted(last.log, last.from, k) && k in last.after.objects ensures false {
      LeftIsRefused(t.objects, last.after.objects, last.log, last.from, k);
    }
  }
}
