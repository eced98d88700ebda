/** The two stores the handlers change, each call free to fail, and the source of
    uuid4 names.  A call that fails has had no effect. */
module Stores {
  import opened Records
  import opened Keys

  /** One delete call and whether it went through. */
  datatype Attempt = Attempt(key: Key, ok: bool)

  datatype CopyResult = Copied | SourceMissing | CopyFailed

  datatype Lookup = Found(id: Id, row: Row) | Absent | Broken

  class ObjectStore {
    var objects: map<Key, Bytes>
    ghost var deletes: seq<Attempt>  // every delete call so far
    ghost var faults: nat            // calls that raised so far

    /** Everything in storage is spelled by a proper key. */
    ghost predicate Valid()
      reads this
    {
      forall k :: k in objects ==> ProperKey(k)
    }

    constructor ()
      ensures Valid() && objects == map[] && deletes == [] && faults == 0
    {
      objects, deletes, faults := map[], [], 0;
    }

    method Upload(key: Key, data: Bytes) returns (ok: bool)
      requires Valid() && ProperKey(key)
      modifies this
      ensures Valid() && objects == if ok then old(objects)[key := data] else old(objects)
      ensures deletes == old(deletes) && faults == old(faults) + if ok then 0 else 1
    {
      ok := *;
      if ok { objects := objects[key := data]; } else { faults := faults + 1; }
    }

    /** Idempotent: deleting an object that is not there succeeds. */
    method Delete(key: Key) returns (ok: bool)
      requires Valid()
      modifies this
      ensures Valid() && objects == if ok then old(objects) - {key} else old(objects)
      ensures deletes == old(deletes) + [Attempt(key, ok)]
      ensures faults == old(faults) + if ok then 0 else 1
    {
      ok := *;
      if ok { objects := objects - {key}; } else { faults := faults + 1; }
      deletes := deletes + [Attempt(key, ok)];
    }

    method Copy(source: Key, target: Key) returns (r: CopyResult)
      requires Valid() && ProperKey(target)
      modifies this
      ensures Valid()
      ensures r.Copied? ==> source in old(objects) && objects == old(objects)[target := old(objects)[source]]
      ensures r.SourceMissing? ==> source !in old(objects)
      ensures !r.Copied? ==> objects == old(objects)
      ensures deletes == old(deletes) && faults == old(faults) + if r.CopyFailed? then 1 else 0
    {
      var up := *;
      if !up { faults := faults + 1; r := CopyFailed; }
      else if source !in objects { r := SourceMissing; }
      else { objects := objects[target := objects[source]]; r := Copied; }
    }
  }

  /** A delete of `k` raised, at or after position `from` of the log. */
  ghost predicate Refused(log: seq<Attempt>, from: nat, k: Key) {
    exists i :: from <= i < |log| && log[i] == Attempt(k, false)
  }

  /** `k` was tried at or after `from`, and every try raised. */
  ghost predicate OnlyRefused(log: seq<Attempt>, from: nat, k: Key) {
    && Refused(log, from, k)
    && forall i :: from <= i < |log| && log[i].key == k ==> !log[i].ok
  }

  ghost predicate Attempted(log: seq<Attempt>, from: nat, k: Key) {
    exists i :: from <= i < |log| && log[i].key == k
  }

  /** A call on the table that raised. */
  datatype TableFault =
    | CreateFault
    | GetFault
    | LoadFault
    | LookupFault              // one of the two idempotency lookups
    | DeleteFault(id: Id)
    | MarkReadyFault
    | MarkFailedFault
    | SetPosterFault
    | SetVisibilityFault

  /** The call `what` raised, at or after position `from` of the log. */
  ghost predicate Raised(log: seq<TableFault>, from: nat, what: TableFault) {
    exists i :: from <= i < |log| && log[i] == what
  }

  /** The `uploads` table: primary key `id`, unique index on `storage_key`.
      Row ids are drawn in creation order and never reused. */
  class RowTable {
    var rows: map<Id, Row>
    var nextId: Id
    ghost var faults: seq<TableFault>  // every call that raised so far

    ghost predicate Valid()
      reads this
    {
      && (forall id :: id in rows ==> id < nextId)
      && (forall i, j :: i in rows && j in rows && i != j ==> rows[i].storageKey != rows[j].storageKey)
    }

    constructor ()
      ensures Valid() && rows == map[] && nextId == 0 && faults == []
    {
      rows, nextId, faults := map[], 0, [];
    }

    /** INSERT ... RETURNING; None when it raised, which a duplicate key makes it do. */
    method Create(row: Row) returns (r: Option<Id>)
      requires Valid()
      modifies this
      ensures Valid()
      ensures r.Some? ==>
                r.value == old(nextId) < nextId && rows == old(rows)[r.value := row] && faults == old(faults)
      ensures r.None? ==>
                rows == old(rows) && nextId == old(nextId) && faults == old(faults) + [CreateFault]
    {
      var up := *;
      if up && forall id :: id in rows ==> rows[id].storageKey != row.storageKey {
        r := Some(nextId);
        rows := rows[nextId := row];
        nextId := nextId + 1;
      } else {
        r := None;
        faults := faults + [CreateFault];
      }
    }

    method Get(id: Id, owner: string) returns (r: Lookup)
      modifies this`faults
      ensures faults == old(faults) + if r.Broken? then [GetFault] else []
      ensures r.Found? ==> r.id == id && id in rows && rows[id] == r.row && r.row.owner == owner
      ensures r.Absent? ==> id !in rows || rows[id].owner != owner
    {
      var up := *;
      if !up { r := Broken; faults := faults + [GetFault]; }
      else if id in rows && rows[id].owner == owner { r := Found(id, rows[id]); }
      else { r := Absent; }
    }

    method GetById(id: Id) returns (r: Lookup)
      modifies this`faults
      ensures faults == old(faults) + if r.Broken? then [LoadFault] else []
      ensures r.Found? ==> r.id == id && id in rows && rows[id] == r.row
      ensures r.Absent? ==> id !in rows
    {
      r := Read(id, LoadFault);
    }

    method Read(id: Id, ghost what: TableFault) returns (r: Lookup)
      modifies this`faults
      ensures faults == old(faults) + if r.Broken? then [what] else []
      ensures r.Found? ==> r.id == id && id in rows && rows[id] == r.row
      ensures r.Absent? ==> id !in rows
    {
      var up := *;
      if !up { r := Broken; faults := faults + [what]; }
      else if id in rows { r := Found(id, rows[id]); }
      else { r := Absent; }
    }

    /** The newest of the owner's ready rows with this hash, of any kind. */
    method FindReadyByHash(owner: string, hash: string) returns (r: Lookup)
      modifies this`faults
      ensures faults == old(faults) + if r.Broken? then [LookupFault] else []
      ensures r.Found? ==>
                && r.id in rows && rows[r.id] == r.row
                && r.row.owner == owner && r.row.contentHash == Some(hash) && r.row.status.Ready?
      ensures r.Found? ==> forall id :: id in rows && IsReadyHit(rows[id], owner, hash) ==> id <= r.id
      ensures r.Absent? ==>
                forall id :: id in rows && rows[id].owner == owner && rows[id].contentHash == Some(hash) ==>
                  !rows[id].status.Ready?
    {
      var hits := set id |
        id in rows && rows[id].owner == owner && rows[id].contentHash == Some(hash) && rows[id].status.Ready?;
      r := Newest(hits);
      assert forall id :: id in rows && IsReadyHit(rows[id], owner, hash) ==> id in hits;
    }

    /** The same among the owner's ready or processing videos. */
    method FindActiveVideoByHash(owner: string, hash: string) returns (r: Lookup)
      modifies this`faults
      ensures faults == old(faults) + if r.Broken? then [LookupFault] else []
      ensures r.Found? ==>
                && r.id in rows && rows[r.id] == r.row
                && r.row.owner == owner && r.row.contentHash == Some(hash)
                && r.row.kind.Video? && !r.row.status.Failed?
      ensures r.Found? ==> forall id :: id in rows && IsVideoHit(rows[id], owner, hash) ==> id <= r.id
      ensures r.Absent? ==>
                forall id :: id in rows && rows[id].owner == owner && rows[id].contentHash == Some(hash) ==>
                  !rows[id].kind.Video? || rows[id].status.Failed?
    {
      var hits := set id |
        && id in rows && rows[id].owner == owner && rows[id].contentHash == Some(hash)
        && rows[id].kind.Video? && rows[id].status in {Ready, Processing};
      r := Newest(hits);
      assert forall id :: id in rows && IsVideoHit(rows[id], owner, hash) ==> id in hits;
    }

    /** ORDER BY created_at DESC, id DESC LIMIT 1 over `hits`. */
    method Newest(hits: set<Id>) returns (r: Lookup)
      requires hits <= rows.Keys
      modifies this`faults
      ensures faults == old(faults) + if r.Broken? then [LookupFault] else []
      ensures r.Found? ==> r.id in hits && rows[r.id] == r.row && forall id :: id in hits ==> id <= r.id
      ensures r.Absent? ==> hits == {}
    {
      var up := *;
      if !up { r := Broken; faults := faults + [LookupFault]; }
      else if hits == {} { r := Absent; }
      else {
        ghost var newest := LargestExists(hits);
        var id :| id in hits && forall j :: j in hits ==> j <= id;
        r := Found(id, rows[id]);
      }
    }

    /** DELETE, scoped to the owner; false when it raised. */
    method Delete(id: Id, owner: string) returns (ok: bool)
      requires Valid()
      modifies this
      ensures Valid() && nextId == old(nextId)
      ensures faults == old(faults) + if ok then [] else [DeleteFault(id)]
      ensures rows == if ok && id in old(rows) && old(rows)[id].owner == owner then old(rows) - {id} else old(rows)
    {
      ok := *;
      if !ok { faults := faults + [DeleteFault(id)]; }
      else if id in rows && rows[id].owner == owner { rows := rows - {id}; }
    }

    /** UPDATE of one row to `row`, unless it raises (as a duplicate key makes it) or
        finds no row.  The public updates below go through it. */
    method Update(id: Id, row: Row, ghost what: TableFault) returns (r: Lookup)
      requires Valid()
      modifies this
      ensures Valid() && nextId == old(nextId)
      ensures faults == old(faults) + if r.Broken? then [what] else []
      ensures r.Found? ==> id in old(rows) && rows == old(rows)[id := row] && r == Found(id, row)
      ensures r.Absent? ==> id !in old(rows)
      ensures !r.Found? ==> rows == old(rows)
    {
      var up := *;
      if !up || exists j :: j in rows && j != id && rows[j].storageKey == row.storageKey {
        r := Broken;
        faults := faults + [what];
      } else if id in rows {
        rows := rows[id := row];
        r := Found(id, row);
      } else {
        r := Absent;
      }
    }

    method MarkReady(id: Id, storageKey: Key) returns (r: Lookup)
      requires Valid()
      modifies this
      ensures Valid() && nextId == old(nextId)
      ensures faults == old(faults) + if r.Broken? then [MarkReadyFault] else []
      ensures r.Found? ==> id in old(rows) && r.row == old(rows)[id].(storageKey := storageKey, status := Ready)
                           && rows == old(rows)[id := r.row]
      ensures r.Absent? ==> id !in old(rows)
      ensures !r.Found? ==> rows == old(rows)
    {
      if id in rows {
        r := Update(id, rows[id].(storageKey := storageKey, status := Ready), MarkReadyFault);
      } else {
        r := Missing(MarkReadyFault);
      }
    }

    method MarkFailed(id: Id) returns (r: Lookup)
      requires Valid()
      modifies this
      ensures Valid() && nextId == old(nextId)
      ensures faults == old(faults) + if r.Broken? then [MarkFailedFault] else []
      ensures r.Found? ==>
                id in old(rows) && r.row == old(rows)[id].(status := Failed) && rows == old(rows)[id := r.row]
      ensures r.Absent? ==> id !in old(rows)
      ensures !r.Found? ==> rows == old(rows)
    {
      if id in rows { r := Update(id, rows[id].(status := Failed), MarkFailedFault); }
      else { r := Missing(MarkFailedFault); }
    }

    /** An UPDATE that matches no row, or raises. */
    method Missing(ghost what: TableFault) returns (r: Lookup)
      modifies this`faults
      ensures (r.Absent? && faults == old(faults)) || (r.Broken? && faults == old(faults) + [what])
    {
      var up := *;
      if up { r := Absent; } else { r := Broken; faults := faults + [what]; }
    }

    /** UPDATE, then a fresh read of the row: when the read raises, or finds the row
        gone, the UPDATE has been made all the same. */
    method SetPoster(video: Id, poster: Id) returns (r: Lookup)
      requires Valid()
      modifies this
      ensures Valid() && nextId == old(nextId)
      ensures faults == old(faults) + if r.Broken? then [SetPosterFault] else []
      ensures r.Found? ==> video in old(rows) && rows == old(rows)[video := r.row]
                           && r.row == old(rows)[video].(poster := Some(poster))
      ensures r.Absent? ==> rows == old(rows) && video !in old(rows)
      ensures r.Broken? && rows != old(rows) ==>
                video in old(rows) && rows == old(rows)[video := old(rows)[video].(poster := Some(poster))]
    {
      if video in rows { r := Update(video, rows[video].(poster := Some(poster)), SetPosterFault); }
      else { r := Missing(SetPosterFault); }
      if r.Found? { r := Read(video, SetPosterFault); }
    }

    /** One statement moves visibility, key and renditions together; a None keeps the column. */
    method SetVisibility(id: Id, owner: string, visibility: Visibility,
                         storageKey: Option<Key>, renditions: Option<map<string, Key>>)
      returns (r: Lookup)
      requires Valid()
      modifies this
      ensures Valid() && nextId == old(nextId)
      ensures faults == old(faults) + if r.Broken? then [SetVisibilityFault] else []
      ensures r.Found? ==> id in old(rows) && old(rows)[id].owner == owner && rows == old(rows)[id := r.row]
                           && r.row == Recast(old(rows)[id], visibility, storageKey, renditions)
      ensures r.Found? ==>
                && r.row.visibility == visibility
                && r.row.storageKey == (if storageKey.Some? then storageKey.value else old(rows)[id].storageKey)
                && r.row.renditions == (if renditions.Some? then renditions.value else old(rows)[id].renditions)
                && r.row.status == old(rows)[id].status && r.row.poster == old(rows)[id].poster
      ensures r.Absent? ==> id !in old(rows) || old(rows)[id].owner != owner
      ensures !r.Found? ==> rows == old(rows)
    {
      if id in rows && rows[id].owner == owner {
        var row := rows[id].(visibility := visibility);
        if storageKey.Some? { row := row.(storageKey := storageKey.value); }
        if renditions.Some? { row := row.(renditions := renditions.value); }
        r := Update(id, row, SetVisibilityFault);
      } else {
        r := Missing(SetVisibilityFault);
      }
    }
  }

  lemma {:induction false} LargestExists(s: set<Id>) returns (top: Id)
    requires s != {}
    ensures top in s && forall j :: j in s ==> j <= top
  {
    top :| top in s;
    var rest := s - {top};
    if rest != {} {
      var m := LargestExists(rest);
      forall j | j in s ensures j == top || j <= m { assert j == top || j in rest; }
      if top < m { top := m; }
    } else {
      forall j | j in s ensures j == top { assert j !in rest; }
    }
  }

  ghost predicate IsReadyHit(row: Row, owner: string, hash: string) {
    row.owner == owner && row.contentHash == Some(hash) && row.status.Ready?
  }

  ghost predicate IsVideoHit(row: Row, owner: string, hash: string) {
    && row.owner == owner && row.contentHash == Some(hash) && row.kind.Video?
    && (row.status.Ready? || row.status.Processing?)
  }

  ghost function Recast(row: Row, visibility: Visibility, storageKey: Option<Key>,
                  renditions: Option<map<string, Key>>): Row
  {
    row.(visibility := visibility,
         storageKey := if storageKey.Some? then storageKey.value else row.storageKey,
         renditions := if renditions.Some? then renditions.value else row.renditions)
  }

  /** uuid4: the only promise used is that a drawn name was never drawn before. */
  class Uuids {
    ghost var issued: set<string>
    var drawn: nat

    ghost predicate Valid()
      reads this
    {
      forall u :: u in issued ==> |u| <= drawn
    }

    constructor ()
      ensures Valid() && issued == {}
    {
      issued, drawn := {}, 0;
    }

    method Uuid4() returns (u: string)
      requires Valid()
      modifies this
      ensures Valid() && u !in old(issued) && issued == old(issued) + {u} && Plain(u)
    {
      drawn := drawn + 1;
      u := seq(drawn, _ => '0');
      issued := issued + {u};
    }
  }
}
