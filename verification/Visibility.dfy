/** PATCH /files/{id}: copy to fresh keys, re-point the row in one statement, delete the
    old objects, and then the same, best-effort, for a video's poster. */
module VisibilityPatch {
  import opened Records
  import opened Keys
  import opened Stores
  import opened World

  datatype Rotation =
    | NoRotation
    | Moved(key: Key, renditions: Option<map<string, Key>>)
    | RotationFailed

  datatype PatchResult = Patched(row: Row) | NotFound | BadGateway

  /** The rendition copies a rotation to `key` makes: one for each that still exists. */
  ghost function Copies(objects: map<Key, Bytes>, row: Row, key: Key): map<string, Key> {
    map n | n in row.renditions && row.renditions[n] in objects :: RenditionOf(key, n)
  }

  /** Storage with the main object and those copies under `key`. */
  ghost predicate HoldsCopy(before: map<Key, Bytes>, after: map<Key, Bytes>, row: Row, key: Key,
                            copied: map<string, Key>) {
    && row.storageKey in before && key in after && after[key] == before[row.storageKey]
    && copied == Copies(before, row, key)
    && forall n :: n in copied ==> copied[n] in after && after[copied[n]] == before[row.renditions[n]]
  }

  /** Objects with a uuid drawn earlier are untouched. */
  ghost predicate OldKept(before: map<Key, Bytes>, after: map<Key, Bytes>, issued: set<string>) {
    forall k: Key :: k.uuid in issued ==> Kept(before, after, k)
  }

  /** After a best-effort deletion of `keys`: what is left of them was refused. */
  ghost predicate Swept(before: map<Key, Bytes>, after: map<Key, Bytes>, keys: set<Key>, log: seq<Attempt>, from: nat) {
    && (forall k :: k !in keys ==> Kept(before, after, k))
    && (forall k :: k in keys && k in after ==> k in before && after[k] == before[k] && Refused(log, from, k))
  }

  /** Keys that a delete call took, at or after position `from` of the log. */
  ghost function Taken(log: seq<Attempt>, from: nat): set<Key> {
    set i | from <= i < |log| && log[i].ok :: log[i].key
  }

  ghost predicate OnlyTried(log: seq<Attempt>, from: nat, keys: set<Key>) {
    forall i :: from <= i < |log| ==> log[i].key in keys
  }

  lemma OneMoreTaken(log: seq<Attempt>, from: nat, a: Attempt)
    requires from <= |log|
    ensures Taken(log + [a], from) == Taken(log, from) + if a.ok then {a.key} else {}
  {
    var longer := log + [a];
    forall k | k in Taken(log, from) ensures k in Taken(longer, from) {
      var i :| from <= i < |log| && log[i].ok && log[i].key == k;
      assert longer[i] == log[i];
    }
    if a.ok { assert longer[|log|].key == a.key; }
    forall k | k in Taken(longer, from) ensures k in Taken(log, from) + if a.ok then {a.key} else {} {
      var i :| from <= i < |longer| && longer[i].ok && longer[i].key == k;
      assert i < |log| ==> log[i] == longer[i];
    }
  }

  ghost predicate AllOk(log: seq<Attempt>, from: nat) {
    forall i :: from <= i < |log| ==> log[i].ok
  }

  method DeleteAll(storage: ObjectStore, keys: set<Key>)
    requires storage.Valid()
    modifies storage
    ensures storage.Valid() && old(storage.deletes) <= storage.deletes
    ensures storage.objects == old(storage.objects) - Taken(storage.deletes, |old(storage.deletes)|)
    ensures OnlyTried(storage.deletes, |old(storage.deletes)|, keys)
    ensures Swept(old(storage.objects), storage.objects, keys, storage.deletes, |old(storage.deletes)|)
    ensures forall k :: k in keys ==> Attempted(storage.deletes, |old(storage.deletes)|, k)
    ensures storage.faults >= old(storage.faults)
    ensures storage.faults == old(storage.faults) ==> AllOk(storage.deletes, |old(storage.deletes)|)
  {
    var todo := keys;
    while todo != {}
      invariant todo <= keys && storage.Valid()
      invariant old(storage.deletes) <= storage.deletes && storage.faults >= old(storage.faults)
      invariant storage.objects == old(storage.objects) - Taken(storage.deletes, |old(storage.deletes)|)
      invariant OnlyTried(storage.deletes, |old(storage.deletes)|, keys)
      invariant storage.faults == old(storage.faults) ==> AllOk(storage.deletes, |old(storage.deletes)|)
      invariant forall k :: k !in keys - todo ==> Kept(old(storage.objects), storage.objects, k)
      invariant forall k :: k in keys - todo && k in storage.objects ==>
                  && k in old(storage.objects) && storage.objects[k] == old(storage.objects)[k]
                  && Refused(storage.deletes, |old(storage.deletes)|, k)
      invariant forall k :: k in keys - todo ==> Attempted(storage.deletes, |old(storage.deletes)|, k)
      decreases todo
    {
      var key :| key in todo;
      ghost var log, before := storage.deletes, storage.objects;
      var ok := storage.Delete(key);
      OneMoreTaken(log, |old(storage.deletes)|, Attempt(key, ok));
      forall k | k !in keys - (todo - {key}) ensures Kept(old(storage.objects), storage.objects, k) {
        assert k !in keys - todo && Kept(old(storage.objects), before, k);
      }
      assert storage.deletes[|log|] == Attempt(key, ok);
      forall k | Refused(log, |old(storage.deletes)|, k) ensures Refused(storage.deletes, |old(storage.deletes)|, k) {
        var i :| |old(storage.deletes)| <= i < |log| && log[i] == Attempt(k, false);
        assert storage.deletes[i] == Attempt(k, false);
      }
      forall k | Attempted(log, |old(storage.deletes)|, k)
        ensures Attempted(storage.deletes, |old(storage.deletes)|, k)
      {
        var i :| |old(storage.deletes)| <= i < |log| && log[i].key == k;
        assert storage.deletes[i].key == k;
      }
      todo := todo - {key};
    }
  }

  lemma CopiesSweptAway(before: map<Key, Bytes>, m: map<Key, Bytes>, after: map<Key, Bytes>, newKey: Key,
                        made: set<Key>, log: seq<Attempt>, from: nat)
    requires forall k: Key :: k.uuid != newKey.uuid ==> Kept(before, m, k)
    requires forall k :: k in made ==> k.uuid == newKey.uuid
    requires forall k :: k in m && k.uuid == newKey.uuid ==> k == newKey || k in made
    requires Swept(m, after, {newKey} + made, log, from)
    ensures forall k: Key :: k.uuid != newKey.uuid ==> Kept(before, after, k)
    ensures forall k :: k in after && k.uuid == newKey.uuid ==> Refused(log, from, k)
  {
    forall k: Key | k.uuid != newKey.uuid ensures Kept(before, after, k) {
      assert Kept(before, m, k) && Kept(m, after, k);
    }
    forall k | k in after && k.uuid == newKey.uuid ensures Refused(log, from, k) {
      assert k !in {newKey} + made ==> Kept(m, after, k);
    }
  }

  /** The copies made so far, with the renditions in `todo` still to treat. */
  ghost predicate CopiedSoFar(before: map<Key, Bytes>, now: map<Key, Bytes>, row: Row, newKey: Key,
                              made: map<string, Key>, todo: set<string>) {
    && (forall k: Key :: k.uuid != newKey.uuid ==> Kept(before, now, k))
    && made.Keys == (set n | n in row.renditions && n !in todo && row.renditions[n] in before)
    && (forall n :: n in made ==>
          made[n] == RenditionOf(newKey, n) && made[n] in now && now[made[n]] == before[row.renditions[n]])
    && newKey in before && newKey in now && now[newKey] == before[newKey]
    && (forall k :: k in now && k.uuid == newKey.uuid ==> k == newKey || k in made.Values)
  }

  lemma OneMoreCopied(before: map<Key, Bytes>, now: map<Key, Bytes>, row: Row, newKey: Key, made: map<string, Key>,
                      todo: set<string>, n: string)
    requires OwnKeys(row) && row.storageKey.uuid != newKey.uuid && newKey.rendition.None? && todo <= row.renditions.Keys
    requires n in todo
    requires CopiedSoFar(before, now, row, newKey, made, todo) && row.renditions[n] in now
    ensures var target := RenditionOf(newKey, n);
            CopiedSoFar(before, now[target := now[row.renditions[n]]], row, newKey, made[n := target], todo - {n})
  {
    var target := RenditionOf(newKey, n);
    assert Kept(before, now, row.renditions[n]);
    ValuesWithOneMore(made, n, target);
    var after := now[target := now[row.renditions[n]]];
    forall k: Key | k.uuid != newKey.uuid ensures Kept(before, after, k) { assert Kept(before, now, k); }
  }

  lemma OneSkipped(before: map<Key, Bytes>, now: map<Key, Bytes>, row: Row, newKey: Key, made: map<string, Key>,
                   todo: set<string>, n: string)
    requires OwnKeys(row) && row.storageKey.uuid != newKey.uuid && todo <= row.renditions.Keys && n in todo
    requires CopiedSoFar(before, now, row, newKey, made, todo) && row.renditions[n] !in now
    ensures CopiedSoFar(before, now, row, newKey, made, todo - {n})
  {
    assert Kept(before, now, row.renditions[n]);
  }

  /** _rotate_renditions: skips what is gone; on a failing copy deletes what it made. */
  method RotateRenditions(storage: ObjectStore, row: Row,
                          newKey: Key) returns (ok: bool, copied: Option<map<string, Key>>)
    requires storage.Valid() && ProperKey(newKey) && newKey.rendition.None?
    requires OwnKeys(row) && ProperRow(row) && row.storageKey.uuid != newKey.uuid
    requires forall k :: k in storage.objects && k.uuid == newKey.uuid ==> k == newKey
    requires newKey in storage.objects
    modifies storage
    ensures storage.Valid() && old(storage.deletes) <= storage.deletes
    ensures if ok then storage.faults == old(storage.faults) else storage.faults > old(storage.faults)
    ensures forall k: Key :: k.uuid != newKey.uuid ==> Kept(old(storage.objects), storage.objects, k)
    ensures ok ==> (copied.None? <==> row.renditions == map[])
    ensures ok && copied.Some? ==>
              && copied.value == Copies(old(storage.objects), row, newKey)
              && (forall n :: n in copied.value ==>
                    && copied.value[n] in storage.objects
                    && storage.objects[copied.value[n]] == old(storage.objects)[row.renditions[n]])
    ensures ok ==> newKey in storage.objects && storage.objects[newKey] == old(storage.objects)[newKey]
    ensures ok ==> forall k :: k in storage.objects && k.uuid == newKey.uuid ==>
                     k == newKey || (copied.Some? && k in copied.value.Values)
    ensures !ok ==> forall k :: k in storage.objects && k.uuid == newKey.uuid ==>
                      Refused(storage.deletes, |old(storage.deletes)|, k)
  {
    if row.renditions == map[] { return true, None; }
    var made: map<string, Key> := map[];
    var todo := row.renditions.Keys;
    while todo != {}
      invariant todo <= row.renditions.Keys && storage.Valid()
      invariant storage.deletes == old(storage.deletes) && storage.faults == old(storage.faults)
      invariant CopiedSoFar(old(storage.objects), storage.objects, row, newKey, made, todo)
      decreases todo
    {
      var n :| n in todo;
      ghost var before := storage.objects;
      RenditionOfProper(newKey, n);
      var r := storage.Copy(row.renditions[n], RenditionOf(newKey, n));
      match r {
        case Copied =>
          OneMoreCopied(old(storage.objects), before, row, newKey, made, todo, n);
          made := made[n := RenditionOf(newKey, n)];
        case SourceMissing =>
          OneSkipped(old(storage.objects), before, row, newKey, made, todo, n);
        case CopyFailed =>
          DeleteAll(storage, {newKey} + made.Values);
          CopiesSweptAway(old(storage.objects), before, storage.objects, newKey, made.Values, storage.deletes,
                          |old(storage.deletes)|);
          return false, None;
      }
      todo := todo - {n};
    }
    assert made == Copies(old(storage.objects), row, newKey);
    return true, Some(made);
  }

  /** The state a rotation leaves, whichever way it ends. */
  ghost predicate RotationDone(before: map<Key, Bytes>, issued: set<string>, after: map<Key, Bytes>,
                               issuedAfter: set<string>, row: Row, visibility: Visibility, r: Rotation,
                               log: seq<Attempt>, from: nat) {
    && issued <= issuedAfter && OldKept(before, after, issued)
    && (forall k :: k in after ==> k.uuid in issuedAfter)
    && (r.NoRotation? ==> after == before && (row.visibility == visibility || row.storageKey !in before))
    && (r.Moved? ==>
          && row.visibility != visibility
          && r.key.uuid !in issued && r.key.uuid in issuedAfter && Plain(r.key.uuid)
          && r.key == Rotated(row.storageKey, visibility, r.key.uuid)
          && (r.renditions.None? <==> row.renditions == map[])
          && HoldsCopy(before, after, row, r.key, if r.renditions.Some? then r.renditions.value else map[]))
    && (forall k :: k in after && k.uuid !in issued ==> k in CopiesMade(r) || Refused(log, from, k))
  }

  ghost function CopiesMade(r: Rotation): set<Key> {
    if r.Moved? then {r.key} + (if r.renditions.Some? then r.renditions.value.Values else {}) else {}
  }

  /** What a copy of the main object followed by the renditions amounts to. */
  lemma CopiesAddUp(before: map<Key, Bytes>, issued: set<string>, m: map<Key, Bytes>, after: map<Key, Bytes>,
                    newKey: Key)
    requires newKey.uuid !in issued && (forall k :: k in before ==> k.uuid in issued)
    requires newKey in m && m == before[newKey := m[newKey]]
    requires forall k: Key :: k.uuid != newKey.uuid ==> Kept(m, after, k)
    ensures OldKept(before, after, issued) && forall k :: k in after ==> k.uuid in issued + {newKey.uuid}
  {
    forall k: Key | k.uuid in issued ensures Kept(before, after, k) { assert Kept(m, after, k); }
    forall k | k in after ensures k.uuid in issued + {newKey.uuid} {
      assert Kept(m, after, k) || k.uuid == newKey.uuid;
    }
  }

  lemma RotationMade(before: map<Key, Bytes>, issued: set<string>, m: map<Key, Bytes>, after: map<Key, Bytes>, row: Row,
                     visibility: Visibility, newKey: Key, copied: Option<map<string, Key>>, log: seq<Attempt>,
                     from: nat)
    requires newKey.uuid !in issued && (forall k :: k in before ==> k.uuid in issued)
    requires OwnKeys(row) && row.storageKey.uuid in issued && row.visibility != visibility
    requires newKey == Rotated(row.storageKey, visibility, newKey.uuid) && Plain(newKey.uuid)
    requires row.storageKey in before && m == before[newKey := before[row.storageKey]]
    requires forall k: Key :: k.uuid != newKey.uuid ==> Kept(m, after, k)
    requires copied.None? <==> row.renditions == map[]
    requires copied.Some? ==>
               && copied.value == Copies(m, row, newKey)
               && (forall n :: n in copied.value ==>
                     copied.value[n] in after && after[copied.value[n]] == m[row.renditions[n]])
    requires newKey in after && after[newKey] == m[newKey]
    requires forall k :: k in after && k.uuid == newKey.uuid ==>
               k == newKey || (copied.Some? && k in copied.value.Values)
    ensures RotationDone(before, issued, after, issued + {newKey.uuid}, row, visibility, Moved(newKey, copied), log,
                         from)
  {
    CopiesAddUp(before, issued, m, after, newKey);
    forall n | n in row.renditions
      ensures row.renditions[n].uuid in issued && (row.renditions[n] in m <==> row.renditions[n] in before)
    {}
    assert Copies(m, row, newKey) == Copies(before, row, newKey);
  }

  /** _rotate_key_on_visibility_change: copies the object and its renditions to keys with
      a fresh uuid, on the new side of the boundary. */
  method RotateKeyOnVisibilityChange(storage: ObjectStore, uuids: Uuids, row: Row, visibility: Visibility)
    returns (r: Rotation)
    requires storage.Valid() && uuids.Valid() && OwnKeys(row) && ProperRow(row) && row.storageKey.uuid in uuids.issued
    requires forall k :: k in storage.objects ==> k.uuid in uuids.issued
    modifies storage, uuids
    ensures storage.Valid() && uuids.Valid() && old(storage.deletes) <= storage.deletes
    ensures if r.RotationFailed? then storage.faults > old(storage.faults) else storage.faults == old(storage.faults)
    ensures RotationDone(old(storage.objects), old(uuids.issued), storage.objects, uuids.issued, row, visibility, r,
                         storage.deletes, |old(storage.deletes)|)
  {
    if visibility == row.visibility { return NoRotation; }
    var u := uuids.Uuid4();
    var newKey := Rotated(row.storageKey, visibility, u);
    var c := storage.Copy(row.storageKey, newKey);
    match c {
      case SourceMissing => return NoRotation;
      case CopyFailed => return RotationFailed;
      case Copied =>
    }
    ghost var before := storage.objects;
    var ok, copied := RotateRenditions(storage, row, newKey);
    if !ok {
      CopiesAddUp(old(storage.objects), old(uuids.issued), before, storage.objects, newKey);
      return RotationFailed;
    }
    RotationMade(old(storage.objects), old(uuids.issued), before, storage.objects, row, visibility, newKey, copied,
                 storage.deletes, |old(storage.deletes)|);
    r := Moved(newKey, copied);
  }

  // ----- The three ways a visibility change can end for one row ------------------------

  /** A snapshot of both stores. */
  datatype Snapshot = Snapshot(objects: map<Key, Bytes>, rows: map<Id, Row>, issued: set<string>)

  ghost predicate Untouched(s: Snapshot, t: Snapshot, id: Id) {
    id in s.rows && id in t.rows && t.rows[id] == s.rows[id]
    && forall k :: k in KeysOf(s.rows[id]) ==> Kept(s.objects, t.objects, k)
  }

  /** Only the column changed, because nothing had to move or nothing was there to move. */
  ghost predicate Flipped(s: Snapshot, t: Snapshot, id: Id, visibility: Visibility) {
    && id in s.rows && id in t.rows && t.rows[id] == s.rows[id].(visibility := visibility)
    && (s.rows[id].visibility == visibility || s.rows[id].storageKey !in s.objects)
    && forall k :: k in KeysOf(s.rows[id]) ==> Kept(s.objects, t.objects, k)
  }

  /** The row points at present copies, under a fresh uuid and on the new side of the
      boundary, with the bytes of the main object and of every rendition that existed;
      the old objects are gone, except where their own delete raised. */
  ghost predicate Repointed(s: Snapshot, t: Snapshot, id: Id, visibility: Visibility, log: seq<Attempt>, from: nat) {
    && id in s.rows && id in t.rows
    && var row, now := s.rows[id], t.rows[id];
    && row.visibility != visibility
    && now == row.(visibility := visibility, storageKey := now.storageKey, renditions := now.renditions)
    && now.storageKey.uuid !in s.issued && now.storageKey.uuid in t.issued && Plain(now.storageKey.uuid)
    && now.storageKey == Rotated(row.storageKey, visibility, now.storageKey.uuid)
    && HoldsCopy(s.objects, t.objects, row, now.storageKey, now.renditions)
    && forall k :: k in KeysOf(row) && k in t.objects ==> Refused(log, from, k)
  }

  ghost predicate Turned(s: Snapshot, t: Snapshot, id: Id, visibility: Visibility, log: seq<Attempt>, from: nat) {
    Flipped(s, t, id, visibility) || Repointed(s, t, id, visibility, log, from)
  }

  /** Everything else: rows other than `id`, and objects named earlier that `id` does not own. */
  ghost predicate OthersKept(s: Snapshot, t: Snapshot, id: Id) {
    && t.rows.Keys == s.rows.Keys
    && (forall j :: j in s.rows && j != id ==> t.rows[j] == s.rows[j])
    && (forall k: Key :: k.uuid in s.issued && (id in s.rows ==> k !in KeysOf(s.rows[id])) ==>
          Kept(s.objects, t.objects, k))
  }

  /** No object named earlier comes into being, or changes. */
  ghost predicate NothingNew(s: Snapshot, t: Snapshot) {
    forall k :: k in t.objects && k.uuid in s.issued ==> k in s.objects && t.objects[k] == s.objects[k]
  }

  /** Fresh objects are adopted by row `id`, or their delete raised. */
  ghost predicate NoLeftovers(s: Snapshot, t: Snapshot, id: Id, log: seq<Attempt>, from: nat) {
    && NothingNew(s, t)
    && forall k :: k in t.objects && k.uuid !in s.issued ==>
         (id in t.rows && k in KeysOf(t.rows[id])) || Refused(log, from, k)
  }

  ghost function Snap(storage: ObjectStore, table: RowTable, uuids: Uuids): Snapshot
    reads storage, table, uuids
  {
    Snapshot(storage.objects, table.rows, uuids.issued)
  }

  ghost predicate SoundSnap(s: Snapshot) {
    Sound(s.objects, s.rows, s.issued)
  }

  /** Rows after the change: the changed row, and all others as they were. */
  lemma TurnedRowIsOwn(s: Snapshot, t: Snapshot, id: Id, visibility: Visibility, log: seq<Attempt>, from: nat)
    requires SoundSnap(s) && (Untouched(s, t, id) || Turned(s, t, id, visibility, log, from)) && s.issued <= t.issued
    ensures OwnKeys(t.rows[id]) && t.rows[id].poster != Some(id) && t.rows[id].storageKey.uuid in t.issued
    ensures ProperRow(t.rows[id])
    ensures t.rows[id].storageKey == s.rows[id].storageKey || t.rows[id].storageKey.uuid !in s.issued
  {
  }

  lemma TurnKeepsSound(s: Snapshot, t: Snapshot, id: Id, visibility: Visibility, log: seq<Attempt>, from: nat)
    requires SoundSnap(s) && s.issued <= t.issued && OthersKept(s, t, id)
    requires forall k :: k in t.objects ==> k.uuid in t.issued
    requires Untouched(s, t, id) || Turned(s, t, id, visibility, log, from)
    ensures SoundSnap(t)
  {
    TurnedRowIsOwn(s, t, id, visibility, log, from);
    forall i | i in t.rows
      ensures OwnKeys(t.rows[i]) && ProperRow(t.rows[i]) && t.rows[i].poster != Some(i)
      ensures t.rows[i].storageKey.uuid in t.issued
    {
      if i != id { assert t.rows[i] == s.rows[i]; }
    }
    forall i, j | i in t.rows && j in t.rows && i != j ensures !SameStem(t.rows[i].storageKey, t.rows[j].storageKey) {
      StemsDiffer(s, t, id, i, j);
    }
  }

  lemma StemsDiffer(s: Snapshot, t: Snapshot, id: Id, i: Id, j: Id)
    requires SoundSnap(s) && t.rows.Keys == s.rows.Keys && i in t.rows && j in t.rows && i != j
    requires forall k :: k in s.rows && k != id ==> t.rows[k] == s.rows[k]
    requires id in t.rows ==>
               t.rows[id].storageKey == s.rows[id].storageKey || t.rows[id].storageKey.uuid !in s.issued
    ensures !SameStem(t.rows[i].storageKey, t.rows[j].storageKey)
  {
    assert i in s.rows && j in s.rows && !SameStem(s.rows[i].storageKey, s.rows[j].storageKey);
    assert s.rows[i].storageKey.uuid in s.issued && s.rows[j].storageKey.uuid in s.issued;
  }

  /** The copies a rotation made have a fresh uuid. */
  lemma CopiesAreFresh(before: map<Key, Bytes>, issued: set<string>, after: map<Key, Bytes>, issuedAfter: set<string>,
                       row: Row, visibility: Visibility, r: Rotation, log: seq<Attempt>, from: nat)
    requires RotationDone(before, issued, after, issuedAfter, row, visibility, r, log, from)
    ensures forall k :: k in CopiesMade(r) ==> k.uuid !in issued
  {
    if r.Moved? && r.renditions.Some? {
      forall k | k in r.renditions.value.Values ensures k.uuid !in issued {
        var n :| n in r.renditions.value && r.renditions.value[n] == k;
      }
    }
  }

  lemma RefusedStays(log: seq<Attempt>, longer: seq<Attempt>, from: nat, k: Key)
    requires log <= longer && Refused(log, from, k)
    ensures Refused(longer, from, k)
  {
    var i :| from <= i < |log| && log[i] == Attempt(k, false);
    assert longer[i] == Attempt(k, false);
  }

  lemma RefusedLater(log: seq<Attempt>, from: nat, later: nat, k: Key)
    requires from <= later && Refused(log, later, k)
    ensures Refused(log, from, k)
  {
  }

  /** The row was not re-pointed and every copy was swept away again. */
  lemma AbandonedRotation(s: Snapshot, m: map<Key, Bytes>, t: Snapshot, id: Id, visibility: Visibility, r: Rotation,
                          log: seq<Attempt>, longer: seq<Attempt>, from: nat)
    requires SoundSnap(s) && id in s.rows && t.rows == s.rows && from <= |log| && log <= longer
    requires RotationDone(s.objects, s.issued, m, t.issued, s.rows[id], visibility, r, log, from)
    requires Swept(m, t.objects, CopiesMade(r), longer, |log|)
    ensures SoundSnap(t) && OthersKept(s, t, id) && Untouched(s, t, id) && NoLeftovers(s, t, id, longer, from)
  {
    CopiesAreFresh(s.objects, s.issued, m, t.issued, s.rows[id], visibility, r, log, from);
    forall k: Key | k.uuid in s.issued ensures Kept(s.objects, t.objects, k) {
      assert Kept(s.objects, m, k) && Kept(m, t.objects, k);
    }
    forall k | k in KeysOf(s.rows[id]) ensures k.uuid in s.issued { KeysShareStem(s.rows[id], k); }
    forall k | k in t.objects ensures k.uuid in t.issued && (k.uuid !in s.issued ==> Refused(longer, from, k)) {
      if k in CopiesMade(r) { RefusedLater(longer, from, |log|, k); }
      else { assert Kept(m, t.objects, k); if k.uuid !in s.issued { RefusedStays(log, longer, from, k); } }
    }
    TurnKeepsSound(s, t, id, visibility, longer, from);
  }

  /** What is left in storage once the old objects are swept away. */
  lemma AdoptedObjects(s: Snapshot, m: map<Key, Bytes>, t: Snapshot, row: Row, visibility: Visibility, r: Rotation,
                       log: seq<Attempt>, longer: seq<Attempt>, from: nat)
    requires (forall k :: k in s.objects ==> k.uuid in s.issued) && OwnKeys(row) && row.storageKey.uuid in s.issued
    requires r.Moved? && from <= |log| && log <= longer
    requires RotationDone(s.objects, s.issued, m, t.issued, row, visibility, r, log, from)
    requires Swept(m, t.objects, KeysOf(row), longer, |log|)
    ensures forall k: Key :: k.uuid in s.issued && k !in KeysOf(row) ==> Kept(s.objects, t.objects, k)
    ensures forall k: Key :: k.uuid !in s.issued ==> Kept(m, t.objects, k)
    ensures forall k :: k in t.objects ==> k.uuid in t.issued
    ensures forall k :: k in t.objects && k.uuid !in s.issued && k !in CopiesMade(r) ==> Refused(longer, from, k)
    ensures forall k :: k in KeysOf(row) && k in t.objects ==> Refused(longer, from, k)
  {
    CopiesAreFresh(s.objects, s.issued, m, t.issued, row, visibility, r, log, from);
    forall k | k in KeysOf(row) ensures k.uuid in s.issued { KeysShareStem(row, k); }
    forall k: Key | k.uuid in s.issued && k !in KeysOf(row) ensures Kept(s.objects, t.objects, k) {
      assert Kept(s.objects, m, k) && Kept(m, t.objects, k);
    }
    forall k | k in t.objects ensures k.uuid in t.issued {
      assert k in m by { assert k !in KeysOf(row) ==> Kept(m, t.objects, k); }
    }
    forall k | k in t.objects && k.uuid !in s.issued && k !in CopiesMade(r) ensures Refused(longer, from, k) {
      assert Kept(m, t.objects, k);
      RefusedStays(log, longer, from, k);
    }
    forall k | k in KeysOf(row) && k in t.objects ensures Refused(longer, from, k) {
      RefusedLater(longer, from, |log|, k);
    }
  }

  /** The row was re-pointed at the copies and the old objects swept away. */
  lemma AdoptedRotation(s: Snapshot, m: map<Key, Bytes>, t: Snapshot, id: Id, visibility: Visibility, r: Rotation,
                        log: seq<Attempt>, longer: seq<Attempt>, from: nat)
    requires SoundSnap(s) && id in s.rows && r.Moved? && from <= |log| && log <= longer
    requires t.rows == s.rows[id := Recast(s.rows[id], visibility, Some(r.key), r.renditions)]
    requires RotationDone(s.objects, s.issued, m, t.issued, s.rows[id], visibility, r, log, from)
    requires Swept(m, t.objects, KeysOf(s.rows[id]), longer, |log|)
    ensures SoundSnap(t) && OthersKept(s, t, id) && Repointed(s, t, id, visibility, longer, from)
    ensures NoLeftovers(s, t, id, longer, from)
  {
    var row := s.rows[id];
    CopiesAreFresh(s.objects, s.issued, m, t.issued, row, visibility, r, log, from);
    assert t.rows[id].renditions == if r.renditions.Some? then r.renditions.value else map[];
    assert forall k :: k in CopiesMade(r) ==> k in KeysOf(t.rows[id]);
    AdoptedObjects(s, m, t, row, visibility, r, log, longer, from);
    assert HoldsCopy(s.objects, t.objects, row, r.key, t.rows[id].renditions) by {
      forall n | n in t.rows[id].renditions ensures t.rows[id].renditions[n].uuid !in s.issued {
        assert t.rows[id].renditions[n] in CopiesMade(r);
      }
      CopyStays(s.objects, m, t.objects, s.issued, row, r.key, t.rows[id].renditions);
    }
    assert Repointed(s, t, id, visibility, longer, from);
    TurnKeepsSound(s, t, id, visibility, longer, from);
  }

  /** A copy under a fresh uuid outlasts a clean-up of older keys. */
  lemma CopyStays(before: map<Key, Bytes>, m: map<Key, Bytes>, after: map<Key, Bytes>, issued: set<string>, row: Row,
                  main: Key, copied: map<string, Key>)
    requires HoldsCopy(before, m, row, main, copied)
    requires main.uuid !in issued && forall n :: n in copied ==> copied[n].uuid !in issued
    requires forall k: Key :: k.uuid !in issued ==> Kept(m, after, k)
    ensures HoldsCopy(before, after, row, main, copied)
  {
  }

  /** Nothing had to move, or nothing was there to move. */
  lemma NoRotationNeeded(s: Snapshot, t: Snapshot, id: Id, visibility: Visibility, log: seq<Attempt>, from: nat)
    requires SoundSnap(s) && id in s.rows && t.objects == s.objects && s.issued <= t.issued
    requires t.rows == s.rows[id := Recast(s.rows[id], visibility, None, None)]
    requires s.rows[id].visibility == visibility || s.rows[id].storageKey !in s.objects
    ensures SoundSnap(t) && OthersKept(s, t, id) && Flipped(s, t, id, visibility) && NoLeftovers(s, t, id, log, from)
  {
    TurnKeepsSound(s, t, id, visibility, log, from);
  }

  /** Re-point the row at the copies and delete the old objects, or take the copies back. */
  method AdoptRotation(storage: ObjectStore, table: RowTable, uuids: Uuids, id: Id, owner: string, row: Row,
                       visibility: Visibility, rotation: Rotation, ghost s: Snapshot, ghost from: nat)
    returns (r: PatchResult)
    requires storage.Valid() && uuids.Valid() && table.Valid() && SoundSnap(s) && from <= |storage.deletes|
    requires table.rows == s.rows && id in s.rows && s.rows[id] == row && row.owner == owner
    requires !rotation.RotationFailed?
    requires RotationDone(s.objects, s.issued, storage.objects, uuids.issued, row, visibility, rotation,
                          storage.deletes, from)
    modifies storage, table
    ensures storage.Valid() && table.Valid() && SoundSnap(Snap(storage, table, uuids))
    ensures table.nextId == old(table.nextId)
    ensures old(storage.deletes) <= storage.deletes && storage.faults >= old(storage.faults)
    ensures old(table.faults) <= table.faults
    ensures OthersKept(s, Snap(storage, table, uuids), id)
    ensures NoLeftovers(s, Snap(storage, table, uuids), id, storage.deletes, from)
    ensures r.Patched? ==>
              && r.row == table.rows[id]
              && Turned(s, Snap(storage, table, uuids), id, visibility, storage.deletes, from)
    ensures !r.Patched? ==> Untouched(s, Snap(storage, table, uuids), id) && old(table.faults) < table.faults
  {
    ghost var m, log := storage.objects, storage.deletes;
    var key := if rotation.Moved? then Some(rotation.key) else None;
    var renditions := if rotation.Moved? then rotation.renditions else None;
    var updated := table.SetVisibility(id, owner, visibility, key, renditions);
    if !updated.Found? {
      // _cleanup_rotated_objects
      if rotation.Moved? {
        DeleteAll(storage, {rotation.key} + if renditions.Some? then renditions.value.Values else {});
      }
      AbandonedRotation(s, m, Snap(storage, table, uuids), id, visibility, rotation, log, storage.deletes, from);
      return if updated.Broken? then BadGateway else NotFound;
    }
    if rotation.Moved? {
      // _delete_old_objects_after_rotation
      DeleteAll(storage, KeysOf(row));
      AdoptedRotation(s, m, Snap(storage, table, uuids), id, visibility, rotation, log, storage.deletes, from);
    } else {
      NoRotationNeeded(s, Snap(storage, table, uuids), id, visibility, log, from);
    }
    r := Patched(updated.row);
  }

  /** The steps set_file_visibility and the poster cascade share, from the loaded row on. */
  method TurnRow(storage: ObjectStore, table: RowTable, uuids: Uuids, id: Id, owner: string, row: Row,
                 visibility: Visibility)
    returns (r: PatchResult)
    requires storage.Valid() && uuids.Valid() && table.Valid() && SoundSnap(Snap(storage, table, uuids))
    requires id in table.rows && table.rows[id] == row && row.owner == owner
    modifies storage, table, uuids
    ensures storage.Valid() && uuids.Valid() && table.Valid() && SoundSnap(Snap(storage, table, uuids))
    ensures table.nextId == old(table.nextId)
    ensures old(uuids.issued) <= uuids.issued && old(storage.deletes) <= storage.deletes
    ensures OthersKept(old(Snap(storage, table, uuids)), Snap(storage, table, uuids), id)
    ensures NoLeftovers(old(Snap(storage, table, uuids)), Snap(storage, table, uuids), id, storage.deletes,
                        |old(storage.deletes)|)
    ensures r.Patched? ==>
              && r.row == table.rows[id]
              && Turned(old(Snap(storage, table, uuids)), Snap(storage, table, uuids), id, visibility, storage.deletes,
                        |old(storage.deletes)|)
    ensures !r.Patched? ==> Untouched(old(Snap(storage, table, uuids)), Snap(storage, table, uuids), id)
    ensures storage.faults >= old(storage.faults) && old(table.faults) <= table.faults
    ensures !r.Patched? ==> storage.faults > old(storage.faults) || old(table.faults) < table.faults
  {
    ghost var s := Snap(storage, table, uuids);
    ghost var from := |storage.deletes|;
    var rotation := RotateKeyOnVisibilityChange(storage, uuids, row, visibility);
    if rotation.RotationFailed? {
      AbandonedRotation(s, storage.objects, Snap(storage, table, uuids), id, visibility, rotation, storage.deletes,
                        storage.deletes, from);
      return BadGateway;
    }
    r := AdoptRotation(storage, table, uuids, id, owner, row, visibility, rotation, s, from);
  }

  // ----- The parent and its poster --------------------------------------------------------

  /** What a later change of another row leaves of an earlier change of row `id`. */
  lemma TurnedStays(s: Snapshot, m: Snapshot, t: Snapshot, id: Id, poster: Id, visibility: Visibility,
                    log: seq<Attempt>, longer: seq<Attempt>, from: nat)
    requires SoundSnap(s) && SoundSnap(m) && s.issued <= m.issued <= t.issued && id in s.rows && poster in s.rows
    requires poster != id
    requires Turned(s, m, id, visibility, log, from) && OthersKept(s, m, id) && OthersKept(m, t, poster)
    requires log <= longer
    ensures Turned(s, t, id, visibility, longer, from)
  {
    RowsAreDisjoint(m.objects, m.rows, m.issued, id, poster);
    forall k | k in KeysOf(m.rows[id]) ensures Kept(m.objects, t.objects, k) { KeysShareStem(m.rows[id], k); }
    RowsAreDisjoint(s.objects, s.rows, s.issued, id, poster);
    forall k | k in KeysOf(s.rows[id]) ensures Kept(m.objects, t.objects, k) { KeysShareStem(s.rows[id], k); }
    if Repointed(s, m, id, visibility, log, from) {
      forall k | k in KeysOf(s.rows[id]) && k in t.objects ensures Refused(longer, from, k) {
        RefusedStays(log, longer, from, k);
      }
      forall n | n in m.rows[id].renditions ensures m.rows[id].renditions[n] in KeysOf(m.rows[id]) {}
      assert Repointed(s, t, id, visibility, longer, from);
    } else {
      forall k | k in KeysOf(s.rows[id]) ensures Kept(s.objects, t.objects, k) { assert Kept(s.objects, m.objects, k); }
      assert Flipped(s, t, id, visibility);
    }
  }

  lemma RepointedFromStart(s: Snapshot, m: Snapshot, t: Snapshot, poster: Id, visibility: Visibility,
                           longer: seq<Attempt>, from: nat, later: nat)
    requires s.issued <= m.issued && poster in s.rows && from <= later
    requires poster in m.rows && m.rows[poster] == s.rows[poster]
    requires forall k :: k in KeysOf(s.rows[poster]) ==> Kept(s.objects, m.objects, k)
    requires Repointed(m, t, poster, visibility, longer, later)
    ensures Repointed(s, t, poster, visibility, longer, from)
  {
    var row := s.rows[poster];
    forall k | k in KeysOf(row) && k in t.objects ensures Refused(longer, from, k) {
      RefusedLater(longer, from, later, k);
    }
    assert forall n :: n in row.renditions ==> row.renditions[n] in KeysOf(row);
    assert Copies(m.objects, row, t.rows[poster].storageKey) == Copies(s.objects, row, t.rows[poster].storageKey);
  }

  /** The later change of row `poster`, seen from before the earlier one. */
  lemma TurnedFromStart(s: Snapshot, m: Snapshot, t: Snapshot, id: Id, poster: Id, visibility: Visibility,
                        longer: seq<Attempt>, from: nat, later: nat)
    requires SoundSnap(s) && s.issued <= m.issued && id in s.rows && poster in s.rows && poster != id && from <= later
    requires OthersKept(s, m, id)
    requires Untouched(m, t, poster) || Turned(m, t, poster, visibility, longer, later)
    ensures Untouched(s, t, poster) || Turned(s, t, poster, visibility, longer, from)
    ensures Turned(m, t, poster, visibility, longer, later) ==> Turned(s, t, poster, visibility, longer, from)
  {
    RowsAreDisjoint(s.objects, s.rows, s.issued, id, poster);
    var row := s.rows[poster];
    forall k | k in KeysOf(row) ensures Kept(s.objects, m.objects, k) { KeysShareStem(row, k); }
    if Repointed(m, t, poster, visibility, longer, later) {
      RepointedFromStart(s, m, t, poster, visibility, longer, from, later);
    } else {
      forall k | k in KeysOf(row) ensures Kept(s.objects, t.objects, k) { assert Kept(m.objects, t.objects, k); }
    }
  }

  /** Rows the PATCH does not concern, and fresh objects left over by it. */
  ghost predicate Bystanders(s: Snapshot, t: Snapshot, id: Id, poster: Option<Id>, log: seq<Attempt>, from: nat) {
    && t.rows.Keys == s.rows.Keys && NothingNew(s, t)
    && (forall j :: j in s.rows && j != id && Some(j) != poster ==> Untouched(s, t, j))
    && (forall k :: k in t.objects && k.uuid !in s.issued ==>
          (exists j :: j in t.rows && k in KeysOf(t.rows[j])) || Refused(log, from, k))
  }

  lemma OneChange(s: Snapshot, t: Snapshot, id: Id, poster: Option<Id>, log: seq<Attempt>, from: nat)
    requires SoundSnap(s) && id in s.rows && OthersKept(s, t, id) && NoLeftovers(s, t, id, log, from)
    ensures Bystanders(s, t, id, poster, log, from)
    ensures forall j :: j in s.rows && j != id ==> Untouched(s, t, j)
  {
    forall j | j in s.rows && j != id ensures Untouched(s, t, j) {
      RowsAreDisjoint(s.objects, s.rows, s.issued, id, j);
      forall k | k in KeysOf(s.rows[j]) ensures Kept(s.objects, t.objects, k) { KeysShareStem(s.rows[j], k); }
    }
  }

  lemma UntouchedTwice(s: Snapshot, m: Snapshot, t: Snapshot, j: Id)
    requires Untouched(s, m, j) && Untouched(m, t, j)
    ensures Untouched(s, t, j)
  {
    forall k | k in KeysOf(s.rows[j]) ensures Kept(s.objects, t.objects, k) {
      assert Kept(s.objects, m.objects, k) && Kept(m.objects, t.objects, k);
    }
  }

  lemma LeftoverOfTwo(s: Snapshot, m: Snapshot, t: Snapshot, id: Id, poster: Id, log: seq<Attempt>,
                      longer: seq<Attempt>, from: nat, k: Key)
    requires SoundSnap(s) && SoundSnap(m) && s.issued <= m.issued && id in s.rows && poster in s.rows && poster != id
    requires OthersKept(s, m, id) && NoLeftovers(s, m, id, log, from)
    requires OthersKept(m, t, poster) && NoLeftovers(m, t, poster, longer, |log|)
    requires from <= |log| && log <= longer
    requires k in t.objects && k.uuid !in s.issued && !Refused(longer, from, k)
    ensures (id in t.rows && k in KeysOf(t.rows[id])) || (poster in t.rows && k in KeysOf(t.rows[poster]))
  {
    if k.uuid !in m.issued {
      if Refused(longer, |log|, k) { RefusedLater(longer, from, |log|, k); }
    } else {
      if Refused(log, from, k) { RefusedStays(log, longer, from, k); }
      LeftoverIsAdopted(s, m, t, id, poster, log, from, k);
    }
  }

  lemma TwoChanges(s: Snapshot, m: Snapshot, t: Snapshot, id: Id, poster: Id, log: seq<Attempt>, longer: seq<Attempt>,
                   from: nat)
    requires SoundSnap(s) && SoundSnap(m) && s.issued <= m.issued && id in s.rows && poster in s.rows && poster != id
    requires OthersKept(s, m, id) && NoLeftovers(s, m, id, log, from)
    requires OthersKept(m, t, poster) && NoLeftovers(m, t, poster, longer, |log|)
    requires from <= |log| && log <= longer
    ensures Bystanders(s, t, id, Some(poster), longer, from)
  {
    OneChange(s, m, id, Some(poster), log, from);
    OneChange(m, t, poster, Some(poster), longer, |log|);
    forall j | j in s.rows && j != id && j != poster ensures Untouched(s, t, j) { UntouchedTwice(s, m, t, j); }
    forall k | k in t.objects && k.uuid !in s.issued && !Refused(longer, from, k)
      ensures exists j :: j in t.rows && k in KeysOf(t.rows[j])
    {
      LeftoverOfTwo(s, m, t, id, poster, log, longer, from, k);
    }
  }

  lemma LeftoverIsAdopted(s: Snapshot, m: Snapshot, t: Snapshot, id: Id, poster: Id, log: seq<Attempt>, from: nat,
                          k: Key)
    requires SoundSnap(s) && SoundSnap(m) && id in s.rows && poster in s.rows && poster != id
    requires OthersKept(s, m, id) && NoLeftovers(s, m, id, log, from) && OthersKept(m, t, poster)
    requires k in t.objects && k.uuid !in s.issued && k.uuid in m.issued && !Refused(log, from, k)
    ensures id in t.rows && k in KeysOf(t.rows[id])
  {
    assert k !in KeysOf(m.rows[poster]) by {
      if k in KeysOf(m.rows[poster]) { KeysShareStem(m.rows[poster], k); }
    }
    assert Kept(m.objects, t.objects, k);
  }

  /** _cascade_visibility_to_poster; it never raises, because its caller suppresses it. */
  method CascadeVisibilityToPoster(storage: ObjectStore, table: RowTable, uuids: Uuids, poster: Id, owner: string,
                                   visibility: Visibility)
    requires storage.Valid() && uuids.Valid() && table.Valid() && SoundSnap(Snap(storage, table, uuids))
    modifies storage, table, uuids
    ensures storage.Valid() && uuids.Valid() && table.Valid() && SoundSnap(Snap(storage, table, uuids))
    ensures table.nextId == old(table.nextId)
    ensures old(uuids.issued) <= uuids.issued && old(storage.deletes) <= storage.deletes
    ensures Snap(storage, table, uuids) == old(Snap(storage, table, uuids)) || poster in old(table.rows)
    ensures storage.faults >= old(storage.faults) && old(table.faults) <= table.faults
    ensures poster in old(table.rows) ==>
              && OthersKept(old(Snap(storage, table, uuids)), Snap(storage, table, uuids), poster)
              && NoLeftovers(old(Snap(storage, table, uuids)), Snap(storage, table, uuids), poster, storage.deletes,
                             |old(storage.deletes)|)
              && (Untouched(old(Snap(storage, table, uuids)), Snap(storage, table, uuids), poster)
                  || Turned(old(Snap(storage, table, uuids)), Snap(storage, table, uuids), poster, visibility,
                            storage.deletes, |old(storage.deletes)|))
    ensures && storage.faults == old(storage.faults) && table.faults == old(table.faults)
            && poster in old(table.rows) && old(table.rows)[poster].owner == owner ==>
              Turned(old(Snap(storage, table, uuids)), Snap(storage, table, uuids), poster, visibility,
                     storage.deletes, |old(storage.deletes)|)
  {
    var loaded := table.Get(poster, owner);
    if loaded.Found? && loaded.row.visibility != visibility {
      var r := TurnRow(storage, table, uuids, poster, owner, loaded.row, visibility);
    }
  }

  /** A PATCH that answers 200: the row is turned; its poster, if there is one, is turned
      or untouched; every other row is untouched; fresh copies are adopted or refused. */
  ghost predicate PatchMade(s: Snapshot, t: Snapshot, id: Id, visibility: Visibility, log: seq<Attempt>, from: nat) {
    && Turned(s, t, id, visibility, log, from)
    && Bystanders(s, t, id, s.rows[id].poster, log, from)
    && (s.rows[id].poster.Some? && s.rows[id].poster.value in s.rows ==>
          Untouched(s, t, s.rows[id].poster.value) || Turned(s, t, s.rows[id].poster.value, visibility, log, from))
  }

  /** The poster, if the owner has one, has been turned with its video. */
  ghost predicate PosterFollows(s: Snapshot, t: Snapshot, poster: Option<Id>, owner: string, visibility: Visibility,
                                log: seq<Attempt>, from: nat)
  {
    poster.Some? && poster.value in s.rows && s.rows[poster.value].owner == owner ==>
      Turned(s, t, poster.value, visibility, log, from)
  }

  /** A PATCH that answers with an error: no row and no row's object has changed, and a
      copy still around is one whose delete raised. */
  ghost predicate PatchRefused(s: Snapshot, t: Snapshot, log: seq<Attempt>, from: nat) {
    && t.rows == s.rows && NothingNew(s, t)
    && (forall j :: j in s.rows ==> Untouched(s, t, j))
    && (forall k :: k in t.objects && k.uuid !in s.issued ==> Refused(log, from, k))
  }

  lemma OneTurned(s: Snapshot, t: Snapshot, id: Id, visibility: Visibility, log: seq<Attempt>, longer: seq<Attempt>,
                  from: nat)
    requires SoundSnap(s) && id in s.rows && (s.rows[id].poster.Some? ==> s.rows[id].poster.value !in s.rows)
    requires Turned(s, t, id, visibility, log, from) && OthersKept(s, t, id) && NoLeftovers(s, t, id, log, from)
    requires log <= longer
    ensures PatchMade(s, t, id, visibility, longer, from) && id in t.rows
  {
    OneChange(s, t, id, s.rows[id].poster, log, from);
    forall k | Refused(log, from, k) ensures Refused(longer, from, k) { RefusedStays(log, longer, from, k); }
  }

  lemma BothTurned(s: Snapshot, m: Snapshot, t: Snapshot, id: Id, visibility: Visibility,
                   log: seq<Attempt>, longer: seq<Attempt>, from: nat)
    requires SoundSnap(s) && SoundSnap(m) && s.issued <= m.issued <= t.issued && from <= |log| && log <= longer
    requires id in s.rows && s.rows[id].poster.Some? && s.rows[id].poster.value in s.rows
    requires Turned(s, m, id, visibility, log, from) && OthersKept(s, m, id) && NoLeftovers(s, m, id, log, from)
    requires var poster := s.rows[id].poster.value;
             && OthersKept(m, t, poster) && NoLeftovers(m, t, poster, longer, |log|)
             && (Untouched(m, t, poster) || Turned(m, t, poster, visibility, longer, |log|))
    ensures PatchMade(s, t, id, visibility, longer, from)
    ensures Turned(m, t, s.rows[id].poster.value, visibility, longer, |log|) ==>
              Turned(s, t, s.rows[id].poster.value, visibility, longer, from)
    ensures t.rows[id] == m.rows[id]
  {
    var poster := s.rows[id].poster.value;
    TurnedStays(s, m, t, id, poster, visibility, log, longer, from);
    TurnedFromStart(s, m, t, id, poster, visibility, longer, from, |log|);
    TwoChanges(s, m, t, id, poster, log, longer, from);
  }

  lemma NothingHappened(s: Snapshot, log: seq<Attempt>)
    requires SoundSnap(s)
    ensures PatchRefused(s, s, log, |log|)
  {
  }

  lemma NothingChanged(s: Snapshot, t: Snapshot, id: Id, log: seq<Attempt>, from: nat)
    requires SoundSnap(s) && id in s.rows && OthersKept(s, t, id) && Untouched(s, t, id)
    requires NoLeftovers(s, t, id, log, from)
    ensures PatchRefused(s, t, log, from)
  {
    OneChange(s, t, id, None, log, from);
    forall k | k in t.objects && k.uuid !in s.issued ensures Refused(log, from, k) {
      if k in KeysOf(t.rows[id]) { KeysShareStem(s.rows[id], k); }
    }
  }

  /** A PATCH, whichever way it ends, keeps private rows and only them under `private/`. */
  lemma PatchKeepsBoundary(s: Snapshot, t: Snapshot, id: Id, visibility: Visibility, log: seq<Attempt>, from: nat)
    requires SoundSnap(s) && SoundSnap(t) && Boundary(s.objects, s.rows)
    requires PatchRefused(s, t, log, from) || PatchMade(s, t, id, visibility, log, from)
    ensures Boundary(t.objects, t.rows)
  {
    BoundaryByMainKey(s.objects, s.rows);
    BoundaryByMainKey(t.objects, t.rows);
    forall j | j in t.rows && t.rows[j].storageKey in t.objects
      ensures t.rows[j].storageKey.hidden <==> t.rows[j].visibility.Private?
    {
      var main := s.rows[j].storageKey;
      assert main in KeysOf(s.rows[j]);
      if !Repointed(s, t, j, visibility, log, from) {
        assert Untouched(s, t, j) || Flipped(s, t, j, visibility);
        assert Kept(s.objects, t.objects, main);
      }
    }
  }

  /** The poster's turn after the parent's; it never changes the parent's outcome. */
  method TurnPosterToo(storage: ObjectStore, table: RowTable, uuids: Uuids, id: Id, poster: Option<Id>, owner: string,
                       visibility: Visibility, ghost s: Snapshot, ghost from: nat)
    requires storage.Valid() && uuids.Valid() && table.Valid() && SoundSnap(s) && SoundSnap(Snap(storage, table, uuids))
    requires s.issued <= uuids.issued && from <= |storage.deletes| && id in s.rows && s.rows[id].poster == poster
    requires Turned(s, Snap(storage, table, uuids), id, visibility, storage.deletes, from)
    requires OthersKept(s, Snap(storage, table, uuids), id)
    requires NoLeftovers(s, Snap(storage, table, uuids), id, storage.deletes, from)
    modifies storage, table, uuids
    ensures storage.Valid() && uuids.Valid() && table.Valid() && SoundSnap(Snap(storage, table, uuids))
    ensures table.nextId == old(table.nextId)
    ensures old(uuids.issued) <= uuids.issued && old(storage.deletes) <= storage.deletes
    ensures storage.faults >= old(storage.faults) && old(table.faults) <= table.faults
    ensures PatchMade(s, Snap(storage, table, uuids), id, visibility, storage.deletes, from)
    ensures id in old(table.rows) && id in table.rows && table.rows[id] == old(table.rows)[id]
    ensures storage.faults == old(storage.faults) && table.faults == old(table.faults) ==>
              PosterFollows(s, Snap(storage, table, uuids), poster, owner, visibility, storage.deletes, from)
  {
    ghost var m, log := Snap(storage, table, uuids), storage.deletes;
    if poster.Some? {
      CascadeVisibilityToPoster(storage, table, uuids, poster.value, owner, visibility);
    }
    ghost var t := Snap(storage, table, uuids);
    if poster.Some? && poster.value in s.rows {
      BothTurned(s, m, t, id, visibility, log, storage.deletes, from);
    } else {
      assert t == m;
      OneTurned(s, m, id, visibility, log, storage.deletes, from);
    }
  }

  /** The row, once loaded, and then its poster. */
  method TurnWithPoster(storage: ObjectStore, table: RowTable, uuids: Uuids, id: Id, owner: string, row: Row,
                        visibility: Visibility)
    returns (r: PatchResult)
    requires storage.Valid() && uuids.Valid() && table.Valid() && SoundSnap(Snap(storage, table, uuids))
    requires id in table.rows && table.rows[id] == row && row.owner == owner
    modifies storage, table, uuids
    ensures storage.Valid() && uuids.Valid() && table.Valid() && SoundSnap(Snap(storage, table, uuids))
    ensures table.nextId == old(table.nextId)
    ensures old(uuids.issued) <= uuids.issued && old(storage.deletes) <= storage.deletes
    ensures storage.faults >= old(storage.faults) && old(table.faults) <= table.faults
    ensures r.Patched? ==>
              && id in table.rows && r.row == table.rows[id]
              && PatchMade(old(Snap(storage, table, uuids)), Snap(storage, table, uuids), id, visibility,
                           storage.deletes, |old(storage.deletes)|)
    ensures storage.faults == old(storage.faults) && table.faults == old(table.faults) ==>
              && r.Patched?
              && PosterFollows(old(Snap(storage, table, uuids)), Snap(storage, table, uuids), row.poster, owner,
                               visibility, storage.deletes, |old(storage.deletes)|)
    ensures !r.Patched? ==>
              PatchRefused(old(Snap(storage, table, uuids)), Snap(storage, table, uuids), storage.deletes,
                           |old(storage.deletes)|)
  {
    ghost var s := Snap(storage, table, uuids);
    ghost var from := |storage.deletes|;
    r := TurnRow(storage, table, uuids, id, owner, row, visibility);
    if r.Patched? {
      TurnPosterToo(storage, table, uuids, id, row.poster, owner, visibility, s, from);
    } else {
      NothingChanged(s, Snap(storage, table, uuids), id, storage.deletes, from);
    }
  }

  /** set_file_visibility, for every fault schedule.  The row ends untouched with all its
      objects (any error response), or turned: re-pointed at present copies, or only
      flipped because nothing had to or could move.  Its poster, if any, ends in one of
      the same ways whatever the response, every other row is untouched, and every fresh
      copy no row adopted is gone unless its own delete raised.  Without a fault the
      answer is 404 for a row the caller does not own, and otherwise 200, and then the
      poster has been turned as well. */
  method SetFileVisibility(storage: ObjectStore, table: RowTable, uuids: Uuids, id: Id, owner: string,
                           visibility: Visibility)
    returns (r: PatchResult)
    requires storage.Valid() && uuids.Valid() && table.Valid() && SoundSnap(Snap(storage, table, uuids))
    modifies storage, table, uuids
    ensures storage.Valid() && uuids.Valid() && table.Valid() && SoundSnap(Snap(storage, table, uuids))
    ensures table.nextId == old(table.nextId)
    ensures old(uuids.issued) <= uuids.issued && old(storage.deletes) <= storage.deletes
    ensures storage.faults >= old(storage.faults) && old(table.faults) <= table.faults
    ensures r.Patched? ==>
              && id in old(table.rows) && old(table.rows)[id].owner == owner
              && id in table.rows && r.row == table.rows[id]
              && PatchMade(old(Snap(storage, table, uuids)), Snap(storage, table, uuids), id, visibility,
                           storage.deletes, |old(storage.deletes)|)
    ensures storage.faults == old(storage.faults) && table.faults == old(table.faults) ==>
              if id in old(table.rows) && old(table.rows)[id].owner == owner then
                && r.Patched?
                && PosterFollows(old(Snap(storage, table, uuids)), Snap(storage, table, uuids),
                                 old(table.rows)[id].poster, owner, visibility, storage.deletes, |old(storage.deletes)|)
              else r.NotFound?
    ensures !r.Patched? ==>
              PatchRefused(old(Snap(storage, table, uuids)), Snap(storage, table, uuids), storage.deletes,
                           |old(storage.deletes)|)
  {
    ghost var s := Snap(storage, table, uuids);
    var loaded := table.Get(id, owner);
    NothingHappened(s, storage.deletes);
    if loaded.Broken? { return BadGateway; }
    if loaded.Absent? { return NotFound; }
    r := TurnWithPoster(storage, table, uuids, id, owner, loaded.row, visibility);
  }
}
