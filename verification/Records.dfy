/** The values the service passes between its two stores: storage keys, object
    bytes and rows of the `uploads` table. */
module Records {

  datatype Option<+T> = None | Some(value: T)

  datatype Visibility = Public | Private
  datatype Kind = Image | Video | File
  datatype Status = Processing | Ready | Failed

  type Id = nat
  type Bytes = seq<bv8>

  /** A storage key, taken apart.  Keys.Text renders it as the string the service
      uses; Keys proves that the string functions of the service agree with this
      view and that the rendering is injective. */
  datatype Key = Key(
    hidden: bool,               // lives under the `private/` root
    base: string,               // asset prefix, e.g. "images" or "raw/videos"
    uuid: string,               // the uuid4 drawn for the object
    compressed: bool,           // the "_compressed" marker of a worker output
    rendition: Option<string>,  // canonical rendition name, for a derived object
    ext: string)

  /** One row of `uploads`.  `renditions` is the jsonb dictionary; a null column and
      an empty dictionary are the same here, as they are for every handler. */
  datatype Row = Row(
    owner: string,
    kind: Kind,
    storageKey: Key,
    renditions: map<string, Key>,
    status: Status,
    visibility: Visibility,
    contentHash: Option<string>,
    poster: Option<Id>,
    callback: bool)

  /** Every storage object a row points at. */
  function KeysOf(row: Row): set<Key> {
    {row.storageKey} + row.renditions.Values
  }

  /** A dictionary that gains one entry. */
  lemma ValuesWithOneMore(m: map<string, Key>, n: string, k: Key)
    requires n !in m
    ensures m[n := k].Values == m.Values + {k}
  {
    forall v | v in m.Values ensures v in m[n := k].Values {
      var x :| x in m && m[x] == v;
      assert m[n := k][x] == v;
    }
    assert m[n := k][n] == k;
  }
}
