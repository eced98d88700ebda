/** The colon-joined signatures behind upload idempotency. */
module Signatures {
  import opened Records
  import Keys

  // ----- Joining with colons ------------------------------------------------------------

  ghost predicate ColonFree(s: string) {
    ':' !in s
  }

  ghost predicate AllColonFree(fields: seq<string>) {
    forall f :: f in fields ==> ColonFree(f)
  }

  function Join(fields: seq<string>): string
    requires fields != []
  {
    if |fields| == 1 then fields[0] else fields[0] + ":" + Join(fields[1..])
  }

  /** A text is cut in one way at its first colon. */
  lemma CutInjective(a: string, s: string, b: string, t: string)
    requires ColonFree(a) && ColonFree(b) && a + ":" + s == b + ":" + t
    ensures a == b && s == t
  {
    var w := a + ":" + s;
    assert w == a + [':'] + s == b + [':'] + t;
    Keys.FirstIndexAt(a, ':', s);
    Keys.FirstIndexAt(b, ':', t);
    assert w[..|a|] == a && w[..|b|] == b;
    assert w[|a| + 1..] == s && w[|b| + 1..] == t;
  }

  /** Joined fields contain a colon as soon as there are two. */
  lemma {:induction false} JoinedHasColon(x: seq<string>)
    requires |x| > 1
    ensures !ColonFree(Join(x))
  {
    assert Join(x)[|x[0]|] == ':';
  }

  /** Joined fields without colons can be told apart, and so can their number. */
  lemma {:induction false} JoinInjective(x: seq<string>, y: seq<string>)
    requires x != [] && y != [] && AllColonFree(x) && AllColonFree(y) && Join(x) == Join(y)
    ensures x == y
  {
    if |x| > 1 { JoinedHasColon(x); }
    if |y| > 1 { JoinedHasColon(y); }
    if |x| > 1 && |y| > 1 {
      CutInjective(x[0], Join(x[1..]), y[0], Join(y[1..]));
      JoinInjective(x[1..], y[1..]);
      assert x == [x[0]] + x[1..] && y == [y[0]] + y[1..];
    } else {
      assert x[0] in x && y[0] in y;
      assert |x| == 1 && |y| == 1;
    }
  }

  // ----- Upload requests ------------------------------------------------------------------

  /** What an upload's idempotency depends on.  Times are given as the service prints
      them; an absent time prints as "None". */
  datatype Request =
    | ImageRequest(bytes: Bytes, optimization: string, visibility: Visibility, thumbnail: bool)
    | FileRequest(bytes: Bytes, visibility: Visibility)
    | VideoRequest(bytes: Bytes, format: string, optimization: string,
                   start: Option<string>, end: Option<string>, poster: Option<string>)

  /** "v" and IMAGE_PIPELINE_VERSION. */
  const PIPELINE := "v4"

  ghost predicate ProperTime(t: Option<string>) {
    t.Some? ==> ColonFree(t.value) && t.value != "None"
  }

  ghost predicate Proper(r: Request) {
    match r
    case ImageRequest(_, optimization, _, _) => ColonFree(optimization)
    case FileRequest(_, _) => true
    case VideoRequest(_, format, optimization, start, end, poster) =>
      ColonFree(format) && ColonFree(optimization) && ProperTime(start) && ProperTime(end) && ProperTime(poster)
  }

  ghost function KindOf(r: Request): Kind {
    match r
    case ImageRequest(_, _, _, _) => Image
    case FileRequest(_, _) => File
    case VideoRequest(_, _, _, _, _, _) => Video
  }

  function VisibilityText(v: Visibility): string {
    if v.Private? then "private" else "public"
  }

  function TimeText(t: Option<string>): string {
    if t.Some? then t.value else "None"
  }

  function Fields(hash: Bytes -> string, pipeline: string, r: Request): seq<string> {
    match r
    case ImageRequest(bytes, optimization, visibility, thumbnail) =>
      [hash(bytes), optimization, VisibilityText(visibility), if thumbnail then "True" else "False", pipeline]
    case FileRequest(bytes, visibility) => [hash(bytes), VisibilityText(visibility)]
    case VideoRequest(bytes, format, optimization, start, end, poster) =>
      [hash(bytes), format, optimization, TimeText(start), TimeText(end), TimeText(poster)]
  }

  function Signature(hash: Bytes -> string, pipeline: string, r: Request): string {
    Join(Fields(hash, pipeline, r))
  }

  /** SHA-256 as used here: injective on bytes, printed without colons. */
  ghost predicate GoodHash(hash: Bytes -> string) {
    && (forall x, y :: hash(x) == hash(y) ==> x == y)
    && (forall x :: ColonFree(hash(x)))
  }

  ghost predicate GoodDigest(digest: string -> string) {
    forall x, y :: digest(x) == digest(y) ==> x == y
  }

  function ContentHash(hash: Bytes -> string, digest: string -> string, r: Request): string {
    digest(Signature(hash, PIPELINE, r))
  }

  lemma FieldsAreColonFree(hash: Bytes -> string, pipeline: string, r: Request)
    requires GoodHash(hash) && Proper(r) && ColonFree(pipeline)
    ensures AllColonFree(Fields(hash, pipeline, r))
  {
    assert ColonFree("private") && ColonFree("public") && ColonFree("True") && ColonFree("False") && ColonFree("None");
  }

  lemma FieldsInjective(hash: Bytes -> string, p: string, a: Request, q: string, b: Request)
    requires GoodHash(hash) && Proper(a) && Proper(b) && Fields(hash, p, a) == Fields(hash, q, b)
    ensures a == b && (a.ImageRequest? ==> p == q)
  {
    var f, g := Fields(hash, p, a), Fields(hash, q, b);
    assert |f| == |g| && f[0] == g[0] && f[1] == g[1];
    assert VisibilityText(Private) != VisibilityText(Public);
    match a
    case FileRequest(_, _) =>
    case ImageRequest(_, _, _, _) => assert f[2] == g[2] && f[3] == g[3] && f[4] == g[4]; assert "True" != "False";
    case VideoRequest(_, _, _, _, _, _) => assert f[2] == g[2] && f[3] == g[3] && f[4] == g[4] && f[5] == g[5];
  }

  /** Equal signatures mean equal requests, and for images the same version of the pipeline:
      an image processed by another version is never taken for this one. */
  lemma SignatureInjective(hash: Bytes -> string, digest: string -> string, p: string, a: Request, q: string,
                           b: Request)
    requires GoodHash(hash) && GoodDigest(digest) && Proper(a) && Proper(b) && ColonFree(p) && ColonFree(q)
    requires digest(Signature(hash, p, a)) == digest(Signature(hash, q, b))
    ensures a == b && (a.ImageRequest? ==> p == q)
  {
    FieldsAreColonFree(hash, p, a);
    FieldsAreColonFree(hash, q, b);
    JoinInjective(Fields(hash, p, a), Fields(hash, q, b));
    FieldsInjective(hash, p, a, q, b);
  }

  /** Equal content hashes mean equal bytes and equal options, and never cross kinds: a
      lookup by hash alone is as good as one by kind and hash. */
  lemma ContentHashInjective(hash: Bytes -> string, digest: string -> string, a: Request, b: Request)
    requires GoodHash(hash) && GoodDigest(digest) && Proper(a) && Proper(b)
    requires ContentHash(hash, digest, a) == ContentHash(hash, digest, b)
    ensures a == b && KindOf(a) == KindOf(b)
  {
    assert ColonFree(PIPELINE);
    SignatureInjective(hash, digest, PIPELINE, a, PIPELINE, b);
  }
}
