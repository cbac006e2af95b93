/**
 * The document store the services share (Cloud Firestore, reached through
 * the Admin SDK), modelled in memory: documents keyed by their full path
 * (`organizaciones/{org}/doctores/{uid}` is the path
 * ["organizaciones", org, "doctores", uid]), the order in which the store
 * enumerates them, and the two ways the store can refuse work that the
 * services react to: a write it rejects, and a collection-group query for
 * which no index exists.
 */
module Store {
  import opened Text
  import opened Json

  /** The `code` property of a thrown error: absent, a string such as
      "auth/email-already-exists" or "not-found", or the numeric gRPC status
      that store errors carry. */
  datatype Code = NoCode | StrCode(s: string) | NumCode(n: int)

  /** A thrown `Error`: its `code` and its `message`. */
  datatype Err = Err(code: Code, message: string)

  datatype Result<T> = Ok(value: T) | Fail(err: Err)

  type Path = seq<string>

  const INVALID_PATH := "Value for argument \"documentPath\" is not a valid resource path."
  const INVALID_VALUE := "Cannot use \"undefined\" as a Firestore value."
  const INVALID_QUERY := "Function Query.where() called with invalid data. Unsupported field value: undefined"
  const PERMISSION_DENIED := "7 PERMISSION_DENIED: Missing or insufficient permissions."
  const NO_DOCUMENT := "5 NOT_FOUND: No document to update."
  const NEEDS_INDEX := "9 FAILED_PRECONDITION: The query requires an index."

  /** A document id Firestore accepts: non-empty, no '/'. */
  predicate ValidSegment(s: string) {
    s != "" && '/' !in s
  }

  predicate ValidSegments(p: Path) {
    forall i :: 0 <= i < |p| ==> ValidSegment(p[i])
  }

  /** The path of a document: collection, id, collection, id, ... */
  predicate ValidDocPath(p: Path) {
    |p| >= 2 && |p| % 2 == 0 && ValidSegments(p)
  }

  /** The segments `db.collection(a).doc(b)...` is built from, as the
      services pass them: each must be a string Firestore accepts as an id,
      or building the reference throws. */
  function Ref(segs: seq<Value>): (r: Result<Path>)
    ensures r.Ok? <==> forall i :: 0 <= i < |segs| ==> segs[i].Str? && ValidSegment(segs[i].s)
    ensures r.Ok? ==> |r.value| == |segs| && forall i :: 0 <= i < |segs| ==> r.value[i] == segs[i].s
    ensures r.Fail? ==> r.err == Err(NoCode, INVALID_PATH)
  {
    if segs == [] then Ok([])
    else if !(segs[0].Str? && ValidSegment(segs[0].s)) then Fail(Err(NoCode, INVALID_PATH))
    else
      match Ref(segs[1..])
      case Ok(rest) => Ok([segs[0].s] + rest)
      case Fail(e) => Fail(e)
  }

  /** A document as a query returns it: where it lives and what it holds. */
  datatype Snap = Snap(path: Path, data: Doc) {
    /** `snap.id`: the last segment of the path. */
    function Id(): string {
      if path == [] then "" else path[|path| - 1]
    }
  }

  predicate InCollection(p: Path, coll: Path) {
    |p| == |coll| + 1 && p[..|coll|] == coll
  }

  /** A document whose parent collection is called `name`, at any depth:
      what a collection-group query ranges over. */
  predicate InGroup(p: Path, name: string) {
    |p| >= 2 && p[|p| - 2] == name
  }

  predicate Distinct<T(==)>(s: seq<T>) {
    forall i, j :: 0 <= i < j < |s| ==> s[i] != s[j]
  }

  /** What a query ranges over: the children of one collection, or every
      collection called `name` at any depth. */
  datatype Scope = Children(coll: Path) | Family(name: string)

  predicate InScope(p: Path, sc: Scope) {
    match sc
    case Children(coll) => InCollection(p, coll)
    case Family(name) => InGroup(p, name)
  }

  /** The documents of `order` within `sc`, in enumeration order. */
  function Select(order: seq<Path>, docs: map<Path, Doc>, sc: Scope): (r: seq<Snap>)
    ensures |r| <= |order|
    ensures forall i :: 0 <= i < |r| ==> r[i].path in docs && r[i].data == docs[r[i].path] && InScope(r[i].path, sc)
    ensures forall p :: p in order && p in docs && InScope(p, sc) ==> Snap(p, docs[p]) in r
    ensures forall x :: x in r ==> x.path in order
  {
    if order == [] then []
    else
      var rest := Select(order[1..], docs, sc);
      if order[0] in docs && InScope(order[0], sc) then [Snap(order[0], docs[order[0]])] + rest else rest
  }

  /** A write outside a query's scope, to a document old or new, does not
      change what the query returns. */
  lemma {:induction false} SelectIgnores(order: seq<Path>, docs: map<Path, Doc>, sc: Scope, p: Path, d: Doc)
    requires !InScope(p, sc)
    ensures Select(order, docs[p := d], sc) == Select(order, docs, sc)
    ensures Select(order + [p], docs, sc) == Select(order, docs, sc)
  {
    if order != [] {
      SelectIgnores(order[1..], docs, sc, p, d);
      assert (order + [p])[1..] == order[1..] + [p];
    }
  }

  /** The documents of one collection, in enumeration order. */
  function CollectionOf(order: seq<Path>, docs: map<Path, Doc>, coll: Path): seq<Snap> {
    Select(order, docs, Children(coll))
  }

  /** The ids of a collection's documents, in enumeration order. */
  function Ids(s: seq<Snap>): (r: seq<string>)
    ensures |r| == |s| && forall i :: 0 <= i < |s| ==> r[i] == s[i].Id()
  {
    seq(|s|, i requires 0 <= i < |s| => s[i].Id())
  }

  /** Firestore `where(field, "==", v)`. */
  function Where(s: seq<Snap>, field: string, v: Value): (r: seq<Snap>)
    ensures forall x :: x in r <==> x in s && At(x.data, field) == v
    ensures |r| <= |s|
  {
    if s == [] then []
    else
      var rest := Where(s[1..], field, v);
      if At(s[0].data, field) == v then [s[0]] + rest else rest
  }

  /** The first match is the earliest element of `s` holding `v` in `field`. */
  lemma {:induction false} WhereHead(s: seq<Snap>, field: string, v: Value)
    requires Where(s, field, v) != []
    ensures exists i :: 0 <= i < |s| && Where(s, field, v)[0] == s[i] && At(s[i].data, field) == v
                        && (forall j :: 0 <= j < i ==> At(s[j].data, field) != v)
  {
    var t := s[1..];
    if At(s[0].data, field) != v {
      assert Where(s, field, v) == Where(t, field, v);
      WhereHead(t, field, v);
      var i :| 0 <= i < |t| && Where(t, field, v)[0] == t[i] && At(t[i].data, field) == v
        && (forall j :: 0 <= j < i ==> At(t[j].data, field) != v);
      forall j | 0 <= j < i + 1
        ensures At(s[j].data, field) != v
      {
        if j > 0 {
          assert s[j] == t[j - 1];
        }
      }
      assert s[i + 1] == t[i];
    } else {
      assert Where(s, field, v)[0] == s[0];
    }
  }

  /** Firestore's order of value types: null, booleans, numbers,
      timestamps, strings, arrays, maps. `undefined` is never stored; it
      ranks first only so that the rank is total. */
  function TypeRank(v: Value): nat {
    match v
    case Undefined => 0
    case Null => 1
    case Bool(_) => 2
    case Num(_) => 3
    case Time(_) => 4
    case Str(_) => 5
    case Arr(_) => 6
    case Obj(_) => 7
  }

  /** The order `orderBy` sorts field values by: type rank first, then
      false before true, numbers and timestamps by size, strings in
      code-point order; two arrays or two maps (and two nulls) tie. */
  predicate ValueLeq(a: Value, b: Value) {
    if TypeRank(a) != TypeRank(b) then TypeRank(a) < TypeRank(b)
    else
      match (a, b)
      case (Bool(x), Bool(y)) => !x || y
      case (Num(x), Num(y)) => x <= y
      case (Time(x), Time(y)) => x <= y
      case (Str(x), Str(y)) => Leq(x, y)
      case _ => true
  }

  lemma ValueLeqTotal(a: Value, b: Value)
    ensures ValueLeq(a, b) || ValueLeq(b, a)
  {
    if a.Str? && b.Str? {
      LeqTotal(a.s, b.s);
    }
  }

  lemma ValueLeqTransitive(a: Value, b: Value, c: Value)
    requires ValueLeq(a, b) && ValueLeq(b, c)
    ensures ValueLeq(a, c)
  {
    if a.Str? && b.Str? && c.Str? {
      LeqTransitive(a.s, b.s, c.s);
    }
  }

  /** Two timestamps compare by their instants, and any timestamp sorts
      after every null, boolean and number and before every string. */
  lemma TimesByInstant(t: int, u: int, v: Value)
    ensures ValueLeq(Time(t), Time(u)) <==> t <= u
    ensures v.Null? || v.Bool? || v.Num? ==> ValueLeq(v, Time(t)) && !ValueLeq(Time(t), v)
    ensures v.Str? ==> ValueLeq(Time(t), v) && !ValueLeq(v, Time(t))
  {
  }

  /** The document holds `field` at all, whatever the value's type. */
  predicate HasField(x: Snap, field: string) {
    At(x.data, field) != Undefined
  }

  /** The sort key of `orderBy(field)`. */
  function Key(x: Snap, field: string): Value {
    At(x.data, field)
  }

  predicate AllHaveField(s: seq<Snap>, field: string) {
    forall i :: 0 <= i < |s| ==> HasField(s[i], field)
  }

  /** Largest key first. */
  predicate SortedDesc(s: seq<Snap>, field: string) {
    forall i, j :: 0 <= i < j < |s| ==> ValueLeq(Key(s[j], field), Key(s[i], field))
  }

  /** The documents that hold `field`; Firestore's `orderBy` leaves out
      exactly the others. */
  function WithField(s: seq<Snap>, field: string): (r: seq<Snap>)
    ensures AllHaveField(r, field)
    ensures forall x :: x in r <==> x in s && HasField(x, field)
  {
    if s == [] then []
    else
      var rest := WithField(s[1..], field);
      if HasField(s[0], field) then [s[0]] + rest else rest
  }

  /** A head no smaller than every element of a sorted tail keeps the
      sequence sorted. */
  lemma SortedCons(h: Snap, t: seq<Snap>, field: string)
    requires SortedDesc(t, field)
    requires forall k :: 0 <= k < |t| ==> ValueLeq(Key(t[k], field), Key(h, field))
    ensures SortedDesc([h] + t, field)
  {
    var s := [h] + t;
    forall i, j | 0 <= i < j < |s|
      ensures ValueLeq(Key(s[j], field), Key(s[i], field))
    {
      assert s[j] == t[j - 1];
      if i > 0 {
        assert s[i] == t[i - 1];
      }
    }
  }

  /** The head of a sorted sequence is no smaller than anything in its tail
      or than a smaller `x`. */
  lemma HeadBounds(s: seq<Snap>, x: Snap, rest: seq<Snap>, field: string)
    requires SortedDesc(s, field) && s != [] && ValueLeq(Key(x, field), Key(s[0], field))
    requires multiset(rest) == multiset(s[1..]) + multiset{x}
    ensures forall k :: 0 <= k < |rest| ==> ValueLeq(Key(rest[k], field), Key(s[0], field))
  {
    forall k | 0 <= k < |rest|
      ensures ValueLeq(Key(rest[k], field), Key(s[0], field))
    {
      assert rest[k] in multiset(rest);
      if rest[k] != x {
        assert rest[k] in multiset(s[1..]);
        var j :| 0 <= j < |s[1..]| && s[1..][j] == rest[k];
        assert s[j + 1] == rest[k];
      }
    }
  }

  /** A snapshot at least as large as the head of a sorted list may lead it. */
  lemma TopCons(x: Snap, s: seq<Snap>, field: string)
    requires SortedDesc(s, field) && (s == [] || ValueLeq(Key(s[0], field), Key(x, field)))
    ensures SortedDesc([x] + s, field)
  {
    forall k | 0 <= k < |s|
      ensures ValueLeq(Key(s[k], field), Key(x, field))
    {
      if k > 0 {
        ValueLeqTransitive(Key(s[k], field), Key(s[0], field), Key(x, field));
      }
    }
    SortedCons(x, s, field);
  }

  function InsertDesc(x: Snap, s: seq<Snap>, field: string): (r: seq<Snap>)
    requires SortedDesc(s, field)
    ensures SortedDesc(r, field)
    ensures multiset(r) == multiset(s) + multiset{x}
  {
    if s == [] || ValueLeq(Key(s[0], field), Key(x, field)) then
      TopCons(x, s, field);
      [x] + s
    else
      var rest := InsertDesc(x, s[1..], field);
      assert s == [s[0]] + s[1..];
      ValueLeqTotal(Key(s[0], field), Key(x, field));
      HeadBounds(s, x, rest, field);
      SortedCons(s[0], rest, field);
      [s[0]] + rest
  }

  function SortDesc(s: seq<Snap>, field: string): (r: seq<Snap>)
    ensures SortedDesc(r, field)
    ensures multiset(r) == multiset(s)
  {
    if s == [] then []
    else
      assert s == [s[0]] + s[1..];
      InsertDesc(s[0], SortDesc(s[1..], field), field)
  }

  /** Firestore `orderBy(field, "desc")`: every document that holds the
      field, largest value first in `ValueLeq`. */
  function OrderByDesc(s: seq<Snap>, field: string): (r: seq<Snap>)
    ensures AllHaveField(r, field) && SortedDesc(r, field)
    ensures multiset(r) == multiset(WithField(s, field))
    ensures forall x :: x in r <==> x in s && HasField(x, field)
  {
    var w := WithField(s, field);
    var r := SortDesc(w, field);
    assert forall x :: x in r <==> x in multiset(r);
    assert forall x :: x in w <==> x in multiset(w);
    assert AllHaveField(r, field) by {
      forall i | 0 <= i < |r| ensures HasField(r[i], field) {
        assert r[i] in multiset(w);
      }
    }
    r
  }

  /** The first document of the ordering is among the documents, and no
      document holds a larger value in the field. */
  lemma FirstIsNewest(s: seq<Snap>, field: string)
    requires OrderByDesc(s, field) != []
    ensures var first := OrderByDesc(s, field)[0];
      && first in s && HasField(first, field)
      && forall j :: 0 <= j < |s| && HasField(s[j], field) ==> ValueLeq(Key(s[j], field), Key(first, field))
  {
    var listed := OrderByDesc(s, field);
    assert listed[0] in listed;
    forall j | 0 <= j < |s| && HasField(s[j], field)
      ensures ValueLeq(Key(s[j], field), Key(listed[0], field))
    {
      assert s[j] in listed;
      var k :| 0 <= k < |listed| && listed[k] == s[j];
      if k > 0 {
        assert ValueLeq(Key(listed[k], field), Key(listed[0], field));
      } else {
        ValueLeqTotal(Key(s[j], field), Key(s[j], field));
      }
    }
  }

  /** `snap.docs.map(d => ({ id: d.id, ...d.data() }))`. */
  function Rows(s: seq<Snap>): (r: seq<Doc>)
    ensures |r| == |s| && forall i :: 0 <= i < |s| ==> r[i] == WithId(s[i].Id(), s[i].data)
  {
    seq(|s|, i requires 0 <= i < |s| => WithId(s[i].Id(), s[i].data))
  }

  function Without(order: seq<Path>, p: Path): (r: seq<Path>)
    ensures forall q :: q in r <==> q in order && q != p
    ensures Distinct(order) ==> Distinct(r)
  {
    if order == [] then []
    else
      var rest := Without(order[1..], p);
      if order[0] == p then rest
      else
        assert Distinct(order) ==> order[0] !in order[1..];
        [order[0]] + rest
  }

  /** The enumeration order after a write at `p`: a new document goes last. */
  function Grow(order: seq<Path>, p: Path): (r: seq<Path>)
    ensures forall q :: q in r <==> q in order || q == p
    ensures Distinct(order) ==> Distinct(r)
  {
    if p in order then order else order + [p]
  }

  /** `after` keeps every path of `before` in place and only adds paths
      after them. */
  predicate Appended(before: seq<Path>, after: seq<Path>) {
    |before| <= |after| && after[..|before|] == before
  }

  /** The enumeration order after a write at `p` that may have been
      refused, told by the documents `docs` stored afterwards. */
  function Track(order: seq<Path>, docs: map<Path, Doc>, p: Path): seq<Path> {
    if p in docs then Grow(order, p) else order
  }

  /** The enumeration order after writes at `ps`, in that order, any of
      which may have been refused, told by the documents `docs` stored
      afterwards: every path of `order` keeps its place, and each path of
      `ps` that is then stored and was not enumerated before goes last. */
  function Tracked(order: seq<Path>, docs: map<Path, Doc>, ps: seq<Path>): (r: seq<Path>)
    ensures Appended(order, r)
    decreases |ps|
  {
    if ps == [] then order else Tracked(Track(order, docs, ps[0]), docs, ps[1..])
  }

  /** The tracked order enumerates exactly the old paths and the written
      paths that are stored, each once. */
  lemma {:induction false} TrackedMembers(order: seq<Path>, docs: map<Path, Doc>, ps: seq<Path>)
    ensures forall q :: q in Tracked(order, docs, ps) <==> q in order || (q in ps && q in docs)
    ensures Distinct(order) ==> Distinct(Tracked(order, docs, ps))
    decreases |ps|
  {
    if ps != [] {
      TrackedMembers(Track(order, docs, ps[0]), docs, ps[1..]);
      assert forall q :: q in ps <==> q == ps[0] || q in ps[1..];
    }
  }

  /** One more write, tracked after the others. */
  lemma {:induction false} TrackedSnoc(order: seq<Path>, docs: map<Path, Doc>, ps: seq<Path>, p: Path)
    ensures Tracked(order, docs, ps + [p]) == Track(Tracked(order, docs, ps), docs, p)
    decreases |ps|
  {
    if ps == [] {
      assert [] + [p] == [p];
    } else {
      assert (ps + [p])[0] == ps[0] && (ps + [p])[1..] == ps[1..] + [p];
      TrackedSnoc(Track(order, docs, ps[0]), docs, ps[1..], p);
    }
  }

  /** Only whether each written path is stored matters. */
  lemma {:induction false} TrackedSame(order: seq<Path>, d1: map<Path, Doc>, d2: map<Path, Doc>, ps: seq<Path>)
    requires forall q :: q in ps ==> (q in d1 <==> q in d2)
    ensures Tracked(order, d1, ps) == Tracked(order, d2, ps)
    decreases |ps|
  {
    if ps != [] {
      assert ps[0] in ps;
      assert forall q :: q in ps[1..] ==> q in ps;
      TrackedSame(Track(order, d1, ps[0]), d1, d2, ps[1..]);
    }
  }

  /** A write at `p` after writes at `ps` whose stored paths it left
      alone. */
  lemma TrackedThen(order: seq<Path>, d1: map<Path, Doc>, d2: map<Path, Doc>, ps: seq<Path>, p: Path)
    requires forall q :: q in ps ==> (q in d1 <==> q in d2)
    ensures Track(Tracked(order, d1, ps), d2, p) == Tracked(order, d2, ps + [p])
  {
    TrackedSame(order, d1, d2, ps);
    TrackedSnoc(order, d2, ps, p);
  }

  /** A grown order is the order tracked over a write that stored `p`. */
  lemma TrackedGrown(order: seq<Path>, docs: map<Path, Doc>, p: Path, ps: seq<Path>)
    requires p in docs
    ensures Tracked(Grow(order, p), docs, ps) == Tracked(order, docs, [p] + ps)
  {
    assert ([p] + ps)[0] == p && ([p] + ps)[1..] == ps;
  }

  /** Writes that changed nothing leave a store's order as it was. */
  lemma {:induction false} TrackedIdle(order: seq<Path>, docs: map<Path, Doc>, ps: seq<Path>)
    requires forall q :: q in docs ==> q in order
    ensures Tracked(order, docs, ps) == order
    decreases |ps|
  {
    if ps != [] {
      TrackedIdle(order, docs, ps[1..]);
    }
  }

  /** The document stored at `p`, if any. */
  function Entry(docs: map<Path, Doc>, p: Path): Option<Doc> {
    if p in docs then Some(docs[p]) else None
  }

  /** No document outside `touched` was created, removed or changed. */
  ghost predicate Untouched(before: map<Path, Doc>, after: map<Path, Doc>, touched: set<Path>) {
    forall q :: q !in touched ==> Entry(after, q) == Entry(before, q)
  }

  /** Replacing one document touches that document only. */
  lemma UpdateTouchesOne(before: map<Path, Doc>, p: Path, d: Doc)
    ensures Untouched(before, before[p := d], {p})
  {
    forall q | q !in {p}
      ensures Entry(before[p := d], q) == Entry(before, q)
    {
    }
  }

  /** What a write of `d` to `p` runs into before it lands. */
  function WriteCheck(faults: set<Path>, p: Path, d: Doc): (r: Result<()>)
    ensures r.Ok? <==> StorableDoc(d) && p !in faults
    ensures !StorableDoc(d) ==> r == Fail(Err(NoCode, INVALID_VALUE))
    ensures StorableDoc(d) && p in faults ==> r == Fail(Err(NumCode(7), PERMISSION_DENIED))
  {
    if !StorableDoc(d) then Fail(Err(NoCode, INVALID_VALUE))
    else if p in faults then Fail(Err(NumCode(7), PERMISSION_DENIED))
    else Ok(())
  }

  class Db {
    /** Every document, by path. */
    var docs: map<Path, Doc>
    /** The order in which the store enumerates documents; a new document
        goes last. */
    var order: seq<Path>
    /** Paths at which the store rejects every write. */
    const faults: set<Path>
    /** Collection names for which a collection-group query finds no index
        and throws. */
    const groupIndexMissing: set<string>

    ghost predicate Valid()
      reads this
    {
      && (forall p :: p in docs ==> ValidDocPath(p) && p in order)
      && (forall i :: 0 <= i < |order| ==> order[i] in docs)
      && Distinct(order)
    }

    constructor (faults: set<Path>, groupIndexMissing: set<string>)
      ensures Valid()
      ensures docs == map[] && order == []
      ensures this.faults == faults && this.groupIndexMissing == groupIndexMissing
    {
      docs := map[];
      order := [];
      this.faults := faults;
      this.groupIndexMissing := groupIndexMissing;
    }

    /** `ref.get()`: the document, if it exists. */
    function Get(p: Path): (r: Option<Doc>)
      reads this
      ensures r.Some? <==> p in docs
      ensures r.Some? ==> r.value == docs[p]
    {
      if p in docs then Some(docs[p]) else None
    }

    /** `db.collection(...).get()`. */
    function Collection(coll: Path): seq<Snap>
      reads this
    {
      CollectionOf(order, docs, coll)
    }

    /** `db.collectionGroup(name).get()`. */
    function Group(name: string): (r: Result<seq<Snap>>)
      reads this
      ensures name in groupIndexMissing <==> r.Fail?
      ensures r.Fail? ==> r.err == Err(NumCode(9), NEEDS_INDEX)
    {
      if name in groupIndexMissing then Fail(Err(NumCode(9), NEEDS_INDEX))
      else Ok(Select(order, docs, Family(name)))
    }

    /** `ref.set(d)`: the document becomes `d`. */
    method Set(p: Path, d: Doc) returns (r: Result<()>)
      requires Valid() && ValidDocPath(p)
      modifies this
      ensures Valid()
      ensures r == WriteCheck(faults, p, d)
      ensures r.Ok? ==> docs == old(docs)[p := d]
      ensures r.Ok? ==> order == Grow(old(order), p)
      ensures r.Fail? ==> docs == old(docs) && order == old(order)
    {
      r := WriteCheck(faults, p, d);
      if r.Ok? {
        if p !in docs {
          order := order + [p];
        }
        docs := docs[p := d];
      }
    }

    /** `ref.set(d, { merge: true })`: `d` is merged into the document,
        which is created if missing. */
    method Merge(p: Path, d: Doc) returns (r: Result<()>)
      requires Valid() && ValidDocPath(p)
      modifies this
      ensures Valid()
      ensures r == WriteCheck(faults, p, d)
      ensures r.Ok? ==> docs == old(docs)[p := MergeDeep(if p in old(docs) then old(docs)[p] else map[], d)]
      ensures r.Ok? ==> order == Grow(old(order), p)
      ensures r.Fail? ==> docs == old(docs) && order == old(order)
    {
      r := WriteCheck(faults, p, d);
      if r.Ok? {
        var base := if p in docs then docs[p] else map[];
        if p !in docs {
          order := order + [p];
        }
        docs := docs[p := MergeDeep(base, d)];
      }
    }

    /** `ref.update(d)`: the named top-level fields are replaced; a missing
        document makes the call fail. */
    method Update(p: Path, d: Doc) returns (r: Result<()>)
      requires Valid() && ValidDocPath(p)
      modifies this
      ensures Valid()
      ensures r.Ok? <==> WriteCheck(faults, p, d).Ok? && p in old(docs)
      ensures WriteCheck(faults, p, d).Fail? ==> r == WriteCheck(faults, p, d)
      ensures WriteCheck(faults, p, d).Ok? && p !in old(docs) ==> r == Fail(Err(NumCode(5), NO_DOCUMENT))
      ensures r.Ok? ==> docs == old(docs)[p := old(docs)[p] + d]
      ensures r.Fail? ==> docs == old(docs)
      ensures order == old(order)
    {
      r := WriteCheck(faults, p, d);
      if r.Ok? {
        if p in docs {
          docs := docs[p := docs[p] + d];
        } else {
          r := Fail(Err(NumCode(5), NO_DOCUMENT));
        }
      }
    }

    /** `ref.delete()`: succeeds whether or not the document exists. */
    method Delete(p: Path) returns (r: Result<()>)
      requires Valid() && ValidDocPath(p)
      modifies this
      ensures Valid()
      ensures r.Ok? <==> p !in faults
      ensures r.Fail? ==> r.err == Err(NumCode(7), PERMISSION_DENIED) && docs == old(docs) && order == old(order)
      ensures r.Ok? ==> docs == old(docs) - {p} && order == Without(old(order), p)
    {
      if p in faults {
        r := Fail(Err(NumCode(7), PERMISSION_DENIED));
      } else {
        r := Ok(());
        var before := order;
        docs := docs - {p};
        order := Without(order, p);
        forall i | 0 <= i < |order|
          ensures order[i] in docs
        {
          assert order[i] in before && order[i] != p;
        }
      }
    }
  }
}
