/** The data store as the two socket services see it: a collection of records
    in natural order, looked up by `_id`, filtered, and cut into pages by
    `skip`/`limit` the way the database does. */
module Collection {
  import opened Values
  import opened SocketResponse

  predicate HasId(d: Doc, id: Value) {
    "_id" in d && d["_id"] == id
  }

  /** Every record has an `_id`, and no two records share one (the store's
      unique index on `_id`). */
  predicate WellKeyed(docs: seq<Doc>) {
    && (forall i :: 0 <= i < |docs| ==> "_id" in docs[i])
    && (forall i, j :: 0 <= i < j < |docs| ==> docs[i]["_id"] != docs[j]["_id"])
  }

  /** `findById(id)`: the position of the record with that `_id`. */
  function FindById(docs: seq<Doc>, id: Value): (r: Option<nat>)
    ensures r.Some? ==> r.value < |docs| && HasId(docs[r.value], id)
    ensures r.Some? ==> forall j :: 0 <= j < r.value ==> !HasId(docs[j], id)
    ensures r.None? <==> forall j :: 0 <= j < |docs| ==> !HasId(docs[j], id)
  {
    if docs == [] then None
    else if HasId(docs[0], id) then Some(0)
    else
      match FindById(docs[1..], id)
      case None => None
      case Some(k) => Some(k + 1)
  }

  /** The records a query selects, in store order. */
  function Filter(docs: seq<Doc>, keep: Doc -> bool): (r: seq<Doc>)
    ensures |r| <= |docs|
    ensures forall d :: d in r <==> d in docs && keep(d)
    ensures multiset(r) <= multiset(docs)
  {
    if docs == [] then []
    else
      assert docs == [docs[0]] + docs[1..];
      if keep(docs[0]) then [docs[0]] + Filter(docs[1..], keep)
      else Filter(docs[1..], keep)
  }

  /** Selecting from two runs of records selects from each run in turn. */
  lemma {:induction false} FilterConcat(a: seq<Doc>, b: seq<Doc>, keep: Doc -> bool)
    ensures Filter(a + b, keep) == Filter(a, keep) + Filter(b, keep)
  {
    if a == [] {
      assert a + b == b;
    } else {
      assert (a + b)[0] == a[0] && (a + b)[1..] == a[1..] + b;
      FilterConcat(a[1..], b, keep);
      if keep(a[0]) {
        calc {
          Filter(a + b, keep);
          [a[0]] + Filter(a[1..] + b, keep);
          [a[0]] + (Filter(a[1..], keep) + Filter(b, keep));
          ([a[0]] + Filter(a[1..], keep)) + Filter(b, keep);
        }
      }
    }
  }

  /** A single record is selected exactly when `keep` accepts it; with
      `FilterConcat` this fixes `Filter` as the order-keeping selection. */
  lemma FilterSingle(d: Doc, keep: Doc -> bool)
    ensures Filter([d], keep) == if keep(d) then [d] else []
  {
    assert [d][1..] == [];
  }

  function Abs(n: int): nat {
    if n < 0 then -n else n
  }

  /** `.skip(skip).limit(limit)`: a limit of 0 means no limit, and a negative
      limit is taken by its magnitude. */
  function Window(s: seq<Doc>, skip: nat, limit: int): (r: seq<Doc>)
    ensures skip >= |s| ==> r == []
    ensures skip < |s| ==> skip + |r| <= |s| && r == s[skip..skip + |r|]
    ensures limit == 0 && skip < |s| ==> r == s[skip..]
    ensures limit != 0 ==> |r| == (if skip >= |s| then 0 else if |s| - skip < Abs(limit) then |s| - skip else Abs(limit))
  {
    if skip >= |s| then []
    else if limit == 0 || |s| - skip <= Abs(limit) then s[skip..]
    else s[skip..skip + Abs(limit)]
  }

  /** A window holds only records of the sequence it cuts. */
  lemma WindowWithin(s: seq<Doc>, skip: nat, limit: int)
    ensures forall d :: d in Window(s, skip, limit) ==> d in s
  {
    var r := Window(s, skip, limit);
    forall d | d in r ensures d in s {
      var i :| 0 <= i < |r| && r[i] == d;
      assert r[i] == s[skip + i];
    }
  }

  /** The store-side window of a list request: `None` when the store rejects
      the query (a `NaN` page or limit, or a negative skip). */
  datatype QueryWindow = QueryWindow(skip: nat, limit: int)

  /** The list payload after `const { query = "", limit = 10, page = 1 } = payload`
      and `Number.parseInt`. */
  datatype ListArgs = ListArgs(query: Value, page: Option<int>, limit: Option<int>)

  function ListArgsOf(payload: Doc): (a: ListArgs)
    ensures "query" !in payload ==> a.query == Str("")
    ensures "page" !in payload ==> a.page == Some(1)
    ensures "limit" !in payload ==> a.limit == Some(10)
    ensures "query" in payload ==> a.query == payload["query"]
    ensures "page" in payload ==> a.page == ParseInt(payload["page"])
    ensures "limit" in payload ==> a.limit == ParseInt(payload["limit"])
  {
    ListArgs(if "query" in payload then payload["query"] else Str(""),
             if "page" in payload then ParseInt(payload["page"]) else Some(1),
             if "limit" in payload then ParseInt(payload["limit"]) else Some(10))
  }

  /** `skip = (pageNum - 1) * limitNum`, as a window the store accepts. */
  function WindowOf(a: ListArgs): (w: Option<QueryWindow>)
    ensures w.Some? <==> a.page.Some? && a.limit.Some? && (a.page.value - 1) * a.limit.value >= 0
    ensures w.Some? ==> w.value.skip == (a.page.value - 1) * a.limit.value && w.value.limit == a.limit.value
  {
    if a.page.None? || a.limit.None? then None
    else if (a.page.value - 1) * a.limit.value < 0 then None
    else Some(QueryWindow((a.page.value - 1) * a.limit.value, a.limit.value))
  }

  /** With no `page` or `limit` in the payload the first ten records are asked for. */
  lemma DefaultWindow(payload: Doc)
    requires "page" !in payload && "limit" !in payload
    ensures WindowOf(ListArgsOf(payload)) == Some(QueryWindow(0, 10))
  {
  }

  /** `.select("-password")` */
  function StripPassword(d: Doc): (r: Doc)
    ensures "password" !in r
    ensures forall k :: k in d && k != "password" ==> k in r && r[k] == d[k]
    ensures r.Keys <= d.Keys
  {
    d - {"password"}
  }

  // ---------------------------------------------------------------------
  // Update documents
  // ---------------------------------------------------------------------

  /** A top-level key the store reads as an update operator (`$set`, ...). */
  predicate IsOperator(k: string) {
    |k| > 0 && k[0] == '$'
  }

  /** The plain fields of an update document; the store sets each of them. */
  function PlainPart(u: Doc): (r: Doc)
    ensures forall k :: k in r <==> k in u && !IsOperator(k)
    ensures forall k :: k in r ==> r[k] == u[k]
  {
    map k | k in u && !IsOperator(k) :: u[k]
  }

  /** The fields of a `$set` operator. */
  function SetPart(u: Doc): Doc {
    if "$set" in u && u["$set"].Obj? then u["$set"].fields else map[]
  }

  /** The paths of an `$unset` operator. */
  function UnsetPart(u: Doc): set<string> {
    if "$unset" in u && u["$unset"].Obj? then u["$unset"].fields.Keys else {}
  }

  /** Writes `w` and removes `un` from a stored record; `_id` is immutable. */
  function ApplyWrites(d: Doc, w: Doc, un: set<string>): (r: Doc)
    ensures "_id" in r <==> "_id" in d
    ensures "_id" in d ==> r["_id"] == d["_id"]
    ensures forall k :: k != "_id" && k in un ==> k !in r
    ensures forall k :: k != "_id" && k !in un && k in w ==> k in r && r[k] == w[k]
    ensures forall k :: k in d && (k == "_id" || (k !in un && k !in w)) ==> k in r && r[k] == d[k]
    ensures r.Keys <= d.Keys + w.Keys
  {
    (d + (w - {"_id"})) - (un - {"_id"})
  }

  /** `findByIdAndUpdate(id, u)` on the found record: the plain fields and the
      `$set` fields are written, the `$unset` paths removed. */
  function ApplyUpdate(d: Doc, u: Doc): (r: Doc)
    ensures "_id" in r <==> "_id" in d
    ensures "_id" in d ==> r["_id"] == d["_id"]
    ensures forall k :: k != "_id" && k in UnsetPart(u) ==> k !in r
    ensures forall k :: k != "_id" && k !in UnsetPart(u) && k in SetPart(u) ==> k in r && r[k] == SetPart(u)[k]
    ensures forall k :: k != "_id" && k !in UnsetPart(u) && k !in SetPart(u) && k in u && !IsOperator(k) ==>
      k in r && r[k] == u[k]
    ensures forall k :: k in d && k !in UnsetPart(u) && k !in SetPart(u) && (k !in u || IsOperator(k)) ==>
      k in r && r[k] == d[k]
    ensures r.Keys <= d.Keys + PlainPart(u).Keys + SetPart(u).Keys
  {
    ApplyWrites(d, PlainPart(u) + SetPart(u), UnsetPart(u))
  }

  /** What a handler that changes a collection answers, and the collection
      afterwards. */
  datatype Effect = Effect(response: Response, store: seq<Doc>)

  /** A page of a list answer (`ListResponse`). */
  datatype Page = Page(items: seq<Doc>, totalCount: nat, limit: int, page: int)

  /** The `data` of a list envelope: items, count and `paginationData`. */
  function PageValue(p: Page): Value {
    Obj(map[
      "items" := Arr(seq(|p.items|, i requires 0 <= i < |p.items| => Obj(p.items[i]))),
      "totalCount" := Num(p.totalCount),
      "paginationData" := Obj(map[
        "total_records" := Num(p.totalCount),
        "record_limit" := Num(p.limit),
        "current_page" := Num(p.page)])])
  }

  /** All pages of `limit` records from page 1 to page `n`, one after the other. */
  function Pages(s: seq<Doc>, limit: nat, n: nat): seq<Doc>
    requires limit >= 1
  {
    if n == 0 then [] else Pages(s, limit, n - 1) + Window(s, (n - 1) * limit, limit)
  }

  /** The first `k` records, or all of them when there are fewer. */
  function Prefix(s: seq<Doc>, k: nat): seq<Doc> {
    if k <= |s| then s[..k] else s
  }

  /** One more page extends the prefix read so far by `limit` records. */
  lemma PrefixStep(s: seq<Doc>, a: nat, limit: nat)
    requires limit >= 1
    ensures Prefix(s, a) + Window(s, a, limit) == Prefix(s, a + limit)
  {
    if a >= |s| {
    } else if a + limit <= |s| {
      assert s[..a] + s[a..a + limit] == s[..a + limit];
    } else {
      assert s[..a] + s[a..] == s;
    }
  }

  /** Paging through with a fixed positive limit returns every selected record
      once, in order: pages 1..n together are the first `n * limit` records. */
  lemma {:induction false} PagesTile(s: seq<Doc>, limit: nat, n: nat)
    requires limit >= 1
    ensures Pages(s, limit, n) == Prefix(s, n * limit)
  {
    if n > 0 {
      PagesTile(s, limit, n - 1);
      PrefixStep(s, (n - 1) * limit, limit);
      assert (n - 1) * limit + limit == n * limit;
    }
  }
}
