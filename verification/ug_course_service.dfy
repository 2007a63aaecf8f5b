/** `UgCourseService`: the undergraduate course handlers. `list` is a query
    (live `ug` courses, searched, ordered by `order_index`, paged); `create`,
    `update` and `delete` change the course collection, `delete` softly by
    stamping `deleted_at`. */
module UgCourseService {
  import opened Values
  import opened SocketResponse
  import opened Collection
  import Messages

  const CourseIdRequired := "Course ID is required"
  const CourseNotFoundText := "Course not found"

  // ---------------------------------------------------------------------
  // The course schema
  // ---------------------------------------------------------------------

  /** The paths the course schema declares, plus `_id`; anything else in a
      create or update is dropped by the store's strict mode. */
  const SchemaPaths: set<string> := {"_id", "course_name", "graduation_type", "description", "active",
                                     "deleted_at", "currency_code", "currency_symbol", "fees",
                                     "course_img_url", "order_index"}

  /** The schema defaults. */
  const Defaults: Doc := map["active" := Bool(true), "deleted_at" := Null, "currency_code" := Str("INR"),
                             "currency_symbol" := Str("₹"), "course_img_url" := Null]

  /** The required paths in declaration order (`graduation_type` is always set
      by `create`, so it never fails). */
  const RequiredPaths: seq<string> := ["course_name", "description", "fees", "order_index"]

  function Strict(d: Doc): (r: Doc)
    ensures r.Keys == d.Keys * SchemaPaths
    ensures forall k :: k in r ==> r[k] == d[k]
  {
    map k | k in d && k in SchemaPaths :: d[k]
  }

  /** A required path fails when unset or null, and a required string path
      also when empty. */
  predicate MissingPath(d: Doc, p: string) {
    p !in d || d[p].Null? || ((p == "course_name" || p == "description") && d[p] == Str(""))
  }

  function MissingPaths(d: Doc, ps: seq<string>): (r: seq<string>)
    ensures forall p :: p in r <==> p in ps && MissingPath(d, p)
  {
    if ps == [] then []
    else if MissingPath(d, ps[0]) then [ps[0]] + MissingPaths(d, ps[1..])
    else MissingPaths(d, ps[1..])
  }

  function PathRequired(p: string): string {
    p + ": Path `" + p + "` is required."
  }

  function JoinRequired(ps: seq<string>): string {
    if ps == [] then ""
    else if |ps| == 1 then PathRequired(ps[0])
    else PathRequired(ps[0]) + ", " + JoinRequired(ps[1..])
  }

  /** The message of the validation error `create` throws. */
  function ValidationMessage(missing: seq<string>): string {
    "Course validation failed: " + JoinRequired(missing)
  }

  /** The duplicate-key message the store raises for a taken `_id`. */
  const DuplicateKey := "E11000 duplicate key error"

  /** The record `Course.create({ ...payload, graduation_type: "ug" })` builds:
      defaults, overridden by the payload, then `graduation_type`, restricted
      to the schema, with the payload's `_id` or a fresh one. */
  function NewCourse(payload: Doc, newId: Value): (d: Doc)
    ensures "graduation_type" in d && d["graduation_type"] == Str("ug")
    ensures "_id" in d && d["_id"] == (if "_id" in payload then payload["_id"] else newId)
    ensures forall k :: k in payload && k in SchemaPaths && k != "graduation_type" ==> k in d && d[k] == payload[k]
    ensures forall k :: k in Defaults && k !in payload ==> k in d && d[k] == Defaults[k]
    ensures d.Keys <= SchemaPaths
    ensures forall k :: k in d ==> k in payload || k in Defaults || k == "graduation_type" || k == "_id"
  {
    var built := Strict(Defaults + payload + map["graduation_type" := Str("ug")]);
    built["_id" := if "_id" in payload then payload["_id"] else newId]
  }

  /** `findByIdAndUpdate(id, updateData)` on the found course, with the
      store's strict mode: plain fields and `$set` fields on schema paths are
      written, `$unset` schema paths removed, `_id` and every other path
      left alone. */
  function Merged(course: Doc, payload: Doc): (d: Doc)
    ensures "_id" in d <==> "_id" in course
    ensures "_id" in course ==> d["_id"] == course["_id"]
    ensures forall k :: k in SchemaPaths && k != "_id" && k in UnsetPart(payload) ==> k !in d
    ensures forall k :: k in SchemaPaths && k != "_id" && k !in UnsetPart(payload) && k in SetPart(payload) ==>
      k in d && d[k] == SetPart(payload)[k]
    ensures forall k ::
      (k in SchemaPaths && k != "_id" && k !in UnsetPart(payload) && k !in SetPart(payload)
       && k in payload && !IsOperator(k)) ==> k in d && d[k] == payload[k]
    ensures forall k ::
      (k in course && (k == "_id" || k !in SchemaPaths
       || (k !in UnsetPart(payload) && k !in SetPart(payload) && k !in PlainPart(payload)))) ==>
      k in d && d[k] == course[k]
    ensures d.Keys <= course.Keys + SchemaPaths * (PlainPart(payload).Keys + SetPart(payload).Keys)
  {
    var updateData := payload - {"id"};
    assert SetPart(updateData) == SetPart(payload) && UnsetPart(updateData) == UnsetPart(payload);
    ApplyWrites(course, Strict(PlainPart(updateData)) + Strict(SetPart(updateData)), UnsetPart(updateData) * SchemaPaths)
  }

  /** `findByIdAndUpdate(id, { deleted_at: new Date() })` */
  function SoftDeleted(course: Doc, now: int): (d: Doc)
    ensures "deleted_at" in d && d["deleted_at"] == Date(now)
    ensures forall k :: k in course && k != "deleted_at" ==> k in d && d[k] == course[k]
    ensures d.Keys == course.Keys + {"deleted_at"}
  {
    course["deleted_at" := Date(now)]
  }

  // ---------------------------------------------------------------------
  // Listing
  // ---------------------------------------------------------------------

  /** `{ graduation_type: "ug", deleted_at: null }`: an undergraduate course
      whose `deleted_at` is null or absent. */
  predicate Live(d: Doc) {
    && "graduation_type" in d && d["graduation_type"] == Str("ug")
    && ("deleted_at" !in d || d["deleted_at"].Null?)
  }

  /** The list filter: live courses, and when `query` is truthy only those the
      store's case-insensitive match on name or description accepts. */
  function Selects(query: Value, matches: (Value, Doc) -> bool): Doc -> bool {
    d => Live(d) && (!Truthy(query) || matches(query, d))
  }

  /** The sort key of `order_index`: absent or null sorts first, numbers by
      value, any other type after all numbers. */
  datatype OrderKey = Low | Number(n: int) | High

  function KeyOf(d: Doc): OrderKey {
    if "order_index" !in d || d["order_index"].Null? then Low
    else if d["order_index"].Num? then Number(d["order_index"].n)
    else High
  }

  predicate KeyLe(a: OrderKey, b: OrderKey) {
    match (a, b)
    case (Low, _) => true
    case (Number(x), Number(y)) => x <= y
    case (Number(_), High) => true
    case (High, High) => true
    case _ => false
  }

  lemma KeyLeTotal(a: OrderKey, b: OrderKey)
    ensures KeyLe(a, b) || KeyLe(b, a)
  {
  }

  lemma KeyLeTransitive(a: OrderKey, b: OrderKey, c: OrderKey)
    requires KeyLe(a, b) && KeyLe(b, c)
    ensures KeyLe(a, c)
  {
  }

  /** `.sort({ order_index: 1 })` has been applied. */
  predicate SortedByOrder(s: seq<Doc>) {
    forall i, j :: 0 <= i < j < |s| ==> KeyLe(KeyOf(s[i]), KeyOf(s[j]))
  }

  /** Puts `d` before the first record whose key is not smaller. */
  function InsertByOrder(d: Doc, s: seq<Doc>): (r: seq<Doc>)
    requires SortedByOrder(s)
    ensures SortedByOrder(r)
    ensures multiset(r) == multiset(s) + multiset{d}
    ensures forall x :: x in r <==> x == d || x in s
  {
    if s == [] || KeyLe(KeyOf(d), KeyOf(s[0])) then
      assert forall j :: 0 < j < |[d] + s| ==> KeyLe(KeyOf(d), KeyOf(([d] + s)[j])) by {
        forall j | 0 < j < |[d] + s| ensures KeyLe(KeyOf(d), KeyOf(([d] + s)[j])) {
          if j > 1 { KeyLeTransitive(KeyOf(d), KeyOf(s[0]), KeyOf(s[j - 1])); }
        }
      }
      [d] + s
    else
      KeyLeTotal(KeyOf(d), KeyOf(s[0]));
      var t := InsertByOrder(d, s[1..]);
      assert s == [s[0]] + s[1..];
      assert forall x :: x in t ==> KeyLe(KeyOf(s[0]), KeyOf(x));
      [s[0]] + t
  }

  /** The records in `order_index` order, ties in store order. */
  function SortByOrder(s: seq<Doc>): (r: seq<Doc>)
    ensures SortedByOrder(r)
    ensures multiset(r) == multiset(s)
    ensures |r| == |s|
  {
    if s == [] then []
    else
      assert s == [s[0]] + s[1..];
      InsertByOrder(s[0], SortByOrder(s[1..]))
  }

  /** `Course.find(searchQuery).sort({ order_index: 1 }).skip(skip).limit(limitNum)`
      with `Course.countDocuments(searchQuery)`. */
  function QueryCourses(courses: seq<Doc>, a: ListArgs, w: QueryWindow, matches: (Value, Doc) -> bool): (p: Page)
    requires WindowOf(a) == Some(w)
    ensures p.totalCount == |Filter(courses, Selects(a.query, matches))|
    ensures p.page == a.page.value && p.limit == a.limit.value
    // the items are the window of the selection in `order_index` order
    ensures p.items == Window(SortByOrder(Filter(courses, Selects(a.query, matches))), w.skip, w.limit)
    ensures SortedByOrder(p.items)
    ensures forall d :: d in p.items ==> d in courses && Live(d)
    ensures forall d :: d in p.items && Truthy(a.query) ==> matches(a.query, d)
    ensures w.limit != 0 ==> |p.items| <= Abs(w.limit)
  {
    var sorted := SortByOrder(Filter(courses, Selects(a.query, matches)));
    var items := Window(sorted, w.skip, w.limit);
    WindowWithin(sorted, w.skip, w.limit);
    SortKeepsSelection(Filter(courses, Selects(a.query, matches)));
    WindowSorted(sorted, w.skip, w.limit);
    Page(items, |sorted|, a.limit.value, a.page.value)
  }

  /** `UgCourseService.list` */
  function List(courses: seq<Doc>, payload: Doc, request: Request, matches: (Value, Doc) -> bool,
                fault: Option<Thrown>, rejection: Thrown): (r: Response)
    ensures r.request == request && WellShaped(r)
    ensures r.status <==> fault.None? && WindowOf(ListArgsOf(payload)).Some?
    ensures r.status ==>
      && r.msg == "ug_courses_found"
      && r.data == Some(PageValue(QueryCourses(courses, ListArgsOf(payload), WindowOf(ListArgsOf(payload)).value, matches)))
    ensures fault.Some? ==> r == Error("failed_to_fetch_courses", [ErrorText(fault.value)], request)
    // a page or limit the store rejects ends in the store's error
    ensures fault.None? && WindowOf(ListArgsOf(payload)).None? ==>
      r == Error("failed_to_fetch_courses", [ErrorText(rejection)], request)
  {
    var a := ListArgsOf(payload);
    if fault.Some? then Caught(Messages.FailedToFetchCourses, fault.value, request)
    else
      match WindowOf(a)
      case None => Caught(Messages.FailedToFetchCourses, rejection, request)
      case Some(w) => Success(Messages.UgCoursesFound, PageValue(QueryCourses(courses, a, w, matches)), request)
  }

  // ---------------------------------------------------------------------
  // The handlers that change the collection
  // ---------------------------------------------------------------------

  /** `UgCourseService.create`: validation, then the insert, which fails on
      a store fault or a taken `_id`. */
  function CreateEffect(courses: seq<Doc>, payload: Doc, request: Request, newId: Value, fault: Option<Thrown>): (e: Effect)
    ensures e.response.request == request && WellShaped(e.response)
    ensures var d := NewCourse(payload, newId);
      if MissingPaths(d, RequiredPaths) != [] then
        e == Effect(Error("failed_to_create_course", [ValidationMessage(MissingPaths(d, RequiredPaths))], request), courses)
      else if fault.Some? then
        e == Effect(Error("failed_to_create_course", [ErrorText(fault.value)], request), courses)
      else if FindById(courses, d["_id"]).Some? then
        e == Effect(Error("failed_to_create_course", [DuplicateKey], request), courses)
      else
        e == Effect(Success("course_created_successfully", Obj(d), request), courses + [d])
    ensures WellKeyed(courses) ==> WellKeyed(e.store)
  {
    var d := NewCourse(payload, newId);
    var missing := MissingPaths(d, RequiredPaths);
    if missing != [] then
      Effect(Caught(Messages.FailedToCreateCourse, ErrorValue(ValidationMessage(missing)), request), courses)
    else if fault.Some? then Effect(Caught(Messages.FailedToCreateCourse, fault.value, request), courses)
    else if FindById(courses, d["_id"]).Some? then
      Effect(Caught(Messages.FailedToCreateCourse, ErrorValue(DuplicateKey), request), courses)
    else Effect(Success(Messages.CourseCreated, Obj(d), request), courses + [d])
  }

  /** `UgCourseService.update`: `findByIdAndUpdate(id, updateData, { new: true })`. */
  function UpdateEffect(courses: seq<Doc>, payload: Doc, request: Request, fault: Option<Thrown>): (e: Effect)
    ensures e.response.request == request && WellShaped(e.response)
    ensures !Present(payload, "id") ==>
      e == Effect(Error("validation_failed", ["Course ID is required"], request), courses)
    ensures Present(payload, "id") && fault.Some? ==>
      e == Effect(Error("failed_to_update_course", [ErrorText(fault.value)], request), courses)
    ensures Present(payload, "id") && fault.None? && FindById(courses, payload["id"]).None? ==>
      e == Effect(Error("course_not_found", ["Course not found"], request), courses)
    ensures Present(payload, "id") && fault.None? && FindById(courses, payload["id"]).Some? ==>
      var i := FindById(courses, payload["id"]).value;
      && e.store == courses[i := Merged(courses[i], payload)]
      && e.response == Success("course_updated_successfully", Obj(e.store[i]), request)
    ensures |e.store| == |courses|
    ensures WellKeyed(courses) ==> WellKeyed(e.store)
  {
    if !Present(payload, "id") then Effect(ValidationError([CourseIdRequired], request), courses)
    else if fault.Some? then Effect(Caught(Messages.FailedToUpdateCourse, fault.value, request), courses)
    else
      match FindById(courses, payload["id"])
      case None => Effect(Error(Messages.CourseNotFound, [CourseNotFoundText], request), courses)
      case Some(i) =>
        var after := courses[i := Merged(courses[i], payload)];
        Effect(Success(Messages.CourseUpdated, Obj(after[i]), request), after)
  }

  /** `UgCourseService.delete`: a soft delete stamping `deleted_at` with the
      current time `now`. */
  function DeleteEffect(courses: seq<Doc>, payload: Doc, request: Request, now: int, fault: Option<Thrown>): (e: Effect)
    ensures e.response.request == request && WellShaped(e.response)
    ensures !Present(payload, "id") ==>
      e == Effect(Error("validation_failed", ["Course ID is required"], request), courses)
    ensures Present(payload, "id") && fault.Some? ==>
      e == Effect(Error("failed_to_delete_course", [ErrorText(fault.value)], request), courses)
    ensures Present(payload, "id") && fault.None? && FindById(courses, payload["id"]).None? ==>
      e == Effect(Error("course_not_found", ["Course not found"], request), courses)
    ensures Present(payload, "id") && fault.None? && FindById(courses, payload["id"]).Some? ==>
      var i := FindById(courses, payload["id"]).value;
      && e.store == courses[i := SoftDeleted(courses[i], now)]
      && e.response == Success("course_deleted_successfully", Obj(e.store[i]), request)
    ensures |e.store| == |courses|
    ensures WellKeyed(courses) ==> WellKeyed(e.store)
  {
    if !Present(payload, "id") then Effect(ValidationError([CourseIdRequired], request), courses)
    else if fault.Some? then Effect(Caught(Messages.FailedToDeleteCourse, fault.value, request), courses)
    else
      match FindById(courses, payload["id"])
      case None => Effect(Error(Messages.CourseNotFound, [CourseNotFoundText], request), courses)
      case Some(i) =>
        var after := courses[i := SoftDeleted(courses[i], now)];
        Effect(Success(Messages.CourseDeleted, Obj(after[i]), request), after)
  }

  /** The course collection the handlers change in place. */
  class CourseCatalog {
    var courses: seq<Doc>

    constructor (initial: seq<Doc>)
      ensures courses == initial
    {
      courses := initial;
    }

    /** `UgCourseService.create` */
    method Create(payload: Doc, request: Request, newId: Value, fault: Option<Thrown>) returns (r: Response)
      modifies this
      ensures r == CreateEffect(old(courses), payload, request, newId, fault).response
      ensures courses == CreateEffect(old(courses), payload, request, newId, fault).store
    {
      var d := NewCourse(payload, newId);
      var missing := MissingPaths(d, RequiredPaths);
      if missing != [] {
        return Caught(Messages.FailedToCreateCourse, ErrorValue(ValidationMessage(missing)), request);
      }
      if fault.Some? {
        return Caught(Messages.FailedToCreateCourse, fault.value, request);
      }
      if FindById(courses, d["_id"]).Some? {
        return Caught(Messages.FailedToCreateCourse, ErrorValue(DuplicateKey), request);
      }
      courses := courses + [d];
      r := Success(Messages.CourseCreated, Obj(d), request);
    }

    /** `UgCourseService.update` */
    method Update(payload: Doc, request: Request, fault: Option<Thrown>) returns (r: Response)
      modifies this
      ensures r == UpdateEffect(old(courses), payload, request, fault).response
      ensures courses == UpdateEffect(old(courses), payload, request, fault).store
    {
      if !Present(payload, "id") {
        return ValidationError([CourseIdRequired], request);
      }
      if fault.Some? {
        return Caught(Messages.FailedToUpdateCourse, fault.value, request);
      }
      var found := FindById(courses, payload["id"]);
      if found.None? {
        return Error(Messages.CourseNotFound, [CourseNotFoundText], request);
      }
      var i := found.value;
      courses := courses[i := Merged(courses[i], payload)];
      r := Success(Messages.CourseUpdated, Obj(courses[i]), request);
    }

    /** `UgCourseService.delete` */
    method Delete(payload: Doc, request: Request, now: int, fault: Option<Thrown>) returns (r: Response)
      modifies this
      ensures r == DeleteEffect(old(courses), payload, request, now, fault).response
      ensures courses == DeleteEffect(old(courses), payload, request, now, fault).store
    {
      if !Present(payload, "id") {
        return ValidationError([CourseIdRequired], request);
      }
      if fault.Some? {
        return Caught(Messages.FailedToDeleteCourse, fault.value, request);
      }
      var found := FindById(courses, payload["id"]);
      if found.None? {
        return Error(Messages.CourseNotFound, [CourseNotFoundText], request);
      }
      var i := found.value;
      courses := courses[i := SoftDeleted(courses[i], now)];
      r := Success(Messages.CourseDeleted, Obj(courses[i]), request);
    }
  }

  // ---------------------------------------------------------------------
  // Properties relating the handlers
  // ---------------------------------------------------------------------

  /** Whatever the payload says, a created course is an undergraduate one. */
  lemma CreatedCourseIsUg(payload: Doc, newId: Value)
    ensures NewCourse(payload, newId)["graduation_type"] == Str("ug")
    ensures "deleted_at" !in payload || payload["deleted_at"].Null? ==> Live(NewCourse(payload, newId))
  {
  }

  /** After a soft delete of the record with `id`, no listing selects a record
      with that `_id`, in any window, for any search. */
  lemma {:induction false} SoftDeleteHides(courses: seq<Doc>, i: nat, now: int, query: Value,
                                           matches: (Value, Doc) -> bool)
    requires WellKeyed(courses) && i < |courses|
    ensures var after := courses[i := SoftDeleted(courses[i], now)];
      forall d :: d in Filter(after, Selects(query, matches)) ==> !HasId(d, courses[i]["_id"])
  {
    var after := courses[i := SoftDeleted(courses[i], now)];
    forall d | d in Filter(after, Selects(query, matches)) ensures !HasId(d, courses[i]["_id"]) {
      var j :| 0 <= j < |after| && after[j] == d;
      assert !Live(after[i]);
      assert j != i && d == courses[j];
    }
  }

  /** A record that is not live (not `ug`, or soft-deleted) is in no
      listing, whatever the search or the window. */
  lemma ListingOnlyLive(courses: seq<Doc>, payload: Doc, matches: (Value, Doc) -> bool, d: Doc)
    requires WindowOf(ListArgsOf(payload)).Some?
    requires !Live(d)
    ensures d !in QueryCourses(courses, ListArgsOf(payload), WindowOf(ListArgsOf(payload)).value, matches).items
  {
  }

  /** A window of a sorted selection is sorted. */
  lemma WindowSorted(s: seq<Doc>, skip: nat, limit: int)
    requires SortedByOrder(s)
    ensures SortedByOrder(Window(s, skip, limit))
  {
    var r := Window(s, skip, limit);
    if skip < |s| {
      forall i, j | 0 <= i < j < |r| ensures KeyLe(KeyOf(r[i]), KeyOf(r[j])) {
        assert r[i] == s[skip + i] && r[j] == s[skip + j];
      }
    }
  }

  /** Sorting does not change which records, or how many, a listing counts. */
  lemma {:induction false} SortKeepsSelection(s: seq<Doc>)
    ensures forall d :: d in SortByOrder(s) <==> d in s
  {
    var r := SortByOrder(s);
    forall d ensures d in r <==> d in s {
      assert d in r <==> d in multiset(r);
      assert d in s <==> d in multiset(s);
    }
  }
}
