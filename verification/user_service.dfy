/** `UserSocketService`: the `userService` handlers `list`, `getById` (read-only
    queries over the user collection) and `update` (which changes one stored
    user in place). `update` takes `password` out of the update it sends, but
    an operator such as `$set` still reaches the store; `UpdatedAsWritten` is
    that update, `Updated` the one that leaves every password alone. */
module UserSocketService {
  import opened Values
  import opened SocketResponse
  import opened Collection
  import Messages

  const UserIdRequired := "User ID is required"

  /** The search filter: none for a falsy `query`, otherwise the store's
      case-insensitive match on name or email, left abstract as `matches`. */
  function Selects(query: Value, matches: (Value, Doc) -> bool): Doc -> bool {
    d => !Truthy(query) || matches(query, d)
  }

  /** `User.find(searchQuery).select("-password").skip(skip).limit(limitNum)`
      with `User.countDocuments(searchQuery)`. */
  function QueryUsers(users: seq<Doc>, a: ListArgs, w: QueryWindow, matches: (Value, Doc) -> bool): (p: Page)
    requires WindowOf(a) == Some(w)
    ensures p.totalCount == |Filter(users, Selects(a.query, matches))|
    ensures p.page == a.page.value && p.limit == a.limit.value
    // the items are the selected window, in store order, each without its password
    ensures var window := Window(Filter(users, Selects(a.query, matches)), w.skip, w.limit);
      p.items == seq(|window|, i requires 0 <= i < |window| => StripPassword(window[i]))
    ensures forall i :: 0 <= i < |p.items| ==> "password" !in p.items[i]
    ensures forall i :: 0 <= i < |p.items| ==>
      exists u :: u in users && Selects(a.query, matches)(u) && p.items[i] == StripPassword(u)
    ensures w.limit != 0 ==> |p.items| <= Abs(w.limit)
  {
    var selected := Filter(users, Selects(a.query, matches));
    var window := Window(selected, w.skip, w.limit);
    var items := seq(|window|, i requires 0 <= i < |window| => StripPassword(window[i]));
    WindowWithin(selected, w.skip, w.limit);
    assert forall i :: 0 <= i < |items| ==> window[i] in users && Selects(a.query, matches)(window[i]) by {
      forall i | 0 <= i < |items| ensures window[i] in users && Selects(a.query, matches)(window[i]) {
        assert window[i] in window;
      }
    }
    Page(items, |selected|, a.limit.value, a.page.value)
  }

  /** `UserSocketService.list` */
  function List(users: seq<Doc>, payload: Doc, request: Request, matches: (Value, Doc) -> bool,
                fault: Option<Thrown>, rejection: Thrown): (r: Response)
    ensures r.request == request && WellShaped(r)
    ensures r.status <==> fault.None? && WindowOf(ListArgsOf(payload)).Some?
    ensures r.status ==>
      && r.msg == "users_found"
      && r.data == Some(PageValue(QueryUsers(users, ListArgsOf(payload), WindowOf(ListArgsOf(payload)).value, matches)))
    ensures fault.Some? ==> r == Error("failed_to_fetch_users", [ErrorText(fault.value)], request)
    // a page or limit the store rejects ends in the store's error
    ensures fault.None? && WindowOf(ListArgsOf(payload)).None? ==>
      r == Error("failed_to_fetch_users", [ErrorText(rejection)], request)
  {
    var a := ListArgsOf(payload);
    if fault.Some? then Caught(Messages.FailedToFetchUsers, fault.value, request)
    else
      match WindowOf(a)
      case None => Caught(Messages.FailedToFetchUsers, rejection, request)
      case Some(w) => Success(Messages.UsersFound, PageValue(QueryUsers(users, a, w, matches)), request)
  }

  /** `UserSocketService.getById` */
  function GetById(users: seq<Doc>, payload: Doc, request: Request, fault: Option<Thrown>): (r: Response)
    ensures r.request == request && WellShaped(r)
    ensures !Present(payload, "id") ==> r == Error("validation_failed", ["User ID is required"], request)
    ensures Present(payload, "id") && fault.Some? ==>
      r == Error("failed_to_fetch_user", [ErrorText(fault.value)], request)
    ensures Present(payload, "id") && fault.None? ==>
      (r.status <==> exists j :: 0 <= j < |users| && HasId(users[j], payload["id"]))
    ensures Present(payload, "id") && fault.None? && !r.status ==>
      r == Error("user_not_found", ["User not found"], request)
    ensures r.status ==> r.msg == "user_found" && r.data.Some? && r.data.value.Obj? && "password" !in r.data.value.fields
    ensures r.status ==>
      exists j :: 0 <= j < |users| && r.data == Some(Obj(StripPassword(users[j]))) && HasId(users[j], payload["id"])
  {
    if !Present(payload, "id") then ValidationError([UserIdRequired], request)
    else if fault.Some? then Caught(Messages.FailedToFetchUser, fault.value, request)
    else
      match FindById(users, payload["id"])
      case None => Error(Messages.UserNotFoundCode, [Messages.UserNotFound], request)
      case Some(i) => Success(Messages.UserFound, Obj(StripPassword(users[i])), request)
  }

  function PasswordOf(d: Doc): Option<Value> {
    if "password" in d then Some(d["password"]) else None
  }

  /** `findByIdAndUpdate(id, updateData)` as written: the payload without `id`
      and `password`, operators included. It keeps the password only when no
      operator names it. */
  function UpdatedAsWritten(user: Doc, payload: Doc): (d: Doc)
    ensures "password" !in SetPart(payload) && "password" !in UnsetPart(payload) ==>
      PasswordOf(d) == PasswordOf(user)
  {
    assert SetPart(payload - {"id", "password"}) == SetPart(payload);
    assert UnsetPart(payload - {"id", "password"}) == UnsetPart(payload);
    ApplyUpdate(user, payload - {"id", "password"})
  }

  /** A `$set` in the payload overwrites the stored password. */
  lemma SetOperatorChangesPassword()
    ensures var user := map["_id" := Str("u1"), "password" := Str("hash")];
      var payload := map["id" := Str("u1"), "$set" := Obj(map["password" := Str("chosen")])];
      PasswordOf(UpdatedAsWritten(user, payload)) == Some(Str("chosen"))
  {
    var payload := map["id" := Str("u1"), "$set" := Obj(map["password" := Str("chosen")])];
    assert SetPart(payload - {"id", "password"}) == map["password" := Str("chosen")];
  }

  /** The update the handler means to send: the plain payload fields other
      than `id` and `password`, with the operator keys dropped as well. */
  function UpdateData(payload: Doc): (u: Doc)
    ensures forall k :: k in u ==> !IsOperator(k) && k != "id" && k != "password"
    ensures forall k :: k in payload && !IsOperator(k) && k != "id" && k != "password" ==> k in u && u[k] == payload[k]
    ensures u.Keys <= payload.Keys
  {
    PlainPart(payload) - {"id", "password"}
  }

  /** The found user after the intended update: every plain payload field but
      `id`, `password` and `_id` written, nothing else touched. */
  function Updated(user: Doc, payload: Doc): (d: Doc)
    ensures PasswordOf(d) == PasswordOf(user)
    ensures "_id" in d <==> "_id" in user
    ensures "_id" in user ==> d["_id"] == user["_id"]
    ensures forall k :: k in payload && !IsOperator(k) && k != "id" && k != "password" && k != "_id" ==>
      k in d && d[k] == payload[k]
    ensures forall k :: k in user && (k !in payload || IsOperator(k) || k == "id" || k == "password" || k == "_id") ==>
      k in d && d[k] == user[k]
    ensures d.Keys <= user.Keys + payload.Keys
    ensures forall k :: k in d && k !in user ==> k in payload && !IsOperator(k) && k != "id" && k != "password"
  {
    var u := UpdateData(payload);
    assert SetPart(u) == map[] && UnsetPart(u) == {};
    ApplyUpdate(user, u)
  }

  /** `UserSocketService.update`: what it answers and the users afterwards. */
  function UpdateEffect(users: seq<Doc>, payload: Doc, request: Request, fault: Option<Thrown>): (e: Effect)
    ensures e.response.request == request && WellShaped(e.response)
    // guard clause: no id, no store access
    ensures !Present(payload, "id") ==>
      e == Effect(Error("validation_failed", ["User ID is required"], request), users)
    ensures Present(payload, "id") && fault.Some? ==>
      e == Effect(Error("failed_to_update_user", [ErrorText(fault.value)], request), users)
    ensures Present(payload, "id") && fault.None? && FindById(users, payload["id"]).None? ==>
      e == Effect(Error("user_not_found", ["User not found"], request), users)
    // the found user is updated, the answer hides the password
    ensures Present(payload, "id") && fault.None? && FindById(users, payload["id"]).Some? ==>
      var i := FindById(users, payload["id"]).value;
      && e.store == users[i := Updated(users[i], payload)]
      && e.response == Success("User details updated successfully", Obj(StripPassword(e.store[i])), request)
    // no stored password and no `_id` ever changes
    ensures |e.store| == |users|
    ensures forall k :: 0 <= k < |users| ==> PasswordOf(e.store[k]) == PasswordOf(users[k])
    ensures forall k :: 0 <= k < |users| ==> ("_id" in e.store[k] <==> "_id" in users[k])
    ensures forall k :: 0 <= k < |users| && "_id" in users[k] ==> e.store[k]["_id"] == users[k]["_id"]
    ensures WellKeyed(users) ==> WellKeyed(e.store)
  {
    if !Present(payload, "id") then Effect(ValidationError([UserIdRequired], request), users)
    else if fault.Some? then Effect(Caught(Messages.FailedToUpdateUser, fault.value, request), users)
    else
      match FindById(users, payload["id"])
      case None => Effect(Error(Messages.UserNotFoundCode, [Messages.UserNotFound], request), users)
      case Some(i) =>
        var after := users[i := Updated(users[i], payload)];
        Effect(Success(Messages.UserUpdated, Obj(StripPassword(after[i])), request), after)
  }

  /** The user collection, which `update` changes in place. */
  class UserDirectory {
    var users: seq<Doc>

    constructor (initial: seq<Doc>)
      ensures users == initial
    {
      users := initial;
    }

    /** `UserSocketService.update`: `findByIdAndUpdate(id, updateData)` on the
        found user. */
    method Update(payload: Doc, request: Request, fault: Option<Thrown>) returns (r: Response)
      modifies this
      ensures r == UpdateEffect(old(users), payload, request, fault).response
      ensures users == UpdateEffect(old(users), payload, request, fault).store
    {
      if !Present(payload, "id") {
        return ValidationError([UserIdRequired], request);
      }
      var id := payload["id"];
      var updateData := UpdateData(payload);
      if fault.Some? {
        return Caught(Messages.FailedToUpdateUser, fault.value, request);
      }
      var found := FindById(users, id);
      if found.None? {
        return Error(Messages.UserNotFoundCode, [Messages.UserNotFound], request);
      }
      var i := found.value;
      var updated := ApplyUpdate(users[i], updateData);
      users := users[i := updated];
      r := Success(Messages.UserUpdated, Obj(StripPassword(updated)), request);
    }
  }

  /** Reading a user back after an update finds the updated record, still
      without its password. */
  lemma GetAfterUpdate(users: seq<Doc>, payload: Doc, request: Request, again: Request)
    requires WellKeyed(users)
    requires Present(payload, "id") && FindById(users, payload["id"]).Some?
    ensures var e := UpdateEffect(users, payload, request, None);
      var i := FindById(users, payload["id"]).value;
      GetById(e.store, payload, again, None) == Success("user_found", Obj(StripPassword(e.store[i])), again)
  {
    var e := UpdateEffect(users, payload, request, None);
    var i := FindById(users, payload["id"]).value;
    assert HasId(e.store[i], payload["id"]);
    assert FindById(e.store, payload["id"]) == Some(i);
  }
}
