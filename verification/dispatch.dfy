/** The router over the registered services: `SocketRouter.handleRequest`
    with `serviceRegistry`, where each handler is the service member it names.
    The two collections are the state the handlers read and change. */
module SocketDispatch {
  import opened Values
  import opened SocketResponse
  import opened ServiceRegistry
  import SocketRouter
  import Users = UserSocketService
  import Courses = UgCourseService

  /** What the handlers take from outside the request: the store's text
      search for each collection, a store failure, the error a rejected
      window raises, the id a new record gets, and the clock. */
  datatype Environment = Environment(
    userMatches: (Value, Doc) -> bool,
    courseMatches: (Value, Doc) -> bool,
    fault: Option<Thrown>,
    rejection: Thrown,
    newId: Value,
    now: int)

  /** `SocketRouter.handleRequest(request)` with the registered services. */
  method Dispatch(users: Users.UserDirectory, catalog: Courses.CourseCatalog, req: Request, env: Environment)
    returns (r: Response)
    modifies users, catalog
    ensures r.request == req && WellShaped(r)
    // the services catch every failure themselves, so the router's own catch never fires
    ensures r.msg != "internal_server_error"
    ensures SocketRouter.Resolve(Registry, req).Rejected? ==>
      r == SocketRouter.Resolve(Registry, req).response
    ensures SocketRouter.Resolve(Registry, req) == SocketRouter.Resolved(UserList) ==>
      r == Users.List(old(users.users), req.payload, req, env.userMatches, env.fault, env.rejection)
    ensures SocketRouter.Resolve(Registry, req) == SocketRouter.Resolved(UserGetById) ==>
      r == Users.GetById(old(users.users), req.payload, req, env.fault)
    ensures SocketRouter.Resolve(Registry, req) == SocketRouter.Resolved(CourseList) ==>
      r == Courses.List(old(catalog.courses), req.payload, req, env.courseMatches, env.fault, env.rejection)
    ensures SocketRouter.Resolve(Registry, req) == SocketRouter.Resolved(UserUpdate) ==>
      var e := Users.UpdateEffect(old(users.users), req.payload, req, env.fault);
      r == e.response && users.users == e.store
    ensures SocketRouter.Resolve(Registry, req) == SocketRouter.Resolved(CourseCreate) ==>
      var e := Courses.CreateEffect(old(catalog.courses), req.payload, req, env.newId, env.fault);
      r == e.response && catalog.courses == e.store
    ensures SocketRouter.Resolve(Registry, req) == SocketRouter.Resolved(CourseUpdate) ==>
      var e := Courses.UpdateEffect(old(catalog.courses), req.payload, req, env.fault);
      r == e.response && catalog.courses == e.store
    ensures SocketRouter.Resolve(Registry, req) == SocketRouter.Resolved(CourseDelete) ==>
      var e := Courses.DeleteEffect(old(catalog.courses), req.payload, req, env.now, env.fault);
      r == e.response && catalog.courses == e.store
    // only the handler that ran touches a collection
    ensures SocketRouter.Resolve(Registry, req) != SocketRouter.Resolved(UserUpdate) ==>
      users.users == old(users.users)
    ensures (SocketRouter.Resolve(Registry, req) !in
             {SocketRouter.Resolved(CourseCreate), SocketRouter.Resolved(CourseUpdate), SocketRouter.Resolved(CourseDelete)})
      ==> catalog.courses == old(catalog.courses)
  {
    match SocketRouter.Resolve(Registry, req)
    case Rejected(e) =>
      r := e;
    case Resolved(h) =>
      match h
      case UserList =>
        r := Users.List(users.users, req.payload, req, env.userMatches, env.fault, env.rejection);
      case UserGetById =>
        r := Users.GetById(users.users, req.payload, req, env.fault);
      case UserUpdate =>
        r := users.Update(req.payload, req, env.fault);
      case CourseList =>
        r := Courses.List(catalog.courses, req.payload, req, env.courseMatches, env.fault, env.rejection);
      case CourseCreate =>
        r := catalog.Create(req.payload, req, env.newId, env.fault);
      case CourseUpdate =>
        r := catalog.Update(req.payload, req, env.fault);
      case CourseDelete =>
        r := catalog.Delete(req.payload, req, env.now, env.fault);
  }
}
