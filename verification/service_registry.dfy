/** The process-wide service table: service name -> action name -> handler.
    It is a constant; nothing in the model writes to it. */
module ServiceRegistry {

  /** The registered handlers, one per static method of the two socket services. */
  datatype Handler =
    | CourseList | CourseCreate | CourseUpdate | CourseDelete
    | UserList | UserUpdate | UserGetById

  /** `serviceRegistry` */
  const Registry: map<string, map<string, Handler>> := map[
    "ugCourseService" := map[
      "list" := CourseList,
      "create" := CourseCreate,
      "update" := CourseUpdate,
      "delete" := CourseDelete],
    "userService" := map[
      "list" := UserList,
      "update" := UserUpdate,
      "getById" := UserGetById]]

  /** Exactly two services, with exactly these actions; in particular the
      user directory has no `delete`. */
  lemma RegistryContents()
    ensures Registry.Keys == {"ugCourseService", "userService"}
    ensures Registry["ugCourseService"].Keys == {"list", "create", "update", "delete"}
    ensures Registry["userService"].Keys == {"list", "update", "getById"}
    ensures "delete" !in Registry["userService"]
  {
  }

  /** Every handler is registered under exactly one (service, action) pair. */
  lemma RegistryInjective(s1: string, a1: string, s2: string, a2: string)
    requires s1 in Registry && a1 in Registry[s1]
    requires s2 in Registry && a2 in Registry[s2]
    requires Registry[s1][a1] == Registry[s2][a2]
    ensures s1 == s2 && a1 == a2
  {
  }
}
