/** The fixed message texts and codes the core sends. */
module Messages {

  // Human-readable errors (MESSAGES.ERROR)
  const InternalServer := "Internal server error"
  const UserNotFound := "User not found"
  const Unauthorized := "Unauthorized access"
  const Forbidden := "Forbidden: Insufficient permissions"
  const InvalidToken := "Invalid or expired token"
  const TokenRequired := "Access token required"
  const SocketAuthFailed := "Socket authentication failed"

  // Machine-readable envelope codes (MESSAGES.SOCKET)
  const ServiceNotFound := "service_not_found"
  const ActionNotFound := "action_not_found"
  const ValidationFailed := "validation_failed"
  const UgCoursesFound := "ug_courses_found"
  const CourseCreated := "course_created_successfully"
  const CourseUpdated := "course_updated_successfully"
  const CourseDeleted := "course_deleted_successfully"
  const CourseNotFound := "course_not_found"
  const UsersFound := "users_found"
  const UserUpdated := "User details updated successfully"
  const UserNotFoundCode := "user_not_found"
  const UserFound := "user_found"

  // Codes the router and the socket services write inline
  const InternalServerError := "internal_server_error"
  const FailedToFetchUsers := "failed_to_fetch_users"
  const FailedToUpdateUser := "failed_to_update_user"
  const FailedToFetchUser := "failed_to_fetch_user"
  const FailedToFetchCourses := "failed_to_fetch_courses"
  const FailedToCreateCourse := "failed_to_create_course"
  const FailedToUpdateCourse := "failed_to_update_course"
  const FailedToDeleteCourse := "failed_to_delete_course"
}
