/** Records exchanged between the two front-ends and the REST backend. */
module Models {

  datatype Option<+T> = None | Some(value: T)

  /** An event category; read-only for the front-ends. */
  datatype Category = Category(id: int, categoryName: string, categoryDesc: Option<string>)

  /** A charity event as the backend returns it (category name joined in, possibly absent). */
  datatype Activity = Activity(
    id: int,
    title: string,
    description: string,
    date: string,
    location: string,
    categoryId: int,
    categoryName: Option<string>)

  /** One person's registration for an event; the registration date is a timestamp. */
  datatype Registration = Registration(
    id: int,
    activityId: int,
    userName: string,
    userEmail: string,
    phone: Option<string>,
    ticketQuantity: int,
    registrationDate: int)

  /** The two kinds of toast message the admin pages show. */
  datatype MessageType = Success | Error

  /** The part of an activity the admin form edits: everything except the id and the joined name. */
  datatype ActivityForm = ActivityForm(
    title: string,
    description: string,
    date: string,
    location: string,
    categoryId: int)

  /** The public registration form, which is also the body of a registration submission. */
  datatype RegistrationForm = RegistrationForm(
    activityId: int,
    userName: string,
    userEmail: string,
    phone: string,
    ticketQuantity: int)

  /** The HTTP call, if any, that one step of a page hands to the API service. */
  datatype Request =
    | NoRequest
    | ListActivities
    | GetActivityDetail(activityId: int)
    | CreateActivity(form: ActivityForm)
    | UpdateActivity(activityId: int, form: ActivityForm)
    | DeleteActivity(activityId: int)
    | DeleteRegistration(registrationId: int)
    | SubmitRegistration(body: RegistrationForm)
}
