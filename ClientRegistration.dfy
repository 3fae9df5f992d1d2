/**
 * The public registration page: reading the event id from the route,
 * loading the event, and submitting the registration form.
 */
module ClientRegistration {
  import opened Models
  import Text

  const INITIAL_FORM := RegistrationForm(0, "", "", "", 1)
  const INVALID_ID := "Invalid event ID"
  const LOAD_FAILED := "Failed to load event information"
  const SUBMIT_FAILED := "Registration failed. Please try again."

  /** The page's state. */
  class RegistrationComponent {
    var formData: RegistrationForm
    var activity: Option<Activity>
    var isLoading: bool
    var isSubmitting: bool
    var successMessage: string
    var errorMessage: string

    constructor ()
      ensures formData == INITIAL_FORM
      ensures formData.activityId == 0 && formData.userName == "" && formData.userEmail == ""
      ensures formData.phone == "" && formData.ticketQuantity == 1
      ensures activity == None && isLoading && !isSubmitting
      ensures successMessage == "" && errorMessage == ""
    {
      formData := INITIAL_FORM;
      activity := None;
      isLoading := true;
      isSubmitting := false;
      successMessage := "";
      errorMessage := "";
    }

    /**
     * `ngOnInit`: `routeId` is the route's `id` parameter (absent or a string)
     * and `idNumber` stands for `Number(routeId)`. A missing or empty id stops
     * with an error and no request; otherwise the id goes into the form and
     * the event's detail is requested.
     */
    method NgOnInit(routeId: Option<string>, idNumber: int) returns (req: Request)
      modifies this`errorMessage, this`isLoading, this`formData
      ensures routeId.None? || routeId.value == "" ==>
        req == NoRequest && errorMessage == INVALID_ID && !isLoading && formData == old(formData)
      ensures routeId.Some? && routeId.value != "" ==>
        req == GetActivityDetail(idNumber) && formData == old(formData).(activityId := idNumber)
        && errorMessage == old(errorMessage) && isLoading == old(isLoading)
    {
      if routeId.None? || routeId.value == "" {
        errorMessage := INVALID_ID;
        isLoading := false;
        req := NoRequest;
        return;
      }
      formData := formData.(activityId := idNumber);
      req := GetActivityDetail(idNumber);
    }

    /** Success of the detail request: show the event. */
    method OnLoadSucceeded(a: Activity)
      modifies this`activity, this`isLoading
      ensures activity == Some(a) && !isLoading
    {
      activity := Some(a);
      isLoading := false;
    }

    /** Failure of the detail request. */
    method OnLoadFailed()
      modifies this`errorMessage, this`isLoading
      ensures errorMessage == LOAD_FAILED && !isLoading
    {
      errorMessage := LOAD_FAILED;
      isLoading := false;
    }

    /** `submitForm`: mark the submission as running, clear both messages, send the form. */
    method SubmitForm() returns (req: Request)
      modifies this`isSubmitting, this`successMessage, this`errorMessage
      ensures isSubmitting && successMessage == "" && errorMessage == ""
      ensures req == SubmitRegistration(formData)
    {
      isSubmitting := true;
      successMessage := "";
      errorMessage := "";
      req := SubmitRegistration(formData);
    }

    /** Success of the submission: show the server's message and clear the personal fields. */
    method OnSubmitSucceeded(responseMessage: string)
      modifies this`successMessage, this`isSubmitting, this`formData
      ensures successMessage == responseMessage && !isSubmitting
      ensures formData.userName == "" && formData.userEmail == "" && formData.phone == ""
      ensures formData.ticketQuantity == 1
      ensures formData.activityId == old(formData.activityId)
    {
      successMessage := responseMessage;
      isSubmitting := false;
      formData := formData.(userName := "", userEmail := "", phone := "", ticketQuantity := 1);
    }

    /**
     * Failure of the submission: `serverMessage` is `err.error?.message`
     * (absent when the error carries no body or no message). The form is kept.
     */
    method OnSubmitFailed(serverMessage: Option<string>)
      modifies this`errorMessage, this`isSubmitting
      ensures errorMessage == SubmitErrorText(serverMessage) && !isSubmitting
      ensures formData == old(formData)
    {
      errorMessage := SubmitErrorText(serverMessage);
      isSubmitting := false;
    }
  }

  /** The error text shown after a failed submission: the server's message, or a default. */
  function SubmitErrorText(serverMessage: Option<string>): (r: string)
    ensures r != ""
    ensures r == SUBMIT_FAILED || serverMessage == Some(r)
    ensures serverMessage.Some? && serverMessage.value != "" ==> r == serverMessage.value
  {
    Text.OrDefault(serverMessage, SUBMIT_FAILED)
  }
}
