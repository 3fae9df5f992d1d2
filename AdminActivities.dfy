/**
 * The admin events page: the add/edit modal, saving through create or
 * update, deleting after confirmation, and the toast message.
 */
module AdminActivities {
  import opened Models

  /** The form `openAddModal` starts from (and the page's initial form). */
  const BLANK_FORM := ActivityForm("", "", "", "", 0)

  /** The form `openEditModal` fills from an existing event. */
  function FormOf(a: Activity): ActivityForm
  {
    ActivityForm(a.title, a.description, a.date, a.location, a.categoryId)
  }

  /** The page's state. */
  class AdminActivitiesComponent {
    var activities: seq<Activity>
    var categories: seq<Category>
    var isModalOpen: bool
    var isEditing: bool
    var message: string
    var messageType: MessageType
    var formData: ActivityForm
    /** The id of the event being edited. */
    var currentActivityId: int

    constructor ()
      ensures activities == [] && categories == [] && !isModalOpen && !isEditing
      ensures message == "" && messageType == Success
      ensures formData == BLANK_FORM && currentActivityId == 0
    {
      activities := [];
      categories := [];
      isModalOpen := false;
      isEditing := false;
      message := "";
      messageType := Success;
      formData := BLANK_FORM;
      currentActivityId := 0;
    }

    /** The callback of `loadActivities`. */
    method OnActivitiesLoaded(acts: seq<Activity>)
      modifies this`activities
      ensures activities == acts
    {
      activities := acts;
    }

    /** The callback of `loadCategories`, which fills the category drop-down. */
    method OnCategoriesLoaded(cats: seq<Category>)
      modifies this`categories
      ensures categories == cats
    {
      categories := cats;
    }

    /** `openAddModal`: a blank form in "add" mode; the remembered id is left as it was. */
    method OpenAddModal()
      modifies this`isEditing, this`formData, this`isModalOpen
      ensures !isEditing && formData == BLANK_FORM && isModalOpen
      ensures currentActivityId == old(currentActivityId)
    {
      isEditing := false;
      formData := BLANK_FORM;
      isModalOpen := true;
    }

    /** `openEditModal(a)`: a copy of the event's fields in "edit" mode for its id. */
    method OpenEditModal(a: Activity)
      modifies this`isEditing, this`currentActivityId, this`formData, this`isModalOpen
      ensures isEditing && currentActivityId == a.id && isModalOpen
      ensures formData.title == a.title && formData.description == a.description
      ensures formData.date == a.date && formData.location == a.location
      ensures formData.categoryId == a.categoryId
    {
      isEditing := true;
      currentActivityId := a.id;
      formData := FormOf(a);
      isModalOpen := true;
    }

    /** `closeModal`: only the modal closes; the form and the mode stay. */
    method CloseModal()
      modifies this`isModalOpen
      ensures !isModalOpen
    {
      isModalOpen := false;
    }

    /**
     * `saveActivity` and the callback of its request, as one step: `req` is
     * the update (when editing) or the create it issues, `succeeded` is the
     * response, and `reload` says whether the list is fetched again.
     */
    method SaveActivity(succeeded: bool) returns (req: Request, reload: bool)
      modifies this`message, this`messageType, this`isModalOpen
      ensures isEditing ==> req == UpdateActivity(currentActivityId, formData)
      ensures !isEditing ==> req == CreateActivity(formData)
      ensures reload == succeeded
      ensures succeeded ==> !isModalOpen && messageType == Success
      ensures succeeded ==> message == (if isEditing then "Event updated successfully" else "Event created successfully")
      ensures !succeeded ==> isModalOpen == old(isModalOpen) && messageType == Error
      ensures !succeeded ==> message == (if isEditing then "Failed to update event" else "Failed to create event")
    {
      reload := false;
      if isEditing {
        req := UpdateActivity(currentActivityId, formData);
        if succeeded {
          ShowMessage("Event updated successfully", Success);
          reload := true;
          CloseModal();
        } else {
          ShowMessage("Failed to update event", Error);
        }
      } else {
        req := CreateActivity(formData);
        if succeeded {
          ShowMessage("Event created successfully", Success);
          reload := true;
          CloseModal();
        } else {
          ShowMessage("Failed to create event", Error);
        }
      }
    }

    /**
     * `deleteActivity(id)` and the callback of its request, as one step:
     * `confirmed` is the answer to the confirmation dialog.
     */
    method DeleteActivity(id: int, confirmed: bool, succeeded: bool) returns (req: Request, reload: bool)
      modifies this`message, this`messageType
      ensures !confirmed ==> req == NoRequest && !reload
      ensures !confirmed ==> message == old(message) && messageType == old(messageType)
      ensures confirmed ==> req == Request.DeleteActivity(id) && reload == succeeded
      ensures confirmed && succeeded ==> message == "Event deleted successfully" && messageType == Success
      ensures confirmed && !succeeded ==> message == "Failed to delete event" && messageType == Error
    {
      req, reload := NoRequest, false;
      if confirmed {
        req := Request.DeleteActivity(id);
        if succeeded {
          ShowMessage("Event deleted successfully", Success);
          reload := true;
        } else {
          ShowMessage("Failed to delete event", Error);
        }
      }
    }

    /** `showMessage`: both the text and its kind. */
    method ShowMessage(text: string, kind: MessageType)
      modifies this`message, this`messageType
      ensures message == text && messageType == kind
    {
      message := text;
      messageType := kind;
    }

    /** `clearMessage`: empties the text and leaves the kind as it was. */
    method ClearMessage()
      modifies this`message
      ensures message == "" && messageType == old(messageType)
    {
      message := "";
    }
  }
}
