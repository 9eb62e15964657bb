/** The create modal (`EventCreate`): it validates the new event's fields,
    shows the success state, and after a delay resets itself and asks to be
    closed. The payload it builds is only written to the console. */
module EventCreateModal {

  import opened Base
  import opened Models
  import opened EventForm

  class EventCreate {
    var showSuccess: bool
    var showError: bool
    var errorMessage: string
    var dateError: string

    var title: string
    var date: string
    var time: string
    var location: string
    var description: string

    /** How many times `close` has been emitted. */
    var closeEmitted: nat
    /** How many reset-and-close timers of `handleCreateEvent` are armed. */
    var pendingResets: nat

    constructor ()
      ensures !showSuccess && !showError && errorMessage == "" && dateError == ""
      ensures title == "" && date == "" && time == "" && location == "" && description == ""
      ensures closeEmitted == 0 && pendingResets == 0
    {
      showSuccess, showError, errorMessage, dateError := false, false, "", "";
      title, date, time, location, description := "", "", "", "", "";
      closeEmitted, pendingResets := 0, 0;
    }

    /** `closeModal`: emits on `close`. */
    method CloseModal()
      modifies this`closeEmitted
      ensures closeEmitted == old(closeEmitted) + 1
    {
      closeEmitted := closeEmitted + 1;
    }

    /** The verdict of the form check on the current field values. */
    function Check(parse: string -> Option<int>, today: int): FormCheck
      reads this`title, this`date, this`time, this`location, this`description
    {
      CheckForm(title, date, time, location, description, parse, today)
    }

    /** `handleCreateEvent`: clears both errors, then reports a missing field
        or a past date and stops, or else builds the payload of the five
        checked fields, shows success and arms one more reset-and-close timer. */
    method HandleCreateEvent(parse: string -> Option<int>, today: int) returns (payload: Option<CreateEventDto>)
      modifies this`showError, this`errorMessage, this`dateError, this`showSuccess, this`pendingResets
      ensures var check := old(Check(parse, today));
              && showError == check.MissingField?
              && errorMessage == (if check.MissingField? then RequiredFieldsMessage else old(errorMessage))
              && dateError == (if check.PastDate? then FutureDateMessage else "")
              && payload == (if check.Accepted?
                             then Some(CreateEventDto(check.title, check.description, check.date, check.time, check.location))
                             else None)
              && showSuccess == (check.Accepted? || old(showSuccess))
              && pendingResets == old(pendingResets) + if check.Accepted? then 1 else 0
    {
      var check := Check(parse, today);
      showError := false;
      dateError := "";
      payload := None;
      if check.MissingField? {
        showError := true;
        errorMessage := RequiredFieldsMessage;
      } else if check.PastDate? {
        dateError := FutureDateMessage;
      } else {
        payload := Some(CreateEventDto(check.title, check.description, check.date, check.time, check.location));
        showSuccess := true;
        pendingResets := pendingResets + 1;
      }
    }

    /** One armed timer fires: the form is reset and `close` is emitted.
        Nothing happens when none is armed. */
    method ResetTimerElapsed()
      modifies this`title, this`date, this`time, this`location, this`description,
               this`showSuccess, this`showError, this`dateError, this`errorMessage,
               this`closeEmitted, this`pendingResets
      ensures old(pendingResets) > 0 ==>
                && title == "" && date == "" && time == "" && location == "" && description == ""
                && !showSuccess && !showError && dateError == "" && errorMessage == ""
                && closeEmitted == old(closeEmitted) + 1
      ensures old(pendingResets) == 0 ==>
                && title == old(title) && date == old(date) && time == old(time)
                && location == old(location) && description == old(description)
                && showSuccess == old(showSuccess) && showError == old(showError)
                && dateError == old(dateError) && errorMessage == old(errorMessage)
                && closeEmitted == old(closeEmitted)
      ensures pendingResets == if old(pendingResets) > 0 then old(pendingResets) - 1 else 0
    {
      if pendingResets > 0 {
        ResetForm();
        CloseModal();
        pendingResets := pendingResets - 1;
      }
    }

    /** `resetForm`: empties the five fields and clears the flags and messages. */
    method ResetForm()
      modifies this`title, this`date, this`time, this`location, this`description,
               this`showSuccess, this`showError, this`dateError, this`errorMessage
      ensures title == "" && date == "" && time == "" && location == "" && description == ""
      ensures !showSuccess && !showError && dateError == "" && errorMessage == ""
    {
      title, date, time, location, description := "", "", "", "", "";
      showSuccess, showError, dateError, errorMessage := false, false, "", "";
    }
  }
}
