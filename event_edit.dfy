/** The edit modal (`EventEdit`): it is opened with the event's current data,
    validates the edited fields and hands the result to its parent through
    its `save` output, then asks to be closed through its `close` output. */
module EventEditModal {

  import opened Base
  import opened EventForm

  /** The `eventData` input; every property may be missing. */
  datatype EditInput = EditInput(
    title: Option<string>,
    date: Option<string>,
    time: Option<string>,
    location: Option<string>,
    description: Option<string>,
    attendees: Option<seq<string>>)

  /** What `save` emits. */
  datatype EditPayload = EditPayload(
    title: string,
    date: string,
    time: string,
    location: string,
    description: string,
    attendees: seq<string>)

  /** One emission on the component's outputs. */
  datatype Emission = Saved(payload: EditPayload) | Closed

  class EventEdit {
    var eventId: string
    var eventData: Option<EditInput>

    var showSuccess: bool
    var showError: bool
    var errorMessage: string
    var dateError: string
    var isLoading: bool
    var attendees: seq<string>
    var attendeeEmail: string

    var title: string
    var date: string
    var time: string
    var location: string
    var description: string

    /** Everything emitted on `save` and `close`, oldest first. */
    var emitted: seq<Emission>
    /** The payloads of the armed first timers of `handleUpdateEvent`, in the
        order they were armed (they share one delay, so they fire in that order). */
    var pendingSaves: seq<EditPayload>
    /** How many nested closing timers are armed. */
    var pendingCloses: nat

    /** The parent's inputs are bound before `ngOnInit` runs. */
    constructor (eventId: string, eventData: Option<EditInput>)
      ensures this.eventId == eventId && this.eventData == eventData
      ensures !showSuccess && !showError && errorMessage == "" && dateError == "" && !isLoading
      ensures attendees == [] && attendeeEmail == ""
      ensures title == "" && date == "" && time == "" && location == "" && description == ""
      ensures emitted == [] && pendingSaves == [] && pendingCloses == 0
    {
      this.eventId, this.eventData := eventId, eventData;
      showSuccess, showError, errorMessage, dateError, isLoading := false, false, "", "", false;
      attendees, attendeeEmail := [], "";
      title, date, time, location, description := "", "", "", "", "";
      emitted, pendingSaves, pendingCloses := [], [], 0;
    }

    /** `ngOnInit`: pre-populates the form from `eventData`, each missing or
        empty field becoming `''` and the attendee list a copy or `[]`. */
    method NgOnInit()
      modifies this`title, this`date, this`time, this`location, this`description, this`attendees
      ensures eventData.None? ==>
                title == old(title) && date == old(date) && time == old(time) && location == old(location)
                && description == old(description) && attendees == old(attendees)
      ensures eventData.Some? ==>
                var d := eventData.value;
                title == OrElse(d.title, "") && date == OrElse(d.date, "") && time == OrElse(d.time, "")
                && location == OrElse(d.location, "") && description == OrElse(d.description, "")
                && attendees == (if d.attendees.Some? then d.attendees.value else [])
    {
      if eventData.Some? {
        var d := eventData.value;
        title := OrElse(d.title, "");
        date := OrElse(d.date, "");
        time := OrElse(d.time, "");
        location := OrElse(d.location, "");
        description := OrElse(d.description, "");
        attendees := if d.attendees.Some? then d.attendees.value else [];
      }
    }

    /** `closeModal`: emits on `close`. */
    method CloseModal()
      modifies this`emitted
      ensures emitted == old(emitted) + [Closed]
    {
      emitted := emitted + [Closed];
    }

    /** The verdict of the form check on the current field values. */
    function Check(parse: string -> Option<int>, today: int): FormCheck
      reads this`title, this`date, this`time, this`location, this`description
    {
      CheckForm(title, date, time, location, description, parse, today)
    }

    /** The emitted object: the checked fields and the current attendee list. */
    function Payload(check: FormCheck): EditPayload
      requires check.Accepted?
      reads this`attendees
    {
      EditPayload(check.title, check.date, check.time, check.location, check.description, attendees)
    }

    /** `handleUpdateEvent`: clears both errors, then reports a missing field
        or a past date and stops, or else shows the success state and arms one
        more timer that later emits the payload it returns. */
    method HandleUpdateEvent(parse: string -> Option<int>, today: int) returns (payload: Option<EditPayload>)
      modifies this`showError, this`errorMessage, this`dateError, this`isLoading, this`showSuccess, this`pendingSaves
      ensures var check := old(Check(parse, today));
              && showError == check.MissingField?
              && errorMessage == (if check.MissingField? then RequiredFieldsMessage else old(errorMessage))
              && dateError == (if check.PastDate? then FutureDateMessage else "")
              && payload == (if check.Accepted? then Some(Payload(check)) else None)
              && isLoading == (check.Accepted? || old(isLoading))
              && showSuccess == (check.Accepted? || old(showSuccess))
              && pendingSaves == old(pendingSaves) + if check.Accepted? then [payload.value] else []
    {
      var check := Check(parse, today);
      showError := false;
      dateError := "";
      payload := None;
      if check.MissingField? {
        showError := true;
        errorMessage := RequiredFieldsMessage;
      } else if check.PastDate? {
        dateError := FutureDateMessage;
      } else {
        payload := Some(Payload(check));
        isLoading := true;
        showSuccess := true;
        pendingSaves := pendingSaves + [payload.value];
      }
    }

    /** The oldest armed first timer fires: its payload is emitted on `save`,
        loading ends and one more closing timer is armed. Nothing happens when
        no such timer is armed. */
    method SaveTimerElapsed()
      modifies this`emitted, this`isLoading, this`pendingSaves, this`pendingCloses
      ensures old(pendingSaves) == [] ==>
                emitted == old(emitted) && isLoading == old(isLoading) && pendingSaves == []
                && pendingCloses == old(pendingCloses)
      ensures old(pendingSaves) != [] ==>
                emitted == old(emitted) + [Saved(old(pendingSaves)[0])] && !isLoading
                && pendingSaves == old(pendingSaves)[1..] && pendingCloses == old(pendingCloses) + 1
    {
      if pendingSaves != [] {
        emitted := emitted + [Saved(pendingSaves[0])];
        isLoading := false;
        pendingSaves := pendingSaves[1..];
        pendingCloses := pendingCloses + 1;
      }
    }

    /** One armed nested timer fires and the modal asks to be closed. Nothing
        happens when none is armed. */
    method CloseTimerElapsed()
      modifies this`emitted, this`pendingCloses
      ensures emitted == old(emitted) + (if old(pendingCloses) > 0 then [Closed] else [])
      ensures pendingCloses == if old(pendingCloses) > 0 then old(pendingCloses) - 1 else 0
    {
      if pendingCloses > 0 {
        CloseModal();
        pendingCloses := pendingCloses - 1;
      }
    }
  }

  /** Two accepted submits arm two timers each way: once all of them have
      fired, `save` has been emitted twice, carrying the same payload, and
      `close` twice. */
  method TwoSubmitsEmitTwice(e: EventEdit, parse: string -> Option<int>, today: int) returns (p: EditPayload)
    requires e.Check(parse, today).Accepted? && e.pendingSaves == [] && e.pendingCloses == 0
    modifies e
    ensures p == old(e.Payload(e.Check(parse, today)))
    ensures e.emitted == old(e.emitted) + [Saved(p), Saved(p), Closed, Closed]
    ensures e.pendingSaves == [] && e.pendingCloses == 0
  {
    var first := e.HandleUpdateEvent(parse, today);
    p := first.value;
    var second := e.HandleUpdateEvent(parse, today);
    assert second == first;
    e.SaveTimerElapsed();
    e.SaveTimerElapsed();
    e.CloseTimerElapsed();
    e.CloseTimerElapsed();
  }
}
