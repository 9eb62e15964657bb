/** The validation that the create and edit modals run before they accept an
    event: trimmed text fields must be non-empty, date and time must be
    filled in, and the date must not lie before today. */
module EventForm {

  import opened Base
  import opened Text

  /** The verdict of the form check. `Accepted` carries the values that go
      into the payload: title, location and description trimmed, date and
      time as entered. */
  datatype FormCheck =
    | MissingField
    | PastDate
    | Accepted(title: string, date: string, time: string, location: string, description: string)

  const RequiredFieldsMessage: string := "Please fill in all required fields"
  const FutureDateMessage: string := "Please select a future date"

  /** `parse` stands for `new Date(·)` (`None` is an Invalid Date) and
      `today` for today's midnight. */
  function CheckForm(title: string, date: string, time: string, location: string, description: string,
                     parse: string -> Option<int>, today: int): (r: FormCheck)
    ensures r.MissingField? <==>
              Trim(title) == "" || date == "" || time == "" || Trim(location) == "" || Trim(description) == ""
    ensures r.Accepted? ==>
              && r == Accepted(Trim(title), date, time, Trim(location), Trim(description))
              && r.title != "" && r.date != "" && r.time != "" && r.location != "" && r.description != ""
              && !BeforeToday(parse(r.date), today)
    ensures r.PastDate? ==> BeforeToday(parse(date), today)
  {
    var t, l, d := Trim(title), Trim(location), Trim(description);
    if t == "" || date == "" || time == "" || l == "" || d == "" then MissingField
    else if BeforeToday(parse(date), today) then PastDate
    else Accepted(t, date, time, l, d)
  }

  /** The three verdicts: a missing field when a text field is blank (only
      white space) or the date or time is empty; otherwise a past date when
      the date parses to a day before today; otherwise acceptance of the
      trimmed values, none of them empty and the date not in the past. */
  lemma CheckFormVerdicts(title: string, date: string, time: string, location: string, description: string,
                          parse: string -> Option<int>, today: int)
    ensures var r := CheckForm(title, date, time, location, description, parse, today);
            && (r.MissingField? <==>
                  AllSpace(title) || date == "" || time == "" || AllSpace(location) || AllSpace(description))
            && (r.PastDate? <==>
                  !AllSpace(title) && date != "" && time != "" && !AllSpace(location) && !AllSpace(description)
                  && BeforeToday(parse(date), today))
            && (r.Accepted? ==>
                  r == Accepted(Trim(title), date, time, Trim(location), Trim(description))
                  && r.title != "" && r.date != "" && r.time != "" && r.location != "" && r.description != ""
                  && !BeforeToday(parse(r.date), today))
  {
    TrimEmptyIffAllSpace(title);
    TrimEmptyIffAllSpace(location);
    TrimEmptyIffAllSpace(description);
  }
}
