/** The records exchanged with the server and the list view model. */
module Models {

  import opened Base

  /** A user record; `dbId` is the server's `_id`, `id` its alternative name. */
  datatype User = User(dbId: Option<string>, id: Option<string>, name: string, email: string)

  /** An attendee's answer: 'Going', 'Maybe', 'Not Going' or 'Pending'. */
  datatype AttendeeStatus = Going | Maybe | NotGoing | Pending

  /** The role an attendee record carries: 'organizer' or 'attendee'. */
  datatype Role = Organizer | AttendeeRole

  /** The string value of a role, as the view model holds it. */
  function RoleName(role: Role): string
  {
    match role
    case Organizer => "organizer"
    case AttendeeRole => "attendee"
  }

  datatype Attendee = Attendee(user: User, status: AttendeeStatus, role: Role, dbId: Option<string>)

  /** An event as the server sends it (`EventDTO`); the unused `createdAt` and
      `updatedAt` stamps are omitted. */
  datatype EventDTO = EventDTO(
    dbId: string,
    title: string,
    description: Option<string>,
    date: string,
    time: string,
    location: string,
    organizer: User,
    attendees: seq<Attendee>)

  /** The body of a create request. The optional `description` is always
      supplied by the callers in this model. */
  datatype CreateEventDto = CreateEventDto(
    title: string,
    description: string,
    date: string,
    time: string,
    location: string)

  /** The answer shown in the list: 'going', 'maybe' or 'notgoing'. */
  datatype Rsvp = RsvpGoing | RsvpMaybe | RsvpNotGoing

  /** The string value of an answer, as the view model holds it. */
  function RsvpName(r: Rsvp): string
  {
    match r
    case RsvpGoing => "going"
    case RsvpMaybe => "maybe"
    case RsvpNotGoing => "notgoing"
  }

  datatype OrganizerInfo = OrganizerInfo(id: string, name: string, email: string)

  /** One row of the event list, computed on the client only. */
  datatype EventViewModel = EventViewModel(
    id: string,
    title: string,
    date: string,
    time: string,
    location: string,
    description: string,
    organizer: OrganizerInfo,
    attendees: seq<Attendee>,
    userRole: Role,
    userRSVP: Option<Rsvp>)
}
