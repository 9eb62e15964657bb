/** The event list page (`EventList`): it projects the server's events into
    view models, filters them by a search text and an RSVP choice, and keeps
    the create, edit and delete modals' state. */
module EventListPage {

  import opened Base
  import opened Text
  import opened Seqs
  import opened Models
  import Session
  import EventForm
  import EventEditModal

  // ---------------------------------------------------------------------
  // Projection of server events into view models

  /** `att.user._id === uid || att.user.id === uid` */
  predicate IsCurrentUser(att: Attendee, uid: string)
  {
    att.user.dbId == Some(uid) || att.user.id == Some(uid)
  }

  /** Index `i` holds the current user's first attendee record. */
  predicate IsFirstMatch(atts: seq<Attendee>, uid: string, i: int)
  {
    0 <= i < |atts| && IsCurrentUser(atts[i], uid)
    && forall j :: 0 <= j < i ==> !IsCurrentUser(atts[j], uid)
  }

  /** The first index at or after `k` that holds a record of the current user. */
  function FindFrom(atts: seq<Attendee>, uid: string, k: nat): (r: Option<nat>)
    requires k <= |atts|
    ensures r.Some? ==> k <= r.value < |atts| && IsCurrentUser(atts[r.value], uid)
                        && forall j :: k <= j < r.value ==> !IsCurrentUser(atts[j], uid)
    ensures r.None? ==> forall j :: k <= j < |atts| ==> !IsCurrentUser(atts[j], uid)
    decreases |atts| - k
  {
    if k == |atts| then None
    else if IsCurrentUser(atts[k], uid) then Some(k)
    else FindFrom(atts, uid, k + 1)
  }

  /** `event.attendees.find(...)`: the current user's first attendee record,
      or `undefined` when the user has none. */
  function FindCurrentAttendee(atts: seq<Attendee>, uid: string): (r: Option<Attendee>)
    ensures forall i :: IsFirstMatch(atts, uid, i) ==> r == Some(atts[i])
    ensures r.None? <==> forall j :: 0 <= j < |atts| ==> !IsCurrentUser(atts[j], uid)
  {
    var found := FindFrom(atts, uid, 0);
    if found.Some? then Some(atts[found.value]) else None
  }

  /** The status table: `Going`, `Maybe` and `Not Going` have an answer,
      `Pending` maps to `undefined`. */
  function StatusToRsvp(s: AttendeeStatus): (r: Option<Rsvp>)
    ensures r == None <==> s == Pending
    ensures s == Going ==> r == Some(RsvpGoing)
    ensures s == Maybe ==> r == Some(RsvpMaybe)
    ensures s == NotGoing ==> r == Some(RsvpNotGoing)
  {
    match s
    case Going => Some(RsvpGoing)
    case Maybe => Some(RsvpMaybe)
    case NotGoing => Some(RsvpNotGoing)
    case Pending => None
  }

  /** One event of `transformEvents`. The role and the answer come from the
      current user's first attendee record only; the organizer's id is never
      compared with the current user. */
  function TransformEvent(ev: EventDTO, uid: string): (r: EventViewModel)
    ensures r.id == ev.dbId && r.title == ev.title && r.date == ev.date && r.time == ev.time
    ensures r.location == ev.location && r.attendees == ev.attendees
    ensures ev.description.Some? ==> r.description == ev.description.value
    ensures ev.description.None? ==> r.description == ""
    ensures r.organizer.name == ev.organizer.name && r.organizer.email == ev.organizer.email
    ensures r.organizer.id == OrElse(ev.organizer.dbId, OrElse(ev.organizer.id, ""))
    ensures forall i :: IsFirstMatch(ev.attendees, uid, i) ==>
              r.userRole == ev.attendees[i].role && r.userRSVP == StatusToRsvp(ev.attendees[i].status)
    ensures (forall j :: 0 <= j < |ev.attendees| ==> !IsCurrentUser(ev.attendees[j], uid)) ==>
              r.userRole == AttendeeRole && r.userRSVP == None
  {
    var att := FindCurrentAttendee(ev.attendees, uid);
    EventViewModel(
      ev.dbId, ev.title, ev.date, ev.time, ev.location,
      OrElse(ev.description, ""),
      OrganizerInfo(OrElse(ev.organizer.dbId, OrElse(ev.organizer.id, "")), ev.organizer.name, ev.organizer.email),
      ev.attendees,
      if att.Some? then att.value.role else AttendeeRole,
      if att.Some? then StatusToRsvp(att.value.status) else None)
  }

  /** `transformEvents`: one view model per event, in the same order. */
  function TransformEvents(apiEvents: seq<EventDTO>, uid: string): (r: seq<EventViewModel>)
    ensures |r| == |apiEvents|
    ensures forall k :: 0 <= k < |apiEvents| ==> r[k] == TransformEvent(apiEvents[k], uid)
  {
    seq(|apiEvents|, k requires 0 <= k < |apiEvents| => TransformEvent(apiEvents[k], uid))
  }

  /** The answer is absent exactly when the user has no record or the first
      record is still `Pending`. */
  lemma RsvpAbsentIff(ev: EventDTO, uid: string)
    ensures TransformEvent(ev, uid).userRSVP == None <==>
              (forall j :: 0 <= j < |ev.attendees| ==> !IsCurrentUser(ev.attendees[j], uid))
              || (exists i :: IsFirstMatch(ev.attendees, uid, i) && ev.attendees[i].status == Pending)
  {
    var found := FindFrom(ev.attendees, uid, 0);
    if found.Some? {
      assert IsFirstMatch(ev.attendees, uid, found.value);
    }
  }

  /** Being the organizer of an event does not make the user its organizer
      in the list: without an attendee record the role is `attendee`. */
  lemma OrganizerIdIgnored(ev: EventDTO, uid: string)
    requires ev.organizer.dbId == Some(uid)
    requires forall j :: 0 <= j < |ev.attendees| ==> !IsCurrentUser(ev.attendees[j], uid)
    ensures TransformEvent(ev, uid).userRole == AttendeeRole
  {
  }

  /** Three events for user "u1": organizer by record, invited and answering
      'Maybe', and not invited; they are labelled 'Organizer', 'Maybe' and
      'No Response'. */
  lemma RolesScenario()
    ensures var me := User(Some("u1"), None, "Ann", "ann@example.com");
            var other := User(Some("u2"), None, "Bob", "bob@example.com");
            var mk := (id: string, atts: seq<Attendee>) =>
                        EventDTO(id, "T", None, "2030-01-01", "10:00", "Hall", other, atts);
            var shown := TransformEvents([
                           mk("e1", [Attendee(me, Going, Organizer, None)]),
                           mk("e2", [Attendee(other, Going, Organizer, None), Attendee(me, Maybe, AttendeeRole, None)]),
                           mk("e3", [Attendee(other, Going, Organizer, None)])], "u1");
            && |shown| == 3
            && shown[0].userRole == Organizer && shown[0].userRSVP == Some(RsvpGoing)
            && shown[1].userRole == AttendeeRole && shown[1].userRSVP == Some(RsvpMaybe)
            && shown[2].userRole == AttendeeRole && shown[2].userRSVP == None
            && GetRSVPLabel(shown[0]) == "Organizer" && GetRSVPLabel(shown[1]) == "Maybe"
            && GetRSVPLabel(shown[2]) == "No Response"
  {
  }

  // ---------------------------------------------------------------------
  // Search and RSVP filter

  /** The RSVP selector: `'all'` or one answer. */
  datatype RsvpFilter = All | Only(rsvp: Rsvp)

  /** The search test, for an already lower-cased query: lower-cased title,
      description, location or role, or the raw date, includes the query. */
  predicate MatchesQuery(ev: EventViewModel, query: string)
  {
    || Includes(ToLower(ev.title), query)
    || Includes(ToLower(ev.description), query)
    || Includes(ToLower(ev.location), query)
    || Includes(ev.date, query)
    || Includes(ToLower(RoleName(ev.userRole)), query)
  }

  function SearchPredicate(query: string): EventViewModel -> bool
  {
    (ev: EventViewModel) => MatchesQuery(ev, query)
  }

  function RsvpPredicate(rsvp: Rsvp): EventViewModel -> bool
  {
    (ev: EventViewModel) => ev.userRSVP == Some(rsvp)
  }

  /** Whether `applyFilters` keeps an event: a blank query keeps everything,
      otherwise the lower-cased (untrimmed) query must match; and `'all'`
      keeps everything, otherwise the event's answer must be the chosen one. */
  predicate Retained(ev: EventViewModel, searchQuery: string, filter: RsvpFilter)
  {
    && (Trim(searchQuery) == "" || MatchesQuery(ev, ToLower(searchQuery)))
    && (filter.All? || ev.userRSVP == Some(filter.rsvp))
  }

  /** What `applyFilters` computes: the search pass, then the RSVP pass. */
  function Filtered(events: seq<EventViewModel>, searchQuery: string, filter: RsvpFilter): seq<EventViewModel>
  {
    var searched := if Trim(searchQuery) != "" then Filter(SearchPredicate(ToLower(searchQuery)), events) else events;
    if filter.Only? then Filter(RsvpPredicate(filter.rsvp), searched) else searched
  }

  /** The result keeps the input's order. */
  lemma FilteredIsSubsequence(events: seq<EventViewModel>, searchQuery: string, filter: RsvpFilter)
    ensures SubsequenceOf(Filtered(events, searchQuery, filter), events)
  {
    var searched := if Trim(searchQuery) != "" then Filter(SearchPredicate(ToLower(searchQuery)), events) else events;
    if Trim(searchQuery) != "" {
      FilterIsSubsequence(SearchPredicate(ToLower(searchQuery)), events);
    } else {
      SubsequenceOfSelf(events);
    }
    if filter.Only? {
      FilterIsSubsequence(RsvpPredicate(filter.rsvp), searched);
      SubsequenceTransitive(Filtered(events, searchQuery, filter), searched, events);
    }
  }

  /** Each event occurs in the result exactly as often as in the input when
      it is retained, and not at all otherwise. */
  lemma FilteredCount(events: seq<EventViewModel>, searchQuery: string, filter: RsvpFilter, ev: EventViewModel)
    ensures multiset(Filtered(events, searchQuery, filter))[ev] ==
              if Retained(ev, searchQuery, filter) then multiset(events)[ev] else 0
  {
    var searched := if Trim(searchQuery) != "" then Filter(SearchPredicate(ToLower(searchQuery)), events) else events;
    if Trim(searchQuery) != "" {
      FilterCount(SearchPredicate(ToLower(searchQuery)), events, ev);
    }
    if filter.Only? {
      FilterCount(RsvpPredicate(filter.rsvp), searched, ev);
    }
  }

  /** An event is shown exactly when it is in the list and retained. */
  lemma FilteredMembership(events: seq<EventViewModel>, searchQuery: string, filter: RsvpFilter, ev: EventViewModel)
    ensures ev in Filtered(events, searchQuery, filter) <==> ev in events && Retained(ev, searchQuery, filter)
  {
    FilteredCount(events, searchQuery, filter, ev);
  }

  /** A blank query with `'all'` shows the whole list. */
  lemma FilteredShowsAll(events: seq<EventViewModel>, searchQuery: string)
    requires AllSpace(searchQuery)
    ensures Filtered(events, searchQuery, All) == events
  {
    TrimEmptyIffAllSpace(searchQuery);
  }

  /** Under a non-blank query, every shown event contains the lower-cased
      query at some index of one of the searched fields. */
  lemma ShownEventsContainQuery(events: seq<EventViewModel>, searchQuery: string, filter: RsvpFilter, ev: EventViewModel)
    requires !AllSpace(searchQuery)
    requires ev in Filtered(events, searchQuery, filter)
    ensures var q := ToLower(searchQuery);
            || (exists i :: OccursAt(ToLower(ev.title), q, i))
            || (exists i :: OccursAt(ToLower(ev.description), q, i))
            || (exists i :: OccursAt(ToLower(ev.location), q, i))
            || (exists i :: OccursAt(ev.date, q, i))
            || (exists i :: OccursAt(ToLower(RoleName(ev.userRole)), q, i))
  {
    TrimEmptyIffAllSpace(searchQuery);
    FilteredMembership(events, searchQuery, filter, ev);
    var q := ToLower(searchQuery);
    IncludesIffOccurs(ToLower(ev.title), q);
    IncludesIffOccurs(ToLower(ev.description), q);
    IncludesIffOccurs(ToLower(ev.location), q);
    IncludesIffOccurs(ev.date, q);
    IncludesIffOccurs(ToLower(RoleName(ev.userRole)), q);
  }

  /** Searching for "workshop" finds it at index 14 of the lower-cased
      title "Team Building Workshop". */
  lemma WorkshopTitleMatches(ev: EventViewModel)
    requires ev.title == "Team Building Workshop"
    ensures MatchesQuery(ev, "workshop")
  {
    var t := ToLower(ev.title);
    LowerSlice(ev.title, 14, 22);
    assert ev.title[14..22] == "Workshop";
    assert ToLower("Workshop") == "workshop";
    assert OccursAt(t, "workshop", 14);
    IncludesIffOccurs(t, "workshop");
  }

  /** No searched field of an event titled "Kickoff Meeting" whose other
      fields have no 'w' in either case can match "workshop": none has a 'w'
      once lower-cased. */
  lemma KickoffMisses(ev: EventViewModel)
    requires ev.title == "Kickoff Meeting" && 'w' !in ev.date
    requires 'w' !in ev.description && 'W' !in ev.description
    requires 'w' !in ev.location && 'W' !in ev.location
    ensures !MatchesQuery(ev, "workshop")
  {
    var q := "workshop";
    assert q[0] == 'w';
    LowerLacks(ev.title, 'w');
    LowerLacks(ev.description, 'w');
    LowerLacks(ev.location, 'w');
    LowerLacks(RoleName(ev.userRole), 'w');
    MissingCharNotIncluded(ToLower(ev.title), q, 'w');
    MissingCharNotIncluded(ToLower(ev.description), q, 'w');
    MissingCharNotIncluded(ToLower(ev.location), q, 'w');
    MissingCharNotIncluded(ev.date, q, 'w');
    MissingCharNotIncluded(ToLower(RoleName(ev.userRole)), q, 'w');
  }

  /** The query "workshop" over "Team Building Workshop" and "Kickoff
      Meeting" shows the first event only. */
  lemma WorkshopSearch(first: EventViewModel, second: EventViewModel)
    requires first.title == "Team Building Workshop"
    requires second.title == "Kickoff Meeting" && 'w' !in second.date
    requires 'w' !in second.description && 'W' !in second.description
    requires 'w' !in second.location && 'W' !in second.location
    ensures Filtered([first, second], "workshop", All) == [first]
  {
    var q := "workshop";
    assert !IsSpace(q[0]);
    TrimEmptyIffAllSpace(q);
    assert ToLower(q) == q;
    WorkshopTitleMatches(first);
    KickoffMisses(second);
    FilterKeepsFirstOfTwo(SearchPredicate(q), first, second);
  }

  /** Under a chosen answer, every shown event carries that answer. */
  lemma ShownEventsHaveAnswer(events: seq<EventViewModel>, searchQuery: string, rsvp: Rsvp, ev: EventViewModel)
    requires ev in Filtered(events, searchQuery, Only(rsvp))
    ensures ev.userRSVP == Some(rsvp)
  {
    FilteredMembership(events, searchQuery, Only(rsvp), ev);
  }

  /** Filtering the filtered list again with the same settings changes nothing. */
  lemma FilteredIdempotent(events: seq<EventViewModel>, searchQuery: string, filter: RsvpFilter)
    ensures Filtered(Filtered(events, searchQuery, filter), searchQuery, filter) == Filtered(events, searchQuery, filter)
  {
    var s := SearchPredicate(ToLower(searchQuery));
    if Trim(searchQuery) != "" {
      FilterIdempotent(s, events);
      if filter.Only? {
        var p := RsvpPredicate(filter.rsvp);
        calc {
          Filter(p, Filter(s, Filter(p, Filter(s, events))));
        ==  { FilterCommute(p, s, Filter(p, Filter(s, events))); }
          Filter(s, Filter(p, Filter(p, Filter(s, events))));
        ==  { FilterIdempotent(p, Filter(s, events)); }
          Filter(s, Filter(p, Filter(s, events)));
        ==  { FilterCommute(s, p, Filter(s, events)); }
          Filter(p, Filter(s, Filter(s, events)));
        ==  { FilterIdempotent(s, events); }
          Filter(p, Filter(s, events));
        }
      }
    } else if filter.Only? {
      FilterIdempotent(RsvpPredicate(filter.rsvp), events);
    }
  }

  // ---------------------------------------------------------------------
  // Badges and labels

  /** `getRSVPBadgeClass`: no answer shows the organizer badge, a known
      answer its own badge, anything else no class. */
  function GetRSVPBadgeClass(rsvp: Option<string>): (r: string)
    ensures !Truthy(rsvp) ==> r == "badge-organizer"
    ensures forall a :: rsvp == Some(RsvpName(a)) ==> r == "badge-" + RsvpName(a)
    ensures Truthy(rsvp) && (forall a :: rsvp != Some(RsvpName(a))) ==> r == ""
  {
    assert RsvpName(RsvpGoing) == "going" && RsvpName(RsvpMaybe) == "maybe" && RsvpName(RsvpNotGoing) == "notgoing";
    if !Truthy(rsvp) then "badge-organizer"
    else if rsvp.value in {"going", "maybe", "notgoing"} then "badge-" + rsvp.value
    else ""
  }

  /** The table of answer labels. */
  function RsvpLabel(rsvp: Rsvp): string
  {
    match rsvp
    case RsvpGoing => "Going"
    case RsvpMaybe => "Maybe"
    case RsvpNotGoing => "Not Going"
  }

  /** `getRSVPLabel`: organizers see 'Organizer' whatever their answer, others
      'No Response' without an answer and the answer's label otherwise; the
      'Unknown' fallback cannot be reached. */
  function GetRSVPLabel(ev: EventViewModel): (r: string)
    ensures r == "Organizer" <==> ev.userRole == Organizer
    ensures ev.userRole != Organizer && ev.userRSVP == None ==> r == "No Response"
    ensures ev.userRole != Organizer && ev.userRSVP.Some? ==> r == RsvpLabel(ev.userRSVP.value)
    ensures r != "Unknown"
  {
    if ev.userRole == Organizer then "Organizer"
    else if ev.userRSVP.None? then "No Response"
    else RsvpLabel(ev.userRSVP.value)
  }

  // ---------------------------------------------------------------------
  // The page component

  /** The list page's own create form checks the fields untrimmed. */
  function CheckNewEvent(title: string, date: string, time: string, location: string, description: string,
                         parse: string -> Option<int>, today: int): (r: EventForm.FormCheck)
    ensures r.MissingField? <==> title == "" || date == "" || time == "" || location == "" || description == ""
    ensures r.PastDate? <==>
              title != "" && date != "" && time != "" && location != "" && description != ""
              && BeforeToday(parse(date), today)
    ensures r.Accepted? ==>
              r == EventForm.Accepted(title, date, time, location, description) && !BeforeToday(parse(date), today)
  {
    if title == "" || date == "" || time == "" || location == "" || description == "" then EventForm.MissingField
    else if BeforeToday(parse(date), today) then EventForm.PastDate
    else EventForm.Accepted(title, date, time, location, description)
  }

  const CreateFailedMessage: string := "Failed to create event. Please try again."

  /** The body of an update request: the event's id and the edited data. */
  datatype UpdateRequest = UpdateRequest(id: string, data: EventEditModal.EditPayload)

  class EventList {
    const authService: Session.AuthService
    /** Declared for role determination but never assigned. */
    const currentUserId: string

    var events: seq<EventViewModel>
    var filteredEvents: seq<EventViewModel>
    var isLoading: bool
    var sidebarExpanded: bool

    var searchQuery: string
    var filterRSVP: RsvpFilter

    var showCreateModal: bool
    var showEditModal: bool
    var showDeleteConfirm: bool
    var selectedEvent: Option<EventViewModel>

    var newEventTitle: string
    var newEventDate: string
    var newEventTime: string
    var newEventLocation: string
    var newEventDescription: string
    var createError: string
    var dateError: string

    /** The navigations requested from the router, oldest first. */
    var navigations: seq<seq<string>>
    /** How many times `loadEvents` has sent its request for the events. */
    var loadRequests: nat

    constructor (authService: Session.AuthService)
      ensures this.authService == authService && currentUserId == ""
      ensures events == [] && filteredEvents == [] && isLoading && !sidebarExpanded
      ensures searchQuery == "" && filterRSVP == All
      ensures !showCreateModal && !showEditModal && !showDeleteConfirm && selectedEvent == None
      ensures CreateFormCleared() && navigations == [] && loadRequests == 0
    {
      this.authService := authService;
      currentUserId := "";
      events, filteredEvents, isLoading, sidebarExpanded := [], [], true, false;
      searchQuery, filterRSVP := "", All;
      showCreateModal, showEditModal, showDeleteConfirm, selectedEvent := false, false, false, None;
      newEventTitle, newEventDate, newEventTime, newEventLocation, newEventDescription := "", "", "", "", "";
      createError, dateError := "", "";
      navigations := [];
      loadRequests := 0;
    }

    /** All five create fields and both create errors are empty. */
    predicate CreateFormCleared()
      reads this`newEventTitle, this`newEventDate, this`newEventTime, this`newEventLocation,
            this`newEventDescription, this`createError, this`dateError
    {
      && newEventTitle == "" && newEventDate == "" && newEventTime == "" && newEventLocation == ""
      && newEventDescription == "" && createError == "" && dateError == ""
    }

    /** `loadEvents`, up to the answer: loading starts and the request for
        the events is sent once more. */
    method LoadEvents()
      modifies this`isLoading, this`loadRequests
      ensures isLoading && loadRequests == old(loadRequests) + 1
    {
      isLoading := true;
      loadRequests := loadRequests + 1;
    }

    /** `ngOnInit` loads the events. */
    method NgOnInit()
      modifies this`isLoading, this`loadRequests
      ensures isLoading && loadRequests == old(loadRequests) + 1
    {
      LoadEvents();
    }

    /** The answer to `loadEvents`' request. A body with events replaces the
        list by its projection and shows it unfiltered; a 401 ends the
        session and navigates to sign-in; loading ends in every case. */
    method EventsLoaded(reply: Reply<Option<seq<EventDTO>>>)
      modifies this`events, this`filteredEvents, this`isLoading, this`navigations, authService`token
      ensures !isLoading
      ensures reply.Ok? && reply.body.Some? ==>
                events == TransformEvents(reply.body.value, currentUserId) && filteredEvents == events
      ensures !(reply.Ok? && reply.body.Some?) ==>
                events == old(events) && filteredEvents == old(filteredEvents)
      ensures reply.Err? && reply.status == 401 ==>
                authService.GetToken() == None && !authService.IsLoggedIn()
                && navigations == old(navigations) + [["/auth"]]
      ensures !(reply.Err? && reply.status == 401) ==>
                authService.token == old(authService.token) && navigations == old(navigations)
    {
      match reply
      case Ok(body) =>
        if body.Some? {
          events := TransformEvents(body.value, currentUserId);
          filteredEvents := events;
        }
        isLoading := false;
      case Err(status, _) =>
        isLoading := false;
        if status == 401 {
          authService.Logout();
          navigations := navigations + [["/auth"]];
        }
    }

    /** `toggleSidebar`. */
    method ToggleSidebar()
      modifies this`sidebarExpanded
      ensures sidebarExpanded == !old(sidebarExpanded)
    {
      sidebarExpanded := !sidebarExpanded;
    }

    /** `navigateToDetails`. */
    method NavigateToDetails(eventId: string)
      modifies this`navigations
      ensures navigations == old(navigations) + [["/event-details", eventId]]
    {
      navigations := navigations + [["/event-details", eventId]];
    }

    /** `applyFilters`: the shown list becomes the stable filter of the list
        by the current query and RSVP choice. */
    method ApplyFilters()
      modifies this`filteredEvents
      ensures filteredEvents == Filtered(events, searchQuery, filterRSVP)
      ensures SubsequenceOf(filteredEvents, events)
      ensures forall ev :: ev in filteredEvents <==> ev in events && Retained(ev, searchQuery, filterRSVP)
    {
      var filtered := events;
      if Trim(searchQuery) != "" {
        var query := ToLower(searchQuery);
        filtered := Filter(SearchPredicate(query), filtered);
      }
      if filterRSVP.Only? {
        filtered := Filter(RsvpPredicate(filterRSVP.rsvp), filtered);
      }
      filteredEvents := filtered;
      FilteredIsSubsequence(events, searchQuery, filterRSVP);
      forall ev ensures ev in filteredEvents <==> ev in events && Retained(ev, searchQuery, filterRSVP) {
        FilteredMembership(events, searchQuery, filterRSVP, ev);
      }
    }

    /** `onSearchChange`, run after the query field changed. */
    method OnSearchChange()
      modifies this`filteredEvents
      ensures filteredEvents == Filtered(events, searchQuery, filterRSVP)
    {
      ApplyFilters();
    }

    /** `onFilterChange`, run after the RSVP choice changed. */
    method OnFilterChange()
      modifies this`filteredEvents
      ensures filteredEvents == Filtered(events, searchQuery, filterRSVP)
    {
      ApplyFilters();
    }

    /** `resetCreateForm`. */
    method ResetCreateForm()
      modifies this`newEventTitle, this`newEventDate, this`newEventTime, this`newEventLocation,
               this`newEventDescription, this`createError, this`dateError
      ensures CreateFormCleared()
    {
      newEventTitle, newEventDate, newEventTime, newEventLocation, newEventDescription := "", "", "", "", "";
      createError, dateError := "", "";
    }

    /** `openCreateModal`. */
    method OpenCreateModal()
      modifies this`showCreateModal, this`newEventTitle, this`newEventDate, this`newEventTime,
               this`newEventLocation, this`newEventDescription, this`createError, this`dateError
      ensures showCreateModal && CreateFormCleared()
    {
      showCreateModal := true;
      ResetCreateForm();
    }

    /** `closeCreateModal`. */
    method CloseCreateModal()
      modifies this`showCreateModal, this`newEventTitle, this`newEventDate, this`newEventTime,
               this`newEventLocation, this`newEventDescription, this`createError, this`dateError
      ensures !showCreateModal && CreateFormCleared()
    {
      showCreateModal := false;
      ResetCreateForm();
    }

    /** The verdict of the list's create form on its current fields. */
    function CreateCheck(parse: string -> Option<int>, today: int): EventForm.FormCheck
      reads this`newEventTitle, this`newEventDate, this`newEventTime, this`newEventLocation,
            this`newEventDescription
    {
      CheckNewEvent(newEventTitle, newEventDate, newEventTime, newEventLocation, newEventDescription, parse, today)
    }

    /** `createEvent`, with the server's answer as an input. Both errors are
        cleared first. An empty field or a past date sets its error and sends
        nothing. Otherwise the five fields are sent; success reloads the list
        and closes the modal, failure shows the server's message or a
        fallback. */
    method CreateEvent(parse: string -> Option<int>, today: int, reply: Reply<()>)
      returns (request: Option<CreateEventDto>)
      modifies this`newEventTitle, this`newEventDate, this`newEventTime, this`newEventLocation,
               this`newEventDescription, this`createError, this`dateError, this`isLoading, this`showCreateModal,
               this`loadRequests
      ensures old(CreateCheck(parse, today)).MissingField? <==>
                old(newEventTitle) == "" || old(newEventDate) == "" || old(newEventTime) == ""
                || old(newEventLocation) == "" || old(newEventDescription) == ""
      ensures old(CreateCheck(parse, today)).MissingField? ==>
                request == None && createError == EventForm.RequiredFieldsMessage && dateError == ""
      ensures old(CreateCheck(parse, today)).PastDate? ==>
                request == None && createError == "" && dateError == EventForm.FutureDateMessage
      ensures !old(CreateCheck(parse, today)).Accepted? || reply.Err? ==>
                && newEventTitle == old(newEventTitle) && newEventDate == old(newEventDate)
                && newEventTime == old(newEventTime) && newEventLocation == old(newEventLocation)
                && newEventDescription == old(newEventDescription)
                && isLoading == old(isLoading) && showCreateModal == old(showCreateModal)
                && loadRequests == old(loadRequests)
      ensures old(CreateCheck(parse, today)).Accepted? ==>
                request == Some(CreateEventDto(old(newEventTitle), old(newEventDescription), old(newEventDate),
                                               old(newEventTime), old(newEventLocation)))
      ensures old(CreateCheck(parse, today)).Accepted? && reply.Ok? ==>
                isLoading && loadRequests == old(loadRequests) + 1 && !showCreateModal && CreateFormCleared()
      ensures old(CreateCheck(parse, today)).Accepted? && reply.Err? ==>
                createError == OrElse(reply.message, CreateFailedMessage) && dateError == ""
    {
      createError := "";
      dateError := "";
      request := None;
      var check := CreateCheck(parse, today);
      if check.MissingField? {
        createError := EventForm.RequiredFieldsMessage;
        return;
      }
      if check.PastDate? {
        dateError := EventForm.FutureDateMessage;
        return;
      }
      request := Some(CreateEventDto(newEventTitle, newEventDescription, newEventDate, newEventTime, newEventLocation));
      match reply
      case Ok(_) =>
        LoadEvents();
        CloseCreateModal();
      case Err(_, message) =>
        createError := OrElse(message, CreateFailedMessage);
    }

    /** `openEditModal`. */
    method OpenEditModal(ev: EventViewModel)
      modifies this`selectedEvent, this`showEditModal
      ensures selectedEvent == Some(ev) && showEditModal
    {
      selectedEvent := Some(ev);
      showEditModal := true;
    }

    /** `closeEditModal`. */
    method CloseEditModal()
      modifies this`selectedEvent, this`showEditModal
      ensures selectedEvent == None && !showEditModal
    {
      showEditModal := false;
      selectedEvent := None;
    }

    /** `saveEditedEvent`, with the server's answer as an input: without a
        selected event nothing is sent; otherwise the update is sent for the
        selected event, and success reloads the list and closes the modal
        while failure only alerts. */
    method SaveEditedEvent(eventData: EventEditModal.EditPayload, reply: Reply<()>)
      returns (request: Option<UpdateRequest>)
      modifies this`selectedEvent, this`showEditModal, this`isLoading, this`loadRequests
      ensures old(selectedEvent).None? ==> request == None
      ensures old(selectedEvent).Some? ==> request == Some(UpdateRequest(old(selectedEvent).value.id, eventData))
      ensures old(selectedEvent).Some? && reply.Ok? ==>
                isLoading && loadRequests == old(loadRequests) + 1 && selectedEvent == None && !showEditModal
      ensures old(selectedEvent).None? || reply.Err? ==>
                isLoading == old(isLoading) && loadRequests == old(loadRequests)
                && selectedEvent == old(selectedEvent) && showEditModal == old(showEditModal)
    {
      request := None;
      if selectedEvent.Some? {
        request := Some(UpdateRequest(selectedEvent.value.id, eventData));
        if reply.Ok? {
          LoadEvents();
          CloseEditModal();
        }
      }
    }

    /** `openDeleteConfirm`. */
    method OpenDeleteConfirm(ev: EventViewModel)
      modifies this`selectedEvent, this`showDeleteConfirm
      ensures selectedEvent == Some(ev) && showDeleteConfirm
    {
      selectedEvent := Some(ev);
      showDeleteConfirm := true;
    }

    /** `closeDeleteConfirm`. */
    method CloseDeleteConfirm()
      modifies this`selectedEvent, this`showDeleteConfirm
      ensures selectedEvent == None && !showDeleteConfirm
    {
      showDeleteConfirm := false;
      selectedEvent := None;
    }

    /** `confirmDelete`, with the server's answer as an input: the selected
        event's deletion is requested and the dialog closes whatever the
        answer; success also reloads the list. */
    method ConfirmDelete(reply: Reply<()>) returns (request: Option<string>)
      modifies this`selectedEvent, this`showDeleteConfirm, this`isLoading, this`loadRequests
      ensures old(selectedEvent).None? ==>
                request == None && selectedEvent == old(selectedEvent)
                && showDeleteConfirm == old(showDeleteConfirm) && isLoading == old(isLoading)
                && loadRequests == old(loadRequests)
      ensures old(selectedEvent).Some? ==>
                request == Some(old(selectedEvent).value.id) && selectedEvent == None && !showDeleteConfirm
                && isLoading == (reply.Ok? || old(isLoading))
                && loadRequests == old(loadRequests) + (if reply.Ok? then 1 else 0)
    {
      request := None;
      if selectedEvent.Some? {
        request := Some(selectedEvent.value.id);
        if reply.Ok? {
          LoadEvents();
        }
        CloseDeleteConfirm();
      }
    }

    /** `logout`: ends the session and navigates to sign-in. */
    method Logout()
      modifies authService`token, this`navigations
      ensures authService.GetToken() == None && !authService.IsLoggedIn()
      ensures navigations == old(navigations) + [["/auth"]]
    {
      authService.Logout();
      navigations := navigations + [["/auth"]];
    }
  }
}
