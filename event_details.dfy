/** The event details page (`EventDetails`): attendee counts, status badges
    and labels, the invite form with its email check, and local RSVP and
    attendee updates on the shown event. */
module EventDetailsPage {

  import opened Base
  import opened Text
  import opened Seqs
  import Models

  // ---------------------------------------------------------------------
  // The page's own records

  /** An attendee's status on this page: 'going' or 'pending' only. */
  datatype DetailStatus = StatusGoing | StatusPending

  function StatusName(s: DetailStatus): string
  {
    match s
    case StatusGoing => "going"
    case StatusPending => "pending"
  }

  datatype DetailAttendee = DetailAttendee(id: string, email: string, name: string, status: DetailStatus)

  /** The user's own answer on this page: 'going' or 'notgoing'. */
  datatype Answer = AnswerGoing | AnswerNotGoing

  datatype DetailEvent = DetailEvent(
    id: string,
    title: string,
    date: string,
    time: string,
    location: string,
    description: string,
    organizer: Models.OrganizerInfo,
    attendees: seq<DetailAttendee>,
    userRole: Models.Role,
    userRSVP: Option<Answer>)

  // ---------------------------------------------------------------------
  // Counts

  function HasStatus(s: DetailStatus): DetailAttendee -> bool
  {
    (a: DetailAttendee) => a.status == s
  }

  /** `attendees.filter(a => a.status === s).length` */
  function CountStatus(atts: seq<DetailAttendee>, s: DetailStatus): nat
  {
    |Filter(HasStatus(s), atts)|
  }

  /** Every attendee is either going or pending, so the two counts add up
      to the number of attendees. */
  lemma {:induction false} CountsCoverAttendees(atts: seq<DetailAttendee>)
    ensures CountStatus(atts, StatusGoing) + CountStatus(atts, StatusPending) == |atts|
  {
    if atts != [] {
      CountsCoverAttendees(atts[1..]);
    }
  }

  // ---------------------------------------------------------------------
  // Badges and labels

  /** `getStatusBadgeClass`: a known status has its own badge class, any
      other string none. */
  function GetStatusBadgeClass(status: string): (r: string)
    ensures forall s :: status == StatusName(s) ==> r == "badge-" + StatusName(s)
    ensures (forall s :: status != StatusName(s)) ==> r == ""
  {
    assert StatusName(StatusGoing) == "going" && StatusName(StatusPending) == "pending";
    if status in {"going", "pending"} then "badge-" + status else ""
  }

  /** `getStatusLabel`: a known status has its label, any other string is
      shown unchanged. */
  function GetStatusLabel(status: string): (r: string)
    ensures status == "going" ==> r == "Going"
    ensures status == "pending" ==> r == "Pending"
    ensures status != "going" && status != "pending" ==> r == status
  {
    if status == "going" then "Going"
    else if status == "pending" then "Pending"
    else status
  }

  // ---------------------------------------------------------------------
  // Email check

  /** A character the email pattern's `[^\s@]` accepts. */
  predicate EmailChar(c: char)
  {
    !IsSpace(c) && c != '@'
  }

  predicate AllEmailChars(s: string)
  {
    forall k :: 0 <= k < |s| ==> EmailChar(s[k])
  }

  /** The part after the '@': at least one character, a '.', at least one
      character, and no whitespace or '@' anywhere. */
  predicate IsDomain(d: string)
  {
    |d| >= 3 && AllEmailChars(d) && '.' in d[1..|d| - 1]
  }

  /** A scan that decides the email pattern: a non-empty local part up to
      the first '@', then a domain as above. */
  function ScanEmail(email: string): bool
  {
    match IndexOf(email, '@')
    case None => false
    case Some(i) => i > 0 && AllEmailChars(email[..i]) && IsDomain(email[i + 1..])
  }

  /** One way the pattern `^[^\s@]+@[^\s@]+\.[^\s@]+$` can match `s`: the
      '@' at `i` and the '.' at `j`, each group non-empty, and every other
      character accepted by `[^\s@]`. */
  predicate EmailSplit(s: string, i: int, j: int)
  {
    && 0 < i && i + 1 < j && j + 1 < |s|
    && s[i] == '@' && s[j] == '.'
    && forall k :: 0 <= k < |s| && k != i ==> EmailChar(s[k])
  }

  /** Every string the email check accepts matches the pattern. */
  lemma ValidEmailMatches(s: string)
    requires ScanEmail(s)
    ensures exists i, j :: EmailSplit(s, i, j)
  {
    var i := IndexOf(s, '@').value;
    var d := s[i + 1..];
    var m :| 0 <= m < |d[1..|d| - 1]| && d[1..|d| - 1][m] == '.';
    assert d[m + 1] == '.';
    forall k | 0 <= k < |s| && k != i
      ensures EmailChar(s[k])
    {
      if k < i {
        assert s[k] == s[..i][k];
      } else {
        assert s[k] == d[k - i - 1];
      }
    }
    assert EmailSplit(s, i, i + m + 2);
  }

  /** Every string the pattern matches passes the email check. */
  lemma MatchingEmailValid(s: string, i: int, j: int)
    requires EmailSplit(s, i, j)
    ensures ScanEmail(s)
  {
    assert s[..i] + ['@'] + s[i + 1..] == s;
    assert '@' !in s[..i] by {
      forall k | 0 <= k < i ensures s[..i][k] != '@' {
        assert EmailChar(s[k]);
      }
    }
    IndexOfAfterPrefix(s[..i], '@', s[i + 1..]);
    var d := s[i + 1..];
    assert AllEmailChars(s[..i]) by {
      forall k | 0 <= k < i ensures EmailChar(s[..i][k]) {
        assert s[..i][k] == s[k];
      }
    }
    assert AllEmailChars(d) by {
      forall k | 0 <= k < |d| ensures EmailChar(d[k]) {
        assert d[k] == s[i + 1 + k];
      }
    }
    assert d[1..|d| - 1][j - i - 2] == '.';
  }

  /** The scan accepts exactly the strings the pattern matches. */
  lemma ScanEmailMatchesPattern(s: string)
    ensures ScanEmail(s) <==> exists i, j :: EmailSplit(s, i, j)
  {
    if ScanEmail(s) {
      ValidEmailMatches(s);
    }
    if exists i, j :: EmailSplit(s, i, j) {
      var i, j :| EmailSplit(s, i, j);
      MatchingEmailValid(s, i, j);
    }
  }

  /** `validateEmail`: whether `^[^\s@]+@[^\s@]+\.[^\s@]+$` matches. */
  function ValidateEmail(email: string): (r: bool)
    ensures r <==> exists i, j :: EmailSplit(email, i, j)
  {
    ScanEmailMatchesPattern(email);
    ScanEmail(email)
  }

  // ---------------------------------------------------------------------
  // Invites

  /** `event.attendees.some(a => a.email === email)` */
  predicate AlreadyInvited(event: Option<DetailEvent>, email: string)
  {
    event.Some? && exists k :: 0 <= k < |event.value.attendees| && event.value.attendees[k].email == email
  }

  /** The outcome of `sendInvite`'s checks, in their order. */
  datatype InviteCheck = MissingEmail | MalformedEmail | DuplicateEmail | Invite(email: string)

  const EnterEmailMessage: string := "Please enter an email address"
  const InvalidEmailMessage: string := "Please enter a valid email address"
  const AlreadyInvitedMessage: string := "This person is already invited"

  function CheckInvite(input: string, event: Option<DetailEvent>): (r: InviteCheck)
    ensures r.MissingEmail? <==> Trim(input) == ""
    ensures r.MalformedEmail? <==> Trim(input) != "" && !ValidateEmail(Trim(input))
    ensures r.DuplicateEmail? <==> ValidateEmail(Trim(input)) && AlreadyInvited(event, Trim(input))
    ensures r.Invite? <==> ValidateEmail(Trim(input)) && !AlreadyInvited(event, Trim(input))
    ensures r.Invite? ==> r.email == Trim(input)
  {
    var email := Trim(input);
    if email == "" then MissingEmail
    else if !ValidateEmail(email) then MalformedEmail
    else if AlreadyInvited(event, email) then DuplicateEmail
    else Invite(email)
  }

  /** What each outcome means: a blank field, a trimmed input the pattern
      rejects, an address already on the list, or a new well-formed address
      (the trimmed input) that nobody on the list has. */
  lemma CheckInviteVerdicts(input: string, event: Option<DetailEvent>)
    ensures CheckInvite(input, event).MissingEmail? <==> AllSpace(input)
    ensures CheckInvite(input, event).MalformedEmail? <==> !AllSpace(input) && !ValidateEmail(Trim(input))
    ensures CheckInvite(input, event).DuplicateEmail? <==>
              ValidateEmail(Trim(input)) && AlreadyInvited(event, Trim(input))
    ensures CheckInvite(input, event).Invite? <==>
              ValidateEmail(Trim(input)) && !AlreadyInvited(event, Trim(input))
    ensures CheckInvite(input, event).Invite? ==> CheckInvite(input, event).email == Trim(input)
  {
    TrimEmptyIffAllSpace(input);
    if ValidateEmail(Trim(input)) {
      assert Trim(input) != "";
    }
  }

  /** An invited address has no surrounding blanks and differs from every
      attendee's address. */
  lemma InvitedAddressIsNew(input: string, event: DetailEvent, k: int)
    requires CheckInvite(input, Some(event)).Invite?
    requires 0 <= k < |event.attendees|
    ensures event.attendees[k].email != CheckInvite(input, Some(event)).email
    ensures Trim(CheckInvite(input, Some(event)).email) == CheckInvite(input, Some(event)).email
  {
    TrimIdempotent(input);
  }

  // ---------------------------------------------------------------------
  // Attendee removal

  function HasOtherId(attendeeId: string): DetailAttendee -> bool
  {
    (a: DetailAttendee) => a.id != attendeeId
  }

  /** `attendees.filter(a => a.id !== attendeeId)` */
  function WithoutAttendee(atts: seq<DetailAttendee>, attendeeId: string): (r: seq<DetailAttendee>)
    ensures |r| <= |atts|
    ensures forall k :: 0 <= k < |r| ==> r[k].id != attendeeId
  {
    Filter(HasOtherId(attendeeId), atts)
  }

  /** Removal drops every record with that id, keeps the others in order and
      as often as before. */
  lemma WithoutAttendeeKeepsOthers(atts: seq<DetailAttendee>, attendeeId: string, a: DetailAttendee)
    ensures SubsequenceOf(WithoutAttendee(atts, attendeeId), atts)
    ensures forall k :: 0 <= k < |WithoutAttendee(atts, attendeeId)| ==> WithoutAttendee(atts, attendeeId)[k].id != attendeeId
    ensures multiset(WithoutAttendee(atts, attendeeId))[a] == if a.id == attendeeId then 0 else multiset(atts)[a]
  {
    FilterIsSubsequence(HasOtherId(attendeeId), atts);
    FilterCount(HasOtherId(attendeeId), atts, a);
  }

  /** Removing an id nobody has changes nothing. */
  lemma WithoutAbsentAttendee(atts: seq<DetailAttendee>, attendeeId: string)
    requires forall k :: 0 <= k < |atts| ==> atts[k].id != attendeeId
    ensures WithoutAttendee(atts, attendeeId) == atts
  {
    FilterAllPass(HasOtherId(attendeeId), atts);
  }

  // ---------------------------------------------------------------------
  // The page component

  const EventListRoute: string := "/event-list"

  class EventDetails {
    var event: Option<DetailEvent>
    var isLoading: bool
    var showDeleteConfirm: bool
    var showInviteModal: bool
    var inviteEmail: string
    var inviteError: string
    var successMessage: string
    var goingCount: nat
    var pendingCount: nat
    /** Declared and shown, never assigned. */
    var notGoingCount: nat
    /** The invite timers armed and not yet fired. */
    var pendingInviteTimers: nat
    /** The navigations requested from the router, oldest first. */
    var navigations: seq<seq<string>>

    constructor ()
      ensures event == None && isLoading && !showDeleteConfirm && !showInviteModal
      ensures inviteEmail == "" && inviteError == "" && successMessage == ""
      ensures goingCount == 0 && pendingCount == 0 && notGoingCount == 0
      ensures pendingInviteTimers == 0 && navigations == []
    {
      event, isLoading, showDeleteConfirm, showInviteModal := None, true, false, false;
      inviteEmail, inviteError, successMessage := "", "", "";
      goingCount, pendingCount, notGoingCount := 0, 0, 0;
      pendingInviteTimers, navigations := 0, [];
    }

    /** `loadEvent`, given the event to show: the counts are those of its
        attendees, and together they cover all of them. */
    method LoadEvent(ev: DetailEvent)
      modifies this`event, this`goingCount, this`pendingCount, this`isLoading
      ensures event == Some(ev) && !isLoading
      ensures goingCount == CountStatus(ev.attendees, StatusGoing)
      ensures pendingCount == CountStatus(ev.attendees, StatusPending)
      ensures goingCount + pendingCount == |ev.attendees|
    {
      event := Some(ev);
      goingCount := CountStatus(ev.attendees, StatusGoing);
      pendingCount := CountStatus(ev.attendees, StatusPending);
      CountsCoverAttendees(ev.attendees);
      isLoading := false;
    }

    /** `goBack` */
    method GoBack()
      modifies this`navigations
      ensures navigations == old(navigations) + [[EventListRoute]]
    {
      navigations := navigations + [[EventListRoute]];
    }

    /** `deleteEvent` only asks for confirmation. */
    method DeleteEvent()
      modifies this`showDeleteConfirm
      ensures showDeleteConfirm
    {
      showDeleteConfirm := true;
    }

    /** `confirmDelete` closes the dialog and goes back to the list; no
        deletion is requested. */
    method ConfirmDelete()
      modifies this`showDeleteConfirm, this`navigations
      ensures !showDeleteConfirm
      ensures navigations == old(navigations) + [[EventListRoute]]
    {
      showDeleteConfirm := false;
      navigations := navigations + [[EventListRoute]];
    }

    /** `cancelDelete` */
    method CancelDelete()
      modifies this`showDeleteConfirm
      ensures !showDeleteConfirm
    {
      showDeleteConfirm := false;
    }

    /** `openInviteModal` */
    method OpenInviteModal()
      modifies this`showInviteModal, this`inviteEmail, this`inviteError
      ensures showInviteModal && inviteEmail == "" && inviteError == ""
    {
      showInviteModal := true;
      inviteEmail := "";
      inviteError := "";
    }

    /** `closeInviteModal` */
    method CloseInviteModal()
      modifies this`showInviteModal, this`inviteEmail, this`inviteError
      ensures !showInviteModal && inviteEmail == "" && inviteError == ""
    {
      showInviteModal := false;
      inviteEmail := "";
      inviteError := "";
    }

    /** `sendInvite`: a failed check shows its error and leaves the field and
        the success message alone; a new address shows the success message,
        clears the field and arms the closing timer. */
    method SendInvite()
      modifies this`inviteEmail, this`inviteError, this`successMessage, this`pendingInviteTimers
      ensures var check := CheckInvite(old(inviteEmail), event);
              && (check.MissingEmail? ==> inviteError == EnterEmailMessage)
              && (check.MalformedEmail? ==> inviteError == InvalidEmailMessage)
              && (check.DuplicateEmail? ==> inviteError == AlreadyInvitedMessage)
              && (!check.Invite? ==>
                    inviteEmail == old(inviteEmail) && successMessage == old(successMessage)
                    && pendingInviteTimers == old(pendingInviteTimers))
              && (check.Invite? ==>
                    inviteError == "" && inviteEmail == ""
                    && successMessage == "Invitation sent to " + check.email + "!"
                    && pendingInviteTimers == old(pendingInviteTimers) + 1)
    {
      var check := CheckInvite(inviteEmail, event);
      inviteError := "";
      match check
      case MissingEmail =>
        inviteError := EnterEmailMessage;
      case MalformedEmail =>
        inviteError := InvalidEmailMessage;
      case DuplicateEmail =>
        inviteError := AlreadyInvitedMessage;
      case Invite(email) =>
        successMessage := "Invitation sent to " + email + "!";
        inviteEmail := "";
        pendingInviteTimers := pendingInviteTimers + 1;
    }

    /** The oldest invite timer fires: the modal closes and the success
        message is cleared. Nothing happens when none is armed. */
    method InviteTimerElapsed()
      modifies this`showInviteModal, this`inviteEmail, this`inviteError, this`successMessage, this`pendingInviteTimers
      ensures old(pendingInviteTimers) == 0 ==>
                showInviteModal == old(showInviteModal) && inviteEmail == old(inviteEmail)
                && inviteError == old(inviteError) && successMessage == old(successMessage)
                && pendingInviteTimers == 0
      ensures old(pendingInviteTimers) > 0 ==>
                !showInviteModal && inviteEmail == "" && inviteError == "" && successMessage == ""
                && pendingInviteTimers == old(pendingInviteTimers) - 1
    {
      if pendingInviteTimers > 0 {
        CloseInviteModal();
        successMessage := "";
        pendingInviteTimers := pendingInviteTimers - 1;
      }
    }

    /** `updateRSVP` changes the shown event's answer and nothing else. */
    method UpdateRSVP(status: Answer)
      modifies this`event
      ensures old(event).None? ==> event == None
      ensures old(event).Some? ==> event == Some(old(event).value.(userRSVP := Some(status)))
    {
      if event.Some? {
        event := Some(event.value.(userRSVP := Some(status)));
      }
    }

    /** `removeAttendee` drops that id from the shown event's attendees; the
        counts are not recomputed. */
    method RemoveAttendee(attendeeId: string)
      modifies this`event
      ensures old(event).None? ==> event == None
      ensures old(event).Some? ==>
                event == Some(old(event).value.(attendees := WithoutAttendee(old(event).value.attendees, attendeeId)))
    {
      if event.Some? {
        event := Some(event.value.(attendees := WithoutAttendee(event.value.attendees, attendeeId)));
      }
    }
  }
}
