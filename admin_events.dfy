/**
 * The admin's event page: the local lists of events and sub-events kept in
 * step with the server's answers to create and delete, the form checks that
 * come first, and the status badge helpers.
 */
module AdminEventsPage {
  import opened Wrappers
  import opened Text
  import opened Lists

  datatype Creator = Creator(id: string, fullName: string, email: string)

  datatype Event = Event(
    id: string, name: string, description: string, year: int,
    startDate: string, endDate: string, venue: string, totalBudget: int,
    status: string, createdBy: Creator, subEvents: seq<string>,
    createdAt: string, updatedAt: string)

  datatype SubEvent = SubEvent(
    id: string, name: string, description: string, event: string,
    startTime: string, endTime: string, maxParticipants: int, registrationFee: int,
    createdBy: Creator, createdAt: string, updatedAt: string)

  /** The event form's controls; an empty text or a `None` number is a cleared control. */
  datatype EventForm = EventForm(
    name: string, description: string, year: Option<int>,
    startDate: string, endDate: string, venue: string, totalBudget: Option<int>)

  datatype SubEventForm = SubEventForm(
    name: string, description: string, event: string,
    startTime: string, endTime: string, maxParticipants: Option<int>, registrationFee: Option<int>)

  /** The server's answer to a create call: a reply with its success flag and record, or a failed request. */
  datatype Reply<T> = Reply(success: bool, data: T) | Failed

  /** The event form's validators: required fields, text lengths and number ranges. */
  predicate EventFormValid(f: EventForm) {
    3 <= |f.name| <= 100 &&
    10 <= |f.description| <= 500 &&
    f.year.Some? && 2020 <= f.year.value <= 2030 &&
    f.startDate != "" && f.endDate != "" && f.venue != "" &&
    f.totalBudget.Some? && f.totalBudget.value >= 0
  }

  /** The sub-event form's validators. */
  predicate SubEventFormValid(f: SubEventForm) {
    1 <= |f.name| <= 100 &&
    1 <= |f.description| <= 300 &&
    f.event != "" && f.startTime != "" && f.endTime != "" &&
    f.maxParticipants.Some? && f.maxParticipants.value >= 1 &&
    f.registrationFee.Some? && f.registrationFee.value >= 0
  }

  /** `eventForm.reset({year: currentYear, totalBudget: 0})` */
  function FreshEventForm(currentYear: int): (r: EventForm)
    ensures !EventFormValid(r)
    ensures r.year == Some(currentYear) && r.totalBudget == Some(0)
  {
    EventForm("", "", Some(currentYear), "", "", "", Some(0))
  }

  /** `subEventForm.reset()` */
  function FreshSubEventForm(): (r: SubEventForm)
    ensures !SubEventFormValid(r)
  {
    SubEventForm("", "", "", "", "", None, None)
  }

  function NotEvent(id: string): Event -> bool {
    (e: Event) => e.id != id
  }

  function NotSubEvent(id: string): SubEvent -> bool {
    (s: SubEvent) => s.id != id
  }

  /** Removing by id drops every record with the id and keeps the others, in order. */
  lemma RemoveEventCorrect(events: seq<Event>, id: string)
    ensures forall e :: e in Filter(events, NotEvent(id)) <==> e in events && e.id != id
    ensures IsSubsequence(Filter(events, NotEvent(id)), events)
  {
    FilterMembers(events, NotEvent(id));
    FilterIsSubsequence(events, NotEvent(id));
  }

  lemma RemoveSubEventCorrect(subEvents: seq<SubEvent>, id: string)
    ensures forall s :: s in Filter(subEvents, NotSubEvent(id)) <==> s in subEvents && s.id != id
    ensures IsSubsequence(Filter(subEvents, NotSubEvent(id)), subEvents)
  {
    FilterMembers(subEvents, NotSubEvent(id));
    FilterIsSubsequence(subEvents, NotSubEvent(id));
  }

  /** The badge class: one per known status, and none for anything else. */
  function GetStatusClass(status: string): (r: string)
    ensures status in {"upcoming", "ongoing", "completed", "cancelled"} <==> r == "status-" + status
    ensures status !in {"upcoming", "ongoing", "completed", "cancelled"} <==> r == ""
  {
    match status
    case "upcoming" => "status-upcoming"
    case "ongoing" => "status-ongoing"
    case "completed" => "status-completed"
    case "cancelled" => "status-cancelled"
    case _ => ""
  }

  /** The status with its first character upper-cased. */
  function GetStatusText(status: string): (r: string)
    ensures |r| == |status|
    ensures status != [] ==> r[0] == UpperChar(status[0]) && r[1..] == status[1..]
  {
    if status == [] then [] else Upper(status[..1]) + status[1..]
  }

  /** The badge text reads as the status, case aside. */
  lemma StatusTextLower(status: string)
    ensures Lower(GetStatusText(status)) == Lower(status)
  {
    if status != [] {
      var r := GetStatusText(status);
      var head, tail := status[..1], status[1..];
      assert r == Upper(head) + tail;
      assert status == head + tail;
      LowerOfUpper(head);
      LowerAppend(Upper(head), tail);
      LowerAppend(head, tail);
    }
  }

  /** Capitalising the badge text again changes nothing. */
  lemma StatusTextIdempotent(status: string)
    ensures GetStatusText(GetStatusText(status)) == GetStatusText(status)
  {
    if status != [] {
      var c := status[0];
      if 'a' <= c <= 'z' {
        assert 'A' <= UpperChar(c) <= 'Z';
      }
      assert UpperChar(UpperChar(c)) == UpperChar(c);
    }
  }

  class AdminEventsComponent {
    var events: seq<Event>
    var subEvents: seq<SubEvent>
    var selectedEvent: Option<Event>
    var showEventForm: bool
    var showSubEventForm: bool
    var loading: bool
    var eventForm: EventForm
    var subEventForm: SubEventForm

    constructor(currentYear: int)
      ensures events == [] && subEvents == [] && selectedEvent == None
      ensures !showEventForm && !showSubEventForm && !loading
      ensures eventForm == EventForm("", "", Some(currentYear), "", "", "", Some(0))
      ensures subEventForm == SubEventForm("", "", "", "", "", Some(1), Some(0))
    {
      events := [];
      subEvents := [];
      selectedEvent := None;
      showEventForm := false;
      showSubEventForm := false;
      loading := false;
      eventForm := EventForm("", "", Some(currentYear), "", "", "", Some(0));
      subEventForm := SubEventForm("", "", "", "", "", Some(1), Some(0));
    }

    /**
     * `loadEvents`: the list is replaced by the reply's data only when the
     * reply reports success; any reply ends the loading state.
     */
    method LoadEvents(reply: Reply<seq<Event>>)
      modifies this
      ensures reply.Reply? && reply.success ==> events == reply.data
      ensures !(reply.Reply? && reply.success) ==> events == old(events)
      ensures !loading
      ensures subEvents == old(subEvents) && selectedEvent == old(selectedEvent)
      ensures showEventForm == old(showEventForm) && showSubEventForm == old(showSubEventForm)
      ensures eventForm == old(eventForm) && subEventForm == old(subEventForm)
    {
      loading := true;
      match reply
      case Reply(success, data) =>
        if success {
          events := data;
        }
        loading := false;
      case Failed =>
        loading := false;
    }

    /**
     * `loadSubEvents`: without a selected event nothing is asked for;
     * otherwise a successful reply replaces the sub-events.
     */
    method LoadSubEvents(reply: Reply<seq<SubEvent>>) returns (asked: Option<string>)
      modifies this
      ensures asked.None? <==> selectedEvent.None?
      ensures asked.Some? ==> asked.value == selectedEvent.value.id
      ensures asked.Some? && reply.Reply? && reply.success ==> subEvents == reply.data
      ensures !(asked.Some? && reply.Reply? && reply.success) ==> subEvents == old(subEvents)
      ensures events == old(events) && selectedEvent == old(selectedEvent) && loading == old(loading)
      ensures showEventForm == old(showEventForm) && showSubEventForm == old(showSubEventForm)
      ensures eventForm == old(eventForm) && subEventForm == old(subEventForm)
    {
      if selectedEvent.None? {
        return None;
      }
      asked := Some(selectedEvent.value.id);
      if reply.Reply? && reply.success {
        subEvents := reply.data;
      }
    }

    /** `selectEvent`: the event becomes the selection and its sub-events are asked for. */
    method SelectEvent(event: Event, reply: Reply<seq<SubEvent>>) returns (asked: Option<string>)
      modifies this
      ensures selectedEvent == Some(event) && asked == Some(event.id)
      ensures reply.Reply? && reply.success ==> subEvents == reply.data
      ensures !(reply.Reply? && reply.success) ==> subEvents == old(subEvents)
      ensures events == old(events) && loading == old(loading)
      ensures showEventForm == old(showEventForm) && showSubEventForm == old(showSubEventForm)
      ensures eventForm == old(eventForm) && subEventForm == old(subEventForm)
    {
      selectedEvent := Some(event);
      asked := LoadSubEvents(reply);
    }

    /**
     * An invalid form stops before anything is sent. Otherwise the form is
     * sent; a successful reply puts the new event first and closes and
     * resets the form, and any reply ends the loading state.
     */
    method CreateEvent(reply: Reply<Event>, currentYear: int) returns (sent: Option<EventForm>)
      modifies this
      ensures subEvents == old(subEvents) && selectedEvent == old(selectedEvent)
      ensures showSubEventForm == old(showSubEventForm) && subEventForm == old(subEventForm)
      ensures !EventFormValid(old(eventForm)) ==>
        sent == None && events == old(events) && showEventForm == old(showEventForm) &&
        loading == old(loading) && eventForm == old(eventForm)
      ensures EventFormValid(old(eventForm)) ==> sent == Some(old(eventForm)) && !loading
      ensures EventFormValid(old(eventForm)) && reply.Reply? && reply.success ==>
        events == [reply.data] + old(events) && !showEventForm && eventForm == FreshEventForm(currentYear)
      ensures EventFormValid(old(eventForm)) && !(reply.Reply? && reply.success) ==>
        events == old(events) && showEventForm == old(showEventForm) && eventForm == old(eventForm)
    {
      if !EventFormValid(eventForm) {
        return None;
      }
      loading := true;
      sent := Some(eventForm);
      match reply
      case Reply(success, data) =>
        if success {
          events := [data] + events;
          showEventForm := false;
          eventForm := FreshEventForm(currentYear);
        }
        loading := false;
      case Failed =>
        loading := false;
    }

    /**
     * Nothing is sent when the form is invalid or no event is selected.
     * Otherwise the form is sent with its `event` field set to the selected
     * event's id; a successful reply appends the new sub-event and closes
     * and resets the form.
     */
    method CreateSubEvent(reply: Reply<SubEvent>) returns (sent: Option<SubEventForm>)
      modifies this
      ensures events == old(events) && selectedEvent == old(selectedEvent)
      ensures showEventForm == old(showEventForm) && eventForm == old(eventForm)
      ensures !SubEventFormValid(old(subEventForm)) || old(selectedEvent).None? ==>
        sent == None && subEvents == old(subEvents) && showSubEventForm == old(showSubEventForm) &&
        loading == old(loading) && subEventForm == old(subEventForm)
      ensures SubEventFormValid(old(subEventForm)) && old(selectedEvent).Some? ==>
        sent == Some(old(subEventForm).(event := old(selectedEvent).value.id)) && !loading
      ensures SubEventFormValid(old(subEventForm)) && old(selectedEvent).Some? && reply.Reply? && reply.success ==>
        subEvents == old(subEvents) + [reply.data] && !showSubEventForm && subEventForm == FreshSubEventForm()
      ensures SubEventFormValid(old(subEventForm)) && old(selectedEvent).Some? && !(reply.Reply? && reply.success) ==>
        subEvents == old(subEvents) && showSubEventForm == old(showSubEventForm) && subEventForm == old(subEventForm)
    {
      if !SubEventFormValid(subEventForm) || selectedEvent.None? {
        return None;
      }
      var formData := subEventForm.(event := selectedEvent.value.id);
      loading := true;
      sent := Some(formData);
      match reply
      case Reply(success, data) =>
        if success {
          subEvents := subEvents + [data];
          showSubEventForm := false;
          subEventForm := FreshSubEventForm();
        }
        loading := false;
      case Failed =>
        loading := false;
    }

    /**
     * After confirmation and a successful reply, every event with the id is
     * dropped; the selection and its sub-events are cleared exactly when the
     * selected event had that id.
     */
    method DeleteEvent(eventId: string, confirmed: bool, succeeded: bool)
      modifies this
      ensures showEventForm == old(showEventForm) && showSubEventForm == old(showSubEventForm) && loading == old(loading)
      ensures eventForm == old(eventForm) && subEventForm == old(subEventForm)
      ensures !(confirmed && succeeded) ==>
        events == old(events) && subEvents == old(subEvents) && selectedEvent == old(selectedEvent)
      ensures confirmed && succeeded ==> events == Filter(old(events), NotEvent(eventId))
      ensures confirmed && succeeded && old(selectedEvent).Some? && old(selectedEvent).value.id == eventId ==>
        selectedEvent == None && subEvents == []
      ensures confirmed && succeeded && !(old(selectedEvent).Some? && old(selectedEvent).value.id == eventId) ==>
        selectedEvent == old(selectedEvent) && subEvents == old(subEvents)
    {
      if !confirmed {
        return;
      }
      if succeeded {
        events := Filter(events, NotEvent(eventId));
        if selectedEvent.Some? && selectedEvent.value.id == eventId {
          selectedEvent := None;
          subEvents := [];
        }
      }
    }

    /** After confirmation and a successful reply, every sub-event with the id is dropped. */
    method DeleteSubEvent(subEventId: string, confirmed: bool, succeeded: bool)
      modifies this
      ensures events == old(events) && selectedEvent == old(selectedEvent)
      ensures showEventForm == old(showEventForm) && showSubEventForm == old(showSubEventForm) && loading == old(loading)
      ensures eventForm == old(eventForm) && subEventForm == old(subEventForm)
      ensures confirmed && succeeded ==> subEvents == Filter(old(subEvents), NotSubEvent(subEventId))
      ensures !(confirmed && succeeded) ==> subEvents == old(subEvents)
    {
      if !confirmed {
        return;
      }
      if succeeded {
        subEvents := Filter(subEvents, NotSubEvent(subEventId));
      }
    }
  }
}
