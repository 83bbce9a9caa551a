/** The event store: the events of the visible range, the `loading` and
    `error` refs, and the toasts each request reports with. Every request
    is abstracted to its outcome; the session token is read from
    localStorage key 'accessToken' (the auth store has no `accessToken`
    field, so that operand of `||` is always undefined). */
module Events {
  import opened Common
  import opened Toasts
  import opened Auth

  const FETCH_NO_TOKEN_MESSAGE: string := "There was an error fetching events. Please try logging in again."
  const FETCH_FAILED_MESSAGE: string := "There was an error fetching events."
  const MODIFY_NO_ID_MESSAGE: string := "There was an error modifying this event."
  const MODIFY_FAILED_MESSAGE: string := "There was an error modifying this event. Please try again."
  const MODIFIED_MESSAGE: string := "Event modified successfully."
  const CREATE_NO_TITLE_MESSAGE: string := "You need to give this event a title before creating it."
  const CREATE_FAILED_MESSAGE: string := "There was an error creating this event. Please try again."
  const CREATED_MESSAGE: string := "Event created successfully."
  const DELETE_FAILED_MESSAGE: string := "There was an error deleting this event. Please try again."
  const DELETED_MESSAGE: string := "Event deleted successfully."

  datatype TimeEvent = TimeEvent(id: string, title: string, description: string, start: Date, end: Date)

  /** An event as the server sends it, with ISO date strings. */
  datatype RawEvent = RawEvent(id: string, title: string, description: string, start: string, end: string)

  /** A `Partial<TimeEvent>`: every field may be missing. */
  datatype EventDraft = EventDraft(id: Option<string>, title: Option<string>, description: Option<string>,
                                   start: Option<Date>, end: Option<Date>)

  /** The `weekStartsOn` index of the fetched range: Sunday is 0, Monday 1. */
  function WeekStartsOn(startsWithSunday: bool): (day: nat)
    ensures day == 0 <==> startsWithSunday
    ensures day <= 1
  {
    if startsWithSunday then 0 else 1
  }

  /** The response list with `start` and `end` turned into dates. */
  function ToTimeEvents(raw: seq<RawEvent>, parseDate: string -> Date): (r: seq<TimeEvent>)
    ensures |r| == |raw|
    ensures forall i :: 0 <= i < |raw| ==>
      r[i] == TimeEvent(raw[i].id, raw[i].title, raw[i].description, parseDate(raw[i].start), parseDate(raw[i].end))
  {
    if raw == [] then []
    else
      [TimeEvent(raw[0].id, raw[0].title, raw[0].description, parseDate(raw[0].start), parseDate(raw[0].end))]
      + ToTimeEvents(raw[1..], parseDate)
  }

  /** The event store's refs, the toast list, and the auth store with
      localStorage (which its `logout` changes). */
  datatype EventsView = EventsView(events: seq<TimeEvent>, loading: bool, error: Option<string>,
                                   toasts: seq<Toast>, session: Session)

  function ErrorToast(id: string, message: string): Toast
  {
    Toast(id, Error, DEFAULT_TIMEOUT, message)
  }

  function SuccessToast(id: string, message: string): Toast
  {
    Toast(id, Success, DEFAULT_TIMEOUT, message)
  }

  predicate HasToken(v: EventsView)
  {
    Truthy(Lookup(v.session.entries, ACCESS_TOKEN_KEY))
  }

  /** `fetchEvents`, given how its request ended. */
  function FetchEventsSpec(v: EventsView, response: Outcome<seq<RawEvent>>, toastId: string,
                           parseDate: string -> Date): (r: EventsView)
    ensures !r.loading
    ensures !HasToken(v) ==>
      && r.toasts == v.toasts + [ErrorToast(toastId, FETCH_NO_TOKEN_MESSAGE)]
      && r.session == LogoutSpec(v.session) && r.events == v.events && r.error == None
    ensures HasToken(v) ==> r.session == v.session
    ensures HasToken(v) && response.Ok? ==>
      r.events == ToTimeEvents(response.payload, parseDate) && r.toasts == v.toasts && r.error == None
    ensures HasToken(v) && response.NotOk? ==>
      r.events == v.events && r.toasts == v.toasts + [ErrorToast(toastId, FETCH_FAILED_MESSAGE)] && r.error == None
    ensures HasToken(v) && response.Threw? ==>
      && r.events == v.events && r.toasts == v.toasts + [ErrorToast(toastId, FETCH_FAILED_MESSAGE)]
      && r.error == Some(response.error)
  {
    var started := v.(loading := true, error := None);
    if !HasToken(v) then
      started.(toasts := v.toasts + [ErrorToast(toastId, FETCH_NO_TOKEN_MESSAGE)], loading := false,
               session := LogoutSpec(v.session))
    else match response
      case NotOk(_) =>
        started.(toasts := v.toasts + [ErrorToast(toastId, FETCH_FAILED_MESSAGE)], loading := false)
      case Ok(raw) =>
        started.(events := ToTimeEvents(raw, parseDate), loading := false)
      case Threw(e) =>
        started.(toasts := v.toasts + [ErrorToast(toastId, FETCH_FAILED_MESSAGE)], error := Some(e), loading := false)
  }

  /** The `finally` block of a write: a success toast and `loading` false,
      whatever happened in the `try` block. */
  function Finally(v: EventsView, successId: string, message: string): (r: EventsView)
    ensures r.toasts == v.toasts + [SuccessToast(successId, message)] && !r.loading
    ensures r.events == v.events && r.error == v.error && r.session == v.session
  {
    v.(toasts := v.toasts + [SuccessToast(successId, message)], loading := false)
  }

  /** The `catch` block of a write: an error toast and the error message. */
  function Caught(v: EventsView, errorId: string, message: string, error: string): (r: EventsView)
    ensures r.toasts == v.toasts + [ErrorToast(errorId, message)] && r.error == Some(error)
    ensures r.events == v.events && r.loading == v.loading && r.session == v.session
  {
    v.(toasts := v.toasts + [ErrorToast(errorId, message)], error := Some(error))
  }

  /** `modifyEvent`, given how its request ended. */
  function ModifySpec(v: EventsView, draft: EventDraft, response: Outcome<()>,
                      errorId: string, successId: string): (r: EventsView)
    ensures !Truthy(draft.id) ==> r == v.(toasts := v.toasts + [ErrorToast(errorId, MODIFY_NO_ID_MESSAGE)])
    ensures Truthy(draft.id) ==>
      && !r.loading && r.events == v.events && r.session == v.session
      && |r.toasts| > 0 && r.toasts[|r.toasts| - 1] == SuccessToast(successId, MODIFIED_MESSAGE)
      && r.toasts == v.toasts + (if response.Ok? then [] else [ErrorToast(errorId, MODIFY_FAILED_MESSAGE)])
                              + [SuccessToast(successId, MODIFIED_MESSAGE)]
      && r.error == (if response.Threw? then Some(response.error) else v.error)
  {
    if !Truthy(draft.id) then v.(toasts := v.toasts + [ErrorToast(errorId, MODIFY_NO_ID_MESSAGE)])
    else
      var tried := match response
        case Ok(_) => v
        case NotOk(_) => v.(toasts := v.toasts + [ErrorToast(errorId, MODIFY_FAILED_MESSAGE)])
        case Threw(e) => Caught(v, errorId, MODIFY_FAILED_MESSAGE, e);
      Finally(tried, successId, MODIFIED_MESSAGE)
  }

  /** `createEvent`, given how its request and, after an ok response, the
      refetch ended. */
  function CreateSpec(v: EventsView, draft: EventDraft, response: Outcome<()>, refetch: Outcome<seq<RawEvent>>,
                      errorId: string, refetchToastId: string, successId: string,
                      parseDate: string -> Date): (r: EventsView)
    ensures !Truthy(draft.title) ==> r == v.(toasts := v.toasts + [ErrorToast(errorId, CREATE_NO_TITLE_MESSAGE)])
    ensures Truthy(draft.title) ==>
      && !r.loading
      && |r.toasts| > 0 && r.toasts[|r.toasts| - 1] == SuccessToast(successId, CREATED_MESSAGE)
      && (response.Ok? ==> r == Finally(FetchEventsSpec(v, refetch, refetchToastId, parseDate), successId, CREATED_MESSAGE))
      && (!response.Ok? ==>
            && r.events == v.events && r.session == v.session
            && r.toasts == v.toasts + [ErrorToast(errorId, CREATE_FAILED_MESSAGE), SuccessToast(successId, CREATED_MESSAGE)]
            && r.error == (if response.Threw? then Some(response.error) else v.error))
  {
    if !Truthy(draft.title) then v.(toasts := v.toasts + [ErrorToast(errorId, CREATE_NO_TITLE_MESSAGE)])
    else
      var tried := match response
        case Ok(_) => FetchEventsSpec(v, refetch, refetchToastId, parseDate)
        case NotOk(_) => v.(toasts := v.toasts + [ErrorToast(errorId, CREATE_FAILED_MESSAGE)])
        case Threw(e) => Caught(v, errorId, CREATE_FAILED_MESSAGE, e);
      Finally(tried, successId, CREATED_MESSAGE)
  }

  /** `deleteEvent`, given how its request and, after an ok response, the
      refetch ended. */
  function DeleteSpec(v: EventsView, response: Outcome<()>, refetch: Outcome<seq<RawEvent>>,
                      errorId: string, refetchToastId: string, successId: string,
                      parseDate: string -> Date): (r: EventsView)
    ensures !r.loading
    ensures |r.toasts| > 0 && r.toasts[|r.toasts| - 1] == SuccessToast(successId, DELETED_MESSAGE)
    ensures response.Ok? ==> r == Finally(FetchEventsSpec(v, refetch, refetchToastId, parseDate), successId, DELETED_MESSAGE)
    ensures !response.Ok? ==>
      && r.events == v.events && r.session == v.session
      && r.toasts == v.toasts + [ErrorToast(errorId, DELETE_FAILED_MESSAGE), SuccessToast(successId, DELETED_MESSAGE)]
      && r.error == (if response.Threw? then Some(response.error) else v.error)
  {
    var tried := match response
      case Ok(_) => FetchEventsSpec(v, refetch, refetchToastId, parseDate)
      case NotOk(_) => v.(toasts := v.toasts + [ErrorToast(errorId, DELETE_FAILED_MESSAGE)])
      case Threw(e) => Caught(v, errorId, DELETE_FAILED_MESSAGE, e);
    Finally(tried, successId, DELETED_MESSAGE)
  }

  /** A write the server refused still ends with a success toast, right
      after its error toast. */
  lemma {:induction false} RefusedWritesReportSuccess(v: EventsView, draft: EventDraft, message: Option<string>,
                                                      refetch: Outcome<seq<RawEvent>>, errorId: string,
                                                      refetchToastId: string, successId: string,
                                                      parseDate: string -> Date)
    requires Truthy(draft.id) && Truthy(draft.title)
    ensures ModifySpec(v, draft, NotOk(message), errorId, successId).toasts
         == v.toasts + [ErrorToast(errorId, MODIFY_FAILED_MESSAGE), SuccessToast(successId, MODIFIED_MESSAGE)]
    ensures CreateSpec(v, draft, NotOk(message), refetch, errorId, refetchToastId, successId, parseDate).toasts
         == v.toasts + [ErrorToast(errorId, CREATE_FAILED_MESSAGE), SuccessToast(successId, CREATED_MESSAGE)]
    ensures DeleteSpec(v, NotOk(message), refetch, errorId, refetchToastId, successId, parseDate).toasts
         == v.toasts + [ErrorToast(errorId, DELETE_FAILED_MESSAGE), SuccessToast(successId, DELETED_MESSAGE)]
  {
    assert v.toasts + [ErrorToast(errorId, MODIFY_FAILED_MESSAGE)] + [SuccessToast(successId, MODIFIED_MESSAGE)]
        == v.toasts + [ErrorToast(errorId, MODIFY_FAILED_MESSAGE), SuccessToast(successId, MODIFIED_MESSAGE)];
  }

  /** A successful refetch inside a create or delete replaces the events
      with the fetched list, of the same length. */
  lemma RefetchReplacesEvents(v: EventsView, raw: seq<RawEvent>, toastId: string, parseDate: string -> Date)
    requires HasToken(v)
    ensures |FetchEventsSpec(v, Ok(raw), toastId, parseDate).events| == |raw|
  {
  }

  class EventStore {
    var events: seq<TimeEvent>
    var loading: bool
    var error: Option<string>
    const toastStore: ToastStore
    const auth: AuthStore
    const parseDate: string -> Date

    function View(): EventsView
      reads this, toastStore, auth, auth.storage
    {
      EventsView(events, loading, error, toastStore.toasts, auth.View())
    }

    constructor (toastStore: ToastStore, auth: AuthStore, parseDate: string -> Date)
      ensures this.toastStore == toastStore && this.auth == auth && this.parseDate == parseDate
      ensures events == [] && !loading && error == None
    {
      this.toastStore := toastStore;
      this.auth := auth;
      this.parseDate := parseDate;
      events := [];
      loading := false;
      error := None;
    }

    /** `fetchEvents`; the date range only shapes the request URL. */
    method FetchEvents(response: Outcome<seq<RawEvent>>, toastId: string)
      modifies this, toastStore, auth, auth.storage
      ensures View() == FetchEventsSpec(old(View()), response, toastId, parseDate)
    {
      loading := true;
      error := None;
      var token := auth.storage.Get(ACCESS_TOKEN_KEY);
      if !Truthy(token) {
        toastStore.AddToast(toastId, FETCH_NO_TOKEN_MESSAGE, Error);
        loading := false;
        auth.Logout();
        return;
      }
      match response {
        case NotOk(_) =>
          toastStore.AddToast(toastId, FETCH_FAILED_MESSAGE, Error);
          loading := false;
        case Ok(raw) =>
          events := ToTimeEvents(raw, parseDate);
        case Threw(e) =>
          toastStore.AddToast(toastId, FETCH_FAILED_MESSAGE, Error);
          error := Some(e);
      }
      loading := false;
    }

    /** The `finally` block the three writes share. */
    method ReportDone(successId: string, message: string)
      modifies this, toastStore
      ensures View() == Finally(old(View()), successId, message)
    {
      toastStore.AddToast(successId, message, Success);
      loading := false;
    }

    /** The `catch` block the three writes share. */
    method ReportThrown(errorId: string, message: string, e: string)
      modifies this, toastStore
      ensures View() == Caught(old(View()), errorId, message, e)
    {
      toastStore.AddToast(errorId, message, Error);
      error := Some(e);
    }

    method ModifyEvent(draft: EventDraft, response: Outcome<()>, errorId: string, successId: string)
      modifies this, toastStore
      ensures View() == ModifySpec(old(View()), draft, response, errorId, successId)
    {
      if !Truthy(draft.id) {
        toastStore.AddToast(errorId, MODIFY_NO_ID_MESSAGE, Error);
        return;
      }
      match response {
        case Ok(_) =>
        case NotOk(_) =>
          toastStore.AddToast(errorId, MODIFY_FAILED_MESSAGE, Error);
        case Threw(e) =>
          ReportThrown(errorId, MODIFY_FAILED_MESSAGE, e);
      }
      ReportDone(successId, MODIFIED_MESSAGE);
    }

    method CreateEvent(draft: EventDraft, response: Outcome<()>, refetch: Outcome<seq<RawEvent>>,
                       errorId: string, refetchToastId: string, successId: string)
      modifies this, toastStore, auth, auth.storage
      ensures View() == CreateSpec(old(View()), draft, response, refetch, errorId, refetchToastId, successId, parseDate)
    {
      if !Truthy(draft.title) {
        toastStore.AddToast(errorId, CREATE_NO_TITLE_MESSAGE, Error);
        return;
      }
      match response {
        case Ok(_) =>
          FetchEvents(refetch, refetchToastId);
        case NotOk(_) =>
          toastStore.AddToast(errorId, CREATE_FAILED_MESSAGE, Error);
        case Threw(e) =>
          ReportThrown(errorId, CREATE_FAILED_MESSAGE, e);
      }
      ReportDone(successId, CREATED_MESSAGE);
    }

    method DeleteEvent(response: Outcome<()>, refetch: Outcome<seq<RawEvent>>,
                       errorId: string, refetchToastId: string, successId: string)
      modifies this, toastStore, auth, auth.storage
      ensures View() == DeleteSpec(old(View()), response, refetch, errorId, refetchToastId, successId, parseDate)
    {
      match response {
        case Ok(_) =>
          FetchEvents(refetch, refetchToastId);
        case NotOk(_) =>
          toastStore.AddToast(errorId, DELETE_FAILED_MESSAGE, Error);
        case Threw(e) =>
          ReportThrown(errorId, DELETE_FAILED_MESSAGE, e);
      }
      ReportDone(successId, DELETED_MESSAGE);
    }
  }
}
