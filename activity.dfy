/**
 * What the two activity screens (the Tautulli tab and the home tab) have in
 * common: the state they show, the order in which it is shown, the texts
 * of their messages, the stored credentials they read, the effect of one
 * finished fetch on the state, and the timers their auto-refresh schedules.
 */
module Activity {
  import opened Wrappers
  import opened Text
  import opened UrlGrammar
  import opened TautulliApi
  import Settings

  // ----- the screen state and what is shown of it

  /** The `@State` fields `sessions`, `isLoading`, `errorMessage`. */
  datatype ViewState = ViewState(sessions: seq<Session>, isLoading: bool, errorMessage: Option<string>)

  const InitialState := ViewState([], true, None)

  /** What the list shows. */
  datatype Display = LoadingIndicator | ErrorText(message: string) | SessionList(sessions: seq<Session>)

  /** The list body: loading first, then an error, then the sessions. */
  function DisplayOf(st: ViewState): Display {
    if st.isLoading then LoadingIndicator
    else if st.errorMessage.Some? then ErrorText(st.errorMessage.value)
    else SessionList(st.sessions)
  }

  /** The display priority: each view is shown exactly in its case, and a new screen shows the indicator. */
  lemma DisplayPriority(st: ViewState)
    ensures DisplayOf(st).LoadingIndicator? <==> st.isLoading
    ensures DisplayOf(st).ErrorText? <==> !st.isLoading && st.errorMessage.Some?
    ensures DisplayOf(st).SessionList? <==> !st.isLoading && st.errorMessage.None?
    ensures DisplayOf(st).ErrorText? ==> DisplayOf(st).message == st.errorMessage.value
    ensures DisplayOf(st).SessionList? ==> DisplayOf(st).sessions == st.sessions
    ensures DisplayOf(InitialState) == LoadingIndicator
  {
  }

  // ----- messages

  const NotConfiguredMessage := "Tautulli API is not configured."
  const InvalidUrlMessage := "Invalid API URL."

  function ServerErrorMessage(response: string): string {
    "Server returned an error: " + response
  }

  /** The retry message, with the refresh interval in seconds as Swift interpolates an `Int`. */
  function RetryMessage(interval: int): string {
    "Network error: Retrying in " + IntDecimal(interval) + " sec..."
  }

  /** The retry message names the interval, and different intervals give different messages. */
  lemma RetryMessageNamesInterval(a: int, b: int)
    ensures RetryMessage(a) == RetryMessage(b) <==> a == b
    ensures Contains(RetryMessage(a), IntDecimal(a))
  {
    var ra, rb := RetryMessage(a), RetryMessage(b);
    assert ra[27..|ra| - 7] == IntDecimal(a);
    assert rb[27..|rb| - 7] == IntDecimal(b);
    IntDecimalInjective(a, b);
    assert OccursAt(ra, IntDecimal(a), 27);
  }

  /** No two kinds of message can be mistaken for each other. */
  lemma MessagesDistinct(interval: int, response: string)
    ensures NotConfiguredMessage != InvalidUrlMessage
    ensures RetryMessage(interval) != NotConfiguredMessage && RetryMessage(interval) != InvalidUrlMessage
    ensures ServerErrorMessage(response) != RetryMessage(interval)
    ensures ServerErrorMessage(response) != NotConfiguredMessage && ServerErrorMessage(response) != InvalidUrlMessage
  {
    assert RetryMessage(interval)[0] == 'N';
    assert ServerErrorMessage(response)[0] == 'S';
  }

  // ----- stored credentials

  datatype Credentials = Credentials(apiURL: string, apiKey: string)

  /**
   * The guard of `fetchTautulliData`: both Tautulli entries stored and
   * neither empty. It passes exactly when the settings screen would load a
   * non-empty key and URL for Tautulli, and then yields those two.
   */
  function StoredCredentials(store: map<string, string>): (r: Option<Credentials>)
    ensures r.Some? <==> Settings.Loaded(store, "Tautulli").apiKey != "" && Settings.Loaded(store, "Tautulli").apiURL != ""
    ensures r.Some? ==> Settings.Loaded(store, "Tautulli") == Settings.Fields(r.value.apiKey, r.value.apiURL)
  {
    var urlKey, keyKey := Settings.ApiUrlKey("Tautulli"), Settings.ApiKeyKey("Tautulli");
    if urlKey in store && keyKey in store && store[urlKey] != "" && store[keyKey] != ""
    then Some(Credentials(store[urlKey], store[keyKey]))
    else None
  }

  /**
   * What Save on the Tautulli screen permits (a non-empty key and a URL in
   * the grammar) is exactly what the activity screens then read back.
   */
  lemma SavedTautulliIsConfigured(store: map<string, string>, apiKey: string, apiURL: string)
    requires apiKey != "" && Matches(apiURL)
    ensures StoredCredentials(Settings.Saved(store, "Tautulli", apiKey, apiURL)) == Some(Credentials(apiURL, apiKey))
  {
    RejectsMissingScheme();
    Settings.LoadAfterSave(store, "Tautulli", apiKey, apiURL);
  }

  /** Saving another integration does not change the Tautulli credentials. */
  lemma OtherServiceKeepsCredentials(store: map<string, string>, service: string, apiKey: string, apiURL: string)
    requires service != "Tautulli"
    ensures StoredCredentials(Settings.Saved(store, service, apiKey, apiURL)) == StoredCredentials(store)
  {
    Settings.SaveKeepsOtherServices(store, service, "Tautulli", apiKey, apiURL);
    var after := Settings.Saved(store, service, apiKey, apiURL);
    assert Settings.Loaded(after, "Tautulli") == Settings.Loaded(store, "Tautulli");
  }

  // ----- one finished fetch

  /** How a fetch ended, as far as the screen state is concerned. */
  datatype FetchOutcome = NotConfigured | InvalidUrl | Fetched(sessions: seq<Session>) | Failed

  /** The main-queue update a finished fetch makes, with the retry message for `interval`. */
  function Apply(st: ViewState, outcome: FetchOutcome, interval: int): ViewState {
    match outcome
    case NotConfigured => st.(errorMessage := Some(NotConfiguredMessage), isLoading := false)
    case InvalidUrl => st.(errorMessage := Some(InvalidUrlMessage), isLoading := false)
    case Fetched(sessions) => ViewState(sessions, false, None)
    case Failed => st.(errorMessage := Some(RetryMessage(interval)), isLoading := false)
  }

  /**
   * After any finished fetch the list is no longer loading: it shows the
   * fetched sessions or the outcome's message, and keeps the old sessions
   * on every failure.
   */
  lemma FetchOutcomeShown(st: ViewState, outcome: FetchOutcome, interval: int)
    ensures !Apply(st, outcome, interval).isLoading
    ensures !outcome.Fetched? ==> Apply(st, outcome, interval).sessions == st.sessions
    ensures DisplayOf(Apply(st, outcome, interval)) == match outcome
      case NotConfigured => ErrorText(NotConfiguredMessage)
      case InvalidUrl => ErrorText(InvalidUrlMessage)
      case Fetched(sessions) => SessionList(sessions)
      case Failed => ErrorText(RetryMessage(interval))
  {
  }

  /** The state after a series of finished fetches, oldest first. */
  function ApplyAll(st: ViewState, outcomes: seq<FetchOutcome>, interval: int): ViewState
    decreases |outcomes|
  {
    if outcomes == [] then st
    else Apply(ApplyAll(st, outcomes[..|outcomes| - 1], interval), outcomes[|outcomes| - 1], interval)
  }

  /** The sessions of the latest successful fetch, or `initial` when none succeeded. */
  function LatestSessions(initial: seq<Session>, outcomes: seq<FetchOutcome>): seq<Session>
    decreases |outcomes|
  {
    if outcomes == [] then initial
    else if outcomes[|outcomes| - 1].Fetched? then outcomes[|outcomes| - 1].sessions
    else LatestSessions(initial, outcomes[..|outcomes| - 1])
  }

  /**
   * Loading is never shown again once a fetch has finished, and the list
   * always holds the sessions of the latest successful fetch.
   */
  lemma {:induction false} LoadingNeverReturns(st: ViewState, outcomes: seq<FetchOutcome>, interval: int)
    ensures outcomes != [] ==> !ApplyAll(st, outcomes, interval).isLoading
    ensures ApplyAll(st, outcomes, interval).sessions == LatestSessions(st.sessions, outcomes)
    decreases |outcomes|
  {
    if outcomes != [] {
      LoadingNeverReturns(st, outcomes[..|outcomes| - 1], interval);
    }
  }

  // ----- timers

  /**
   * The run loop's repeating timers, by handle: a live timer and the interval
   * it repeats at. Handles are never reused.
   */
  class TimerPool {
    var live: map<nat, int>
    var next: nat

    predicate Valid()
      reads this
    {
      forall h | h in live :: h < next
    }

    constructor ()
      ensures Valid() && live == map[] && next == 0
    {
      live := map[];
      next := 0;
    }

    /** `Timer.scheduledTimer(withTimeInterval:repeats: true)`: a new live timer. */
    method Schedule(interval: int) returns (handle: nat)
      requires Valid()
      modifies this
      ensures Valid()
      ensures handle == old(next) && handle !in old(live)
      ensures live == old(live)[handle := interval] && next == old(next) + 1
    {
      handle := next;
      live := live[handle := interval];
      next := next + 1;
    }

    /** `invalidate()`: the timer stops for good; doing it twice is harmless. */
    method Invalidate(handle: nat)
      requires Valid()
      modifies this`live
      ensures Valid()
      ensures live == old(live) - {handle}
    {
      live := live - {handle};
    }
  }
}
