/**
 * The home tab (`HomeView`): the same state and timer as the Tautulli tab,
 * but the fetch is delegated to `TautulliAPI.fetchActivity`, so every
 * thrown error, a refused URL included, ends in the retry message.
 */
module HomeScreen {
  import opened Wrappers
  import opened Network
  import opened JsonModel
  import opened TautulliApi
  import opened Activity
  import opened Defaults
  import Settings
  import TautulliScreen

  /** How `fetchTautulliData` ends for the stored settings and the network's reply. */
  function ApiOutcome(store: map<string, string>, parses: string -> bool, exchange: Request -> Reply): FetchOutcome {
    match StoredCredentials(store)
    case None => NotConfigured
    case Some(c) =>
      match FetchActivity(c.apiURL, c.apiKey, parses, exchange)
      case Ok(sessions) => Fetched(sessions)
      case Err(_) => Failed
  }

  /** The request `fetchActivity` issues on the home tab's behalf, if it gets that far. */
  function ApiRequest(store: map<string, string>, parses: string -> bool): Option<Request> {
    match StoredCredentials(store)
    case None => None
    case Some(c) =>
      var url := ActivityUrl(c.apiURL, c.apiKey);
      if parses(url) then Some(ActivityRequest(url)) else None
  }

  /**
   * The two tabs agree on every fetch, provided the server does not answer
   * differently because of the User-Agent header, except for a URL that
   * `URL(string:)` refuses: the Tautulli tab then says so, the home tab
   * shows the retry message.
   */
  lemma TabsAgree(store: map<string, string>, parses: string -> bool, exchange: Request -> Reply)
    ensures StoredCredentials(store).None? ==>
      (ApiOutcome(store, parses, exchange) == NotConfigured
       && TautulliScreen.InlineOutcome(store, parses, exchange) == NotConfigured)
    ensures StoredCredentials(store).Some?
            && !parses(ActivityUrl(StoredCredentials(store).value.apiURL, StoredCredentials(store).value.apiKey)) ==>
      (ApiOutcome(store, parses, exchange) == Failed
       && TautulliScreen.InlineOutcome(store, parses, exchange) == InvalidUrl)
    ensures (StoredCredentials(store).Some? &&
             var url := ActivityUrl(StoredCredentials(store).value.apiURL, StoredCredentials(store).value.apiKey);
             parses(url) && exchange(ActivityRequest(url)) == exchange(TautulliScreen.DataRequest(url)))
      ==> ApiOutcome(store, parses, exchange) == TautulliScreen.InlineOutcome(store, parses, exchange)
  {
  }

  /** End to end: saved settings and a server answering 200 with sessions put exactly those sessions on screen. */
  lemma SavedSettingsShowServerSessions(store: map<string, string>, apiKey: string, apiURL: string,
                                        parses: string -> bool, exchange: Request -> Reply,
                                        v: Json, items: seq<Json>, sessions: seq<Session>, description: string,
                                        st: ViewState, interval: int)
    requires apiKey != "" && UrlGrammar.Matches(apiURL)
    requires parses(ActivityUrl(apiURL, apiKey))
    requires exchange(ActivityRequest(ActivityUrl(apiURL, apiKey))) == Response(Some(200), JsonBody(v), description)
    requires SessionsPath(v, items) && DecodeSessions(items) == Ok(sessions)
    ensures Apply(st, ApiOutcome(Settings.Saved(store, "Tautulli", apiKey, apiURL), parses, exchange), interval)
         == ViewState(sessions, false, None)
    ensures DisplayOf(Apply(st, ApiOutcome(Settings.Saved(store, "Tautulli", apiKey, apiURL), parses, exchange), interval))
         == SessionList(sessions)
  {
    SavedTautulliIsConfigured(store, apiKey, apiURL);
    FetchActivityReturnsPayload(apiURL, apiKey, parses, exchange, v, items, sessions, description);
  }

  class HomeView {
    var sessions: seq<Session>
    var isLoading: bool
    var errorMessage: Option<string>
    var refreshInterval: int
    var timer: Option<nat>
    const defaults: UserDefaults
    const timers: TimerPool

    function State(): ViewState
      reads this
    {
      ViewState(sessions, isLoading, errorMessage)
    }

    /** The screen's own timer, if any, is the only live one. */
    predicate OwnsLiveTimers()
      reads this, timers
    {
      timers.Valid() && timers.live.Keys == if timer.Some? then {timer.value} else {}
    }

    /** The screen's own timer is the only live one and repeats at the current interval. */
    predicate Valid()
      reads this, timers
    {
      OwnsLiveTimers() && (timer.Some? ==> timers.live[timer.value] == refreshInterval)
    }

    /** A new screen: `sessions = []`, `isLoading = true`, no error, no timer. */
    constructor (defaults: UserDefaults, refreshInterval: int)
      ensures Valid() && fresh(timers)
      ensures State() == InitialState && timer == None
      ensures this.defaults == defaults && this.refreshInterval == refreshInterval
    {
      sessions := [];
      isLoading := true;
      errorMessage := None;
      this.refreshInterval := refreshInterval;
      timer := None;
      this.defaults := defaults;
      timers := new TimerPool();
    }

    /** `startAutoRefresh`: invalidate the old timer, then schedule a new one at the current interval. */
    method StartAutoRefresh()
      requires OwnsLiveTimers()
      modifies this`timer, timers
      ensures Valid()
      ensures timer.Some? && timer.value !in old(timers.live)
      ensures timers.live == map[timer.value := refreshInterval]
    {
      if timer.Some? {
        timers.Invalidate(timer.value);
      }
      var handle := timers.Schedule(refreshInterval);
      timer := Some(handle);
    }

    /**
     * The refresh interval setting is set to `interval`. Like `onChange`, only
     * a different value restarts auto-refresh; the same value changes nothing.
     */
    method RefreshIntervalChanged(interval: int)
      requires Valid()
      modifies this`refreshInterval, this`timer, timers
      ensures Valid() && refreshInterval == interval
      ensures interval == old(refreshInterval) ==> timer == old(timer) && timers.live == old(timers.live)
      ensures interval != old(refreshInterval) ==>
        timer.Some? && timer.value !in old(timers.live) && timers.live == map[timer.value := interval]
      ensures State() == old(State())
    {
      if interval == refreshInterval {
        return;
      }
      refreshInterval := interval;
      StartAutoRefresh();
    }

    /** `fetchTautulliData` through `fetchActivity`, with its main-queue updates applied in order. */
    method FetchTautulliData(parses: string -> bool, exchange: Request -> Reply) returns (request: Option<Request>)
      requires Valid()
      modifies this`sessions, this`isLoading, this`errorMessage
      ensures Valid()
      ensures request == ApiRequest(defaults.entries, parses)
      ensures State() == Apply(old(State()), ApiOutcome(defaults.entries, parses, exchange), refreshInterval)
    {
      var storedURL := defaults.StringForKey(Settings.ApiUrlKey("Tautulli"));
      var storedKey := defaults.StringForKey(Settings.ApiKeyKey("Tautulli"));
      if storedURL.None? || storedKey.None? || storedURL.value == "" || storedKey.value == "" {
        errorMessage := Some(NotConfiguredMessage);
        isLoading := false;
        return None;
      }
      assert StoredCredentials(defaults.entries) == Some(Credentials(storedURL.value, storedKey.value));
      var url := ActivityUrl(storedURL.value, storedKey.value);
      request := if parses(url) then Some(ActivityRequest(url)) else None;
      var fetched := FetchActivity(storedURL.value, storedKey.value, parses, exchange);
      match fetched {
        case Ok(decoded) =>
          sessions := decoded;
          errorMessage := None;
          isLoading := false;
        case Err(_) =>
          errorMessage := Some(RetryMessage(refreshInterval));
          isLoading := false;
      }
    }

    /** `onAppear`: start auto-refresh, then fetch. */
    method OnAppear(parses: string -> bool, exchange: Request -> Reply) returns (request: Option<Request>)
      requires Valid()
      modifies this`sessions, this`isLoading, this`errorMessage, this`timer, timers
      ensures Valid()
      ensures timer.Some? && timers.live == map[timer.value := refreshInterval]
      ensures timer.value !in old(timers.live)
      ensures old(timer).Some? ==> old(timer).value !in timers.live
      ensures request == ApiRequest(defaults.entries, parses)
      ensures State() == Apply(old(State()), ApiOutcome(defaults.entries, parses, exchange), refreshInterval)
    {
      StartAutoRefresh();
      request := FetchTautulliData(parses, exchange);
    }

    /** The scene phase changed: fetch again when it became active. */
    method ScenePhaseChanged(active: bool, parses: string -> bool, exchange: Request -> Reply)
      returns (request: Option<Request>)
      requires Valid()
      modifies this`sessions, this`isLoading, this`errorMessage
      ensures Valid()
      ensures !active ==> request == None && State() == old(State())
      ensures active ==> request == ApiRequest(defaults.entries, parses)
      ensures active ==> State() == Apply(old(State()), ApiOutcome(defaults.entries, parses, exchange), refreshInterval)
    {
      request := None;
      if active {
        request := FetchTautulliData(parses, exchange);
      }
    }

    /** A timer fired: only the live one fetches; an invalidated timer does nothing. */
    method TimerFired(handle: nat, parses: string -> bool, exchange: Request -> Reply)
      returns (request: Option<Request>)
      requires Valid()
      modifies this`sessions, this`isLoading, this`errorMessage
      ensures Valid()
      ensures timer != Some(handle) ==> request == None && State() == old(State())
      ensures timer == Some(handle) ==> request == ApiRequest(defaults.entries, parses)
      ensures timer == Some(handle)
        ==> State() == Apply(old(State()), ApiOutcome(defaults.entries, parses, exchange), refreshInterval)
    {
      request := None;
      if handle in timers.live {
        request := FetchTautulliData(parses, exchange);
      }
    }
  }
}
