/**
 * The Tautulli tab (`TautulliView`): it builds the activity request itself,
 * fetches with `URLSession.data(from:)`, decodes inline, and reports a URL
 * that `URL(string:)` refuses with its own message.
 */
module TautulliScreen {
  import opened Wrappers
  import opened Network
  import opened TautulliApi
  import opened Activity
  import opened Defaults
  import Settings

  /** `data(from:)`: a GET with no header fields of the app's own. */
  function DataRequest(url: string): Request {
    Request("GET", url, map[])
  }

  /** How `fetchTautulliData` ends for the stored settings and the network's reply. */
  function InlineOutcome(store: map<string, string>, parses: string -> bool, exchange: Request -> Reply): FetchOutcome {
    match StoredCredentials(store)
    case None => NotConfigured
    case Some(c) =>
      var url := ActivityUrl(c.apiURL, c.apiKey);
      if !parses(url) then InvalidUrl
      else
        var reply := exchange(DataRequest(url));
        if !IsOk(reply) then Failed
        else match DecodeResponse(reply.body)
          case Ok(sessions) => Fetched(sessions)
          case Err(_) => Failed
  }

  /** The request `fetchTautulliData` issues, if it gets that far. */
  function InlineRequest(store: map<string, string>, parses: string -> bool): Option<Request> {
    match StoredCredentials(store)
    case None => None
    case Some(c) =>
      var url := ActivityUrl(c.apiURL, c.apiKey);
      if parses(url) then Some(DataRequest(url)) else None
  }

  /** Without stored credentials nothing is requested and the screen says it is not configured. */
  lemma UnconfiguredIssuesNothing(store: map<string, string>, parses: string -> bool, exchange: Request -> Reply)
    requires StoredCredentials(store).None?
    ensures InlineRequest(store, parses).None?
    ensures InlineOutcome(store, parses, exchange) == NotConfigured
  {
  }

  /** After a save permitted by the settings screen, the fetch asks for the saved instance with the saved key. */
  lemma SavedSettingsAreRequested(store: map<string, string>, apiKey: string, apiURL: string, parses: string -> bool)
    requires apiKey != "" && UrlGrammar.Matches(apiURL)
    requires parses(ActivityUrl(apiURL, apiKey))
    ensures InlineRequest(Settings.Saved(store, "Tautulli", apiKey, apiURL), parses)
         == Some(DataRequest(apiURL + ActivityQuery + apiKey))
  {
    SavedTautulliIsConfigured(store, apiKey, apiURL);
  }

  class TautulliView {
    var sessions: seq<Session>
    var isLoading: bool
    var errorMessage: Option<string>
    var refreshInterval: int
    var timer: Option<nat>
    const defaults: UserDefaults
    const timers: TimerPool

    function State(): ViewState
      reads this
    {
      ViewState(sessions, isLoading, errorMessage)
    }

    /** The screen's own timer, if any, is the only live one. */
    predicate OwnsLiveTimers()
      reads this, timers
    {
      timers.Valid() && timers.live.Keys == if timer.Some? then {timer.value} else {}
    }

    /** The screen's own timer is the only live one and repeats at the current interval. */
    predicate Valid()
      reads this, timers
    {
      OwnsLiveTimers() && (timer.Some? ==> timers.live[timer.value] == refreshInterval)
    }

    /** A new screen: `sessions = []`, `isLoading = true`, no error, no timer. */
    constructor (defaults: UserDefaults, refreshInterval: int)
      ensures Valid() && fresh(timers)
      ensures State() == InitialState && timer == None
      ensures this.defaults == defaults && this.refreshInterval == refreshInterval
    {
      sessions := [];
      isLoading := true;
      errorMessage := None;
      this.refreshInterval := refreshInterval;
      timer := None;
      this.defaults := defaults;
      timers := new TimerPool();
    }

    /** `startAutoRefresh`: invalidate the old timer, then schedule a new one at the current interval. */
    method StartAutoRefresh()
      requires OwnsLiveTimers()
      modifies this`timer, timers
      ensures Valid()
      ensures timer.Some? && timer.value !in old(timers.live)
      ensures timers.live == map[timer.value := refreshInterval]
    {
      if timer.Some? {
        timers.Invalidate(timer.value);
      }
      var handle := timers.Schedule(refreshInterval);
      timer := Some(handle);
    }

    /**
     * The refresh interval setting is set to `interval`. Like `onChange`, only
     * a different value restarts auto-refresh; the same value changes nothing.
     */
    method RefreshIntervalChanged(interval: int)
      requires Valid()
      modifies this`refreshInterval, this`timer, timers
      ensures Valid() && refreshInterval == interval
      ensures interval == old(refreshInterval) ==> timer == old(timer) && timers.live == old(timers.live)
      ensures interval != old(refreshInterval) ==>
        timer.Some? && timer.value !in old(timers.live) && timers.live == map[timer.value := interval]
      ensures State() == old(State())
    {
      if interval == refreshInterval {
        return;
      }
      refreshInterval := interval;
      StartAutoRefresh();
    }

    /**
     * `fetchTautulliData`, with its main-queue updates applied in order. On
     * a non-200 response the server-error message is written and then
     * replaced by the retry message of the `catch`.
     */
    method FetchTautulliData(parses: string -> bool, exchange: Request -> Reply) returns (request: Option<Request>)
      requires Valid()
      modifies this`sessions, this`isLoading, this`errorMessage
      ensures Valid()
      ensures request == InlineRequest(defaults.entries, parses)
      ensures State() == Apply(old(State()), InlineOutcome(defaults.entries, parses, exchange), refreshInterval)
    {
      ghost var outcome := InlineOutcome(defaults.entries, parses, exchange);
      var storedURL := defaults.StringForKey(Settings.ApiUrlKey("Tautulli"));
      var storedKey := defaults.StringForKey(Settings.ApiKeyKey("Tautulli"));
      if storedURL.None? || storedKey.None? || storedURL.value == "" || storedKey.value == "" {
        errorMessage := Some(NotConfiguredMessage);
        isLoading := false;
        return None;
      }
      assert StoredCredentials(defaults.entries) == Some(Credentials(storedURL.value, storedKey.value));
      var url := ActivityUrl(storedURL.value, storedKey.value);
      if !parses(url) {
        errorMessage := Some(InvalidUrlMessage);
        isLoading := false;
        return None;
      }
      request := Some(DataRequest(url));
      var reply := exchange(request.value);
      var thrown := false;
      match reply {
        case TransportError(_) =>
          assert outcome == Failed;
          thrown := true;
        case Response(status, body, description) =>
          if status != Some(200) {
            assert outcome == Failed;
            errorMessage := Some(ServerErrorMessage(description));
            isLoading := false;
            thrown := true;
          } else {
            match DecodeResponse(body) {
              case Ok(decoded) =>
                assert outcome == Fetched(decoded);
                sessions := decoded;
                errorMessage := None;
                isLoading := false;
              case Err(_) =>
                assert outcome == Failed;
                thrown := true;
            }
          }
      }
      if thrown {
        errorMessage := Some(RetryMessage(refreshInterval));
        isLoading := false;
      }
    }

    /** `onAppear`: start auto-refresh, then fetch. */
    method OnAppear(parses: string -> bool, exchange: Request -> Reply) returns (request: Option<Request>)
      requires Valid()
      modifies this`sessions, this`isLoading, this`errorMessage, this`timer, timers
      ensures Valid()
      ensures timer.Some? && timers.live == map[timer.value := refreshInterval]
      ensures timer.value !in old(timers.live)
      ensures old(timer).Some? ==> old(timer).value !in timers.live
      ensures request == InlineRequest(defaults.entries, parses)
      ensures State() == Apply(old(State()), InlineOutcome(defaults.entries, parses, exchange), refreshInterval)
    {
      StartAutoRefresh();
      request := FetchTautulliData(parses, exchange);
    }

    /** The scene phase changed: fetch again when it became active. */
    method ScenePhaseChanged(active: bool, parses: string -> bool, exchange: Request -> Reply)
      returns (request: Option<Request>)
      requires Valid()
      modifies this`sessions, this`isLoading, this`errorMessage
      ensures Valid()
      ensures !active ==> request == None && State() == old(State())
      ensures active ==> request == InlineRequest(defaults.entries, parses)
      ensures active ==> State() == Apply(old(State()), InlineOutcome(defaults.entries, parses, exchange), refreshInterval)
    {
      request := None;
      if active {
        request := FetchTautulliData(parses, exchange);
      }
    }

    /** A timer fired: only the live one fetches; an invalidated timer does nothing. */
    method TimerFired(handle: nat, parses: string -> bool, exchange: Request -> Reply)
      returns (request: Option<Request>)
      requires Valid()
      modifies this`sessions, this`isLoading, this`errorMessage
      ensures Valid()
      ensures timer != Some(handle) ==> request == None && State() == old(State())
      ensures timer == Some(handle) ==> request == InlineRequest(defaults.entries, parses)
      ensures timer == Some(handle)
        ==> State() == Apply(old(State()), InlineOutcome(defaults.entries, parses, exchange), refreshInterval)
    {
      request := None;
      if handle in timers.live {
        request := FetchTautulliData(parses, exchange);
      }
    }
  }
}
