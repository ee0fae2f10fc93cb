/**
 * The per-integration part of the settings screen: the instance URL and API
 * key a user types for one service (Tautulli, Radarr, ...), their validation,
 * the Save and Test Connection buttons, and the stored copy of both fields
 * in the defaults store under `apiKey_<service>` and `apiURL_<service>`.
 */
module Settings {
  import opened Wrappers
  import opened Text
  import opened UrlGrammar
  import opened Network
  import opened Defaults

  // ----- the store of saved integration settings

  /** The key the API key of `service` is stored under. */
  function ApiKeyKey(service: string): string {
    "apiKey_" + service
  }

  /** The key the instance URL of `service` is stored under. */
  function ApiUrlKey(service: string): string {
    "apiURL_" + service
  }

  /** The key of one service's API key is never the key of any service's URL. */
  lemma KeysDisjoint(a: string, b: string)
    ensures ApiKeyKey(a) != ApiUrlKey(b)
  {
    assert ApiKeyKey(a)[3] == 'K';
    assert ApiUrlKey(b)[3] == 'U';
  }

  /** Different services have different keys. */
  lemma KeysInjective(a: string, b: string)
    ensures ApiKeyKey(a) == ApiKeyKey(b) ==> a == b
    ensures ApiUrlKey(a) == ApiUrlKey(b) ==> a == b
  {
    assert ApiKeyKey(a)[7..] == a && ApiKeyKey(b)[7..] == b;
    assert ApiUrlKey(a)[7..] == a && ApiUrlKey(b)[7..] == b;
  }

  /** The screen's other stored settings live under keys no integration uses. */
  lemma OtherSettingsKeysSeparate(service: string)
    ensures "appearanceMode" != ApiKeyKey(service) && "appearanceMode" != ApiUrlKey(service)
    ensures "refreshInterval" != ApiKeyKey(service) && "refreshInterval" != ApiUrlKey(service)
  {
    assert ApiKeyKey(service)[2] == 'i' && ApiUrlKey(service)[2] == 'i';
    assert "appearanceMode"[2] == 'p';
    assert ApiKeyKey(service)[0] == 'a' && ApiUrlKey(service)[0] == 'a';
  }

  /** `string(forKey:) ?? ""` on a store. */
  function Lookup(store: map<string, string>, key: string): string {
    if key in store then store[key] else ""
  }

  /** The API key and instance URL fields of the screen. */
  datatype Fields = Fields(apiKey: string, apiURL: string)

  /** The store after `saveSettings(serviceName:)`: key first, then URL. */
  function Saved(store: map<string, string>, service: string, apiKey: string, apiURL: string): map<string, string> {
    store[ApiKeyKey(service) := apiKey][ApiUrlKey(service) := apiURL]
  }

  /** What `loadSettings(serviceName:)` puts in the two fields. */
  function Loaded(store: map<string, string>, service: string): Fields {
    Fields(Lookup(store, ApiKeyKey(service)), Lookup(store, ApiUrlKey(service)))
  }

  /** Loading a service right after saving it gives back exactly what was saved. */
  lemma LoadAfterSave(store: map<string, string>, service: string, apiKey: string, apiURL: string)
    ensures Loaded(Saved(store, service, apiKey, apiURL), service) == Fields(apiKey, apiURL)
  {
    KeysDisjoint(service, service);
  }

  /** Saving writes the service's two keys and leaves every other entry as it was. */
  lemma SaveWritesOnlyItsKeys(store: map<string, string>, service: string, apiKey: string, apiURL: string)
    ensures Saved(store, service, apiKey, apiURL).Keys == store.Keys + {ApiKeyKey(service), ApiUrlKey(service)}
    ensures forall key | key in store && key != ApiKeyKey(service) && key != ApiUrlKey(service)
      :: Saved(store, service, apiKey, apiURL)[key] == store[key]
  {
  }

  /** Saving one service does not change what another service loads. */
  lemma SaveKeepsOtherServices(store: map<string, string>, saved: string, other: string, apiKey: string, apiURL: string)
    requires saved != other
    ensures Loaded(Saved(store, saved, apiKey, apiURL), other) == Loaded(store, other)
  {
    KeysInjective(saved, other);
    KeysDisjoint(saved, other);
    KeysDisjoint(other, saved);
  }

  /** Saving an integration leaves the stored appearance mode and refresh interval alone. */
  lemma SaveKeepsOtherSettings(store: map<string, string>, service: string, apiKey: string, apiURL: string)
    ensures Lookup(Saved(store, service, apiKey, apiURL), "appearanceMode") == Lookup(store, "appearanceMode")
    ensures Lookup(Saved(store, service, apiKey, apiURL), "refreshInterval") == Lookup(store, "refreshInterval")
  {
    OtherSettingsKeysSeparate(service);
  }

  /** A second save of the same service replaces the first one completely. */
  lemma SaveOverwrites(store: map<string, string>, service: string, k1: string, u1: string, k2: string, u2: string)
    ensures Saved(Saved(store, service, k1, u1), service, k2, u2) == Saved(store, service, k2, u2)
  {
    KeysDisjoint(service, service);
  }

  /** Saving what was just loaded leaves a store that held both entries unchanged. */
  lemma SaveLoadedChangesNothing(store: map<string, string>, service: string)
    requires ApiKeyKey(service) in store && ApiUrlKey(service) in store
    ensures Saved(store, service, Loaded(store, service).apiKey, Loaded(store, service).apiURL) == store
  {
    KeysDisjoint(service, service);
  }

  /** A service never saved loads as two empty fields, and the empty URL is invalid. */
  lemma NeverSavedLoadsEmpty(store: map<string, string>, service: string)
    requires ApiKeyKey(service) !in store && ApiUrlKey(service) !in store
    ensures Loaded(store, service) == Fields("", "")
    ensures !Matches(Loaded(store, service).apiURL)
  {
    RejectsMissingScheme();
  }

  // ----- the connection test

  const InvalidUrlStatus := "Invalid API URL"
  const SuccessStatus := "\U{2705} Success: API is reachable"
  const InvalidResponseStatus := "\U{274C} Failed: Invalid response"
  const FailedPrefix := "\U{274C} Failed: "

  /** The status line is drawn green exactly when it contains "Success". */
  predicate ShowsSuccess(status: string) {
    Contains(status, "Success")
  }

  /** The request `testConnection` sends: GET `<apiURL>/status` with the key as the Authorization header. */
  function StatusRequest(apiURL: string, apiKey: string): Request {
    Request("GET", apiURL + "/status", map["Authorization" := apiKey])
  }

  /** The status line `testConnection` shows once the request has completed. */
  function StatusMessage(reply: Reply): string {
    match reply
    case TransportError(description) => FailedPrefix + description
    case Response(_, _, _) => if IsOk(reply) then SuccessStatus else InvalidResponseStatus
  }

  lemma SuccessStatusShowsSuccess()
    ensures ShowsSuccess(SuccessStatus)
  {
    var before, after := "\U{2705} ", ": API is reachable";
    assert SuccessStatus == before + "Success" + after;
    assert (before + "Success" + after)[2..9] == "Success";
    assert OccursAt(SuccessStatus, "Success", 2);
  }

  /**
   * The status is green exactly for a 200 response, or for a thrown error
   * whose own description happens to contain "Success".
   */
  lemma StatusColour(reply: Reply)
    ensures ShowsSuccess(StatusMessage(reply))
        <==> IsOk(reply) || (reply.TransportError? && Contains(reply.description, "Success"))
  {
    match reply
    case TransportError(description) =>
      ContainsAfterPrefix(FailedPrefix, description, "Success");
    case Response(_, _, _) =>
      if IsOk(reply) {
        SuccessStatusShowsSuccess();
      } else {
        NotContainsWithoutFirstChar(InvalidResponseStatus, "Success");
      }
  }

  /** The rejection of the URL itself is not shown as a success either. */
  lemma InvalidUrlStatusIsNotSuccess()
    ensures !ShowsSuccess(InvalidUrlStatus)
  {
    NotContainsWithoutFirstChar(InvalidUrlStatus, "Success");
  }

  // ----- the integration settings screen

  class SettingsView {
    var apiURL: string
    var apiKey: string
    var isURLValid: bool
    var connectionStatus: Option<string>
    var isTesting: bool
    const defaults: UserDefaults

    /** The screen's initial `@State` values. */
    constructor (defaults: UserDefaults)
      ensures apiURL == "" && apiKey == "" && isURLValid
      ensures connectionStatus == None && !isTesting
      ensures this.defaults == defaults
    {
      apiURL := "";
      apiKey := "";
      isURLValid := true;
      connectionStatus := None;
      isTesting := false;
      this.defaults := defaults;
    }

    /** The validity flag agrees with the URL grammar on the current URL. */
    predicate Validated()
      reads this
    {
      isURLValid == Matches(apiURL)
    }

    /** The Save Settings button is disabled. */
    predicate SaveDisabled()
      reads this
    {
      apiKey == "" || !isURLValid
    }

    /** The Test Connection button is disabled. */
    predicate TestDisabled()
      reads this
    {
      apiKey == "" || !isURLValid || isTesting
    }

    /** `validateURL`: matches the URL field against the grammar. */
    method ValidateURL()
      modifies this`isURLValid
      ensures isURLValid == Matches(apiURL)
    {
      MatchesIffRecognize(apiURL);
      isURLValid := Recognize(apiURL);
    }

    /** The user edits the URL field; its change handler re-validates. */
    method EditURL(text: string)
      modifies this`apiURL, this`isURLValid
      ensures apiURL == text && Validated()
    {
      apiURL := text;
      ValidateURL();
    }

    /** The user edits the API key field. */
    method EditKey(text: string)
      modifies this`apiKey
      ensures apiKey == text
    {
      apiKey := text;
    }

    /** `saveSettings(serviceName:)`: writes both fields to the store. */
    method SaveSettings(serviceName: string)
      modifies defaults
      ensures defaults.entries == Saved(old(defaults.entries), serviceName, apiKey, apiURL)
    {
      defaults.Set(apiKey, ApiKeyKey(serviceName));
      defaults.Set(apiURL, ApiUrlKey(serviceName));
    }

    /** `loadSettings(serviceName:)`: reads both fields back and re-validates. */
    method LoadSettings(serviceName: string)
      modifies this`apiKey, this`apiURL, this`isURLValid
      ensures Fields(apiKey, apiURL) == Loaded(defaults.entries, serviceName)
      ensures Validated()
      ensures ApiKeyKey(serviceName) !in defaults.entries ==> SaveDisabled() && TestDisabled()
      ensures ApiUrlKey(serviceName) !in defaults.entries ==> !isURLValid
    {
      apiKey := defaults.StringForKey(ApiKeyKey(serviceName)).GetOr("");
      apiURL := defaults.StringForKey(ApiUrlKey(serviceName)).GetOr("");
      ValidateURL();
      RejectsMissingScheme();
    }

    /**
     * The part of `testConnection` before the request is awaited: a URL
     * `URL(string:)` refuses (`parses` is false) only sets the status;
     * otherwise the test is marked running and the request is issued.
     */
    method BeginConnectionTest(parses: string -> bool) returns (request: Option<Request>)
      modifies this`isTesting, this`connectionStatus
      ensures request.None? <==> !parses(apiURL + "/status")
      ensures request.None? ==> connectionStatus == Some(InvalidUrlStatus) && isTesting == old(isTesting)
      ensures request.Some? ==> request.value == StatusRequest(apiURL, apiKey)
      ensures request.Some? ==> isTesting && connectionStatus == None && TestDisabled()
    {
      if !parses(apiURL + "/status") {
        connectionStatus := Some(InvalidUrlStatus);
        return None;
      }
      isTesting := true;
      connectionStatus := None;
      request := Some(StatusRequest(apiURL, apiKey));
    }

    /** The part of `testConnection` after the reply has arrived. */
    method FinishConnectionTest(reply: Reply)
      modifies this`isTesting, this`connectionStatus
      ensures connectionStatus == Some(StatusMessage(reply)) && !isTesting
      ensures ShowsSuccess(connectionStatus.value)
          <==> IsOk(reply) || (reply.TransportError? && Contains(reply.description, "Success"))
    {
      connectionStatus := Some(StatusMessage(reply));
      isTesting := false;
      StatusColour(reply);
    }

    /** `testConnection` run to completion against the network `exchange`. */
    method TestConnection(parses: string -> bool, exchange: Request -> Reply) returns (request: Option<Request>)
      modifies this`isTesting, this`connectionStatus
      ensures request.None? <==> !parses(apiURL + "/status")
      ensures request.None? ==> connectionStatus == Some(InvalidUrlStatus) && isTesting == old(isTesting)
      ensures request.Some? ==> request.value == StatusRequest(apiURL, apiKey) && !isTesting
      ensures request.Some? ==> connectionStatus == Some(StatusMessage(exchange(request.value)))
      ensures request.Some? && IsOk(exchange(request.value)) ==> ShowsSuccess(connectionStatus.value)
      ensures request.Some? && exchange(request.value).Response? && !IsOk(exchange(request.value))
        ==> !ShowsSuccess(connectionStatus.value)
    {
      request := BeginConnectionTest(parses);
      if request.Some? {
        FinishConnectionTest(exchange(request.value));
      }
    }
  }

  /**
   * With the flag in step with the URL, Save is enabled exactly for a
   * non-empty key and a URL in the grammar (so never for an empty URL),
   * and Test exactly when Save is and no test is running.
   */
  lemma ButtonRules(v: SettingsView)
    requires v.Validated()
    ensures !v.SaveDisabled() <==> v.apiKey != "" && Matches(v.apiURL)
    ensures !v.TestDisabled() <==> !v.SaveDisabled() && !v.isTesting
    ensures !v.SaveDisabled() ==> v.apiURL != ""
  {
    RejectsMissingScheme();
  }
}
