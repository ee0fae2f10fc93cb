# Icarus: a verified model of its settings and activity logic

Icarus is an iOS dashboard for home media servers. Almost all of it is
SwiftUI layout. Three pieces carry logic, and this project models them in
Dafny with proofs:

* **The instance-URL validator** of the settings screen. `validateURL`
  matches the URL field against one regular expression. `UrlGrammar.Matches`
  gives that expression's meaning. The string must split into a scheme
  (`http://` or `https://`), a host (`localhost`, four dot-separated groups
  of one to three digits, or dotted labels ending in an alphabetic top-level
  domain of two or more letters), an optional `:digits` port and an
  optional `/...` path. `UrlGrammar.Recognize` is a decision procedure that
  needs no search, and the two are proved equal on every string.
* **The integration settings.** Each service (Tautulli, Radarr, ...) has a
  URL and an API key. Save writes them to `UserDefaults` under
  `apiKey_<service>` and `apiURL_<service>`, and the screen reads them back
  when it appears. The area also covers the Save and Test Connection enable
  rules, the connection test and its status line, and the appearance mode
  that `applyTheme` turns into the window's interface style.
* **The activity screens** (`TautulliView`, `HomeView`). Each is a class with
  the fields `sessions`, `isLoading`, `errorMessage`, `refreshInterval` and
  `timer`. `fetchTautulliData` turns the stored credentials and the network's
  reply into an update of those fields. `startAutoRefresh` invalidates the
  old timer before it schedules a new one, so a screen has at most one live
  timer: none until auto-refresh first starts (on `onAppear` or on a change
  of interval), and exactly one, at the current interval, from then on. The model also covers the Tautulli client
  (`fetchActivity`, the JSON shape of a session with its coding keys,
  `fullThumbURL`) and what the list shows: loading first, then the error,
  then the sessions.

The network is a function `Request -> Reply` that the caller passes in.
`URL(string:)` is a predicate `parses`, also passed in. Methods return the
request they issued, or None, so "no request is made" can be stated.
`UserDefaults` is a class holding a `map<string, string>`. Timers are
handles in a `TimerPool`, and a handle is never reused.

Modules: `Wrappers` (Option, Result), `Text` (Int interpolation,
`String.contains`), `UrlGrammar`, `Defaults`, `Settings`, `Appearance`,
`JsonModel`, `Network`, `TautulliApi`, `Activity`, `TautulliScreen`,
`HomeScreen`.

## Model

| member | source | states |
|---|---|---|
| `UrlGrammar.Matches` | Icarus/SettingsView.swift:184-186 | the full-match language of the regex: some split into scheme, host (`localhost`, `\b`-delimited dotted quad, or labels plus a TLD), port and path |
| `UrlGrammar.MatchesIffRecognize` | Icarus/SettingsView.swift:184-186 | the search-free recognizer accepts exactly the strings of the language, both directions |
| `UrlGrammar.MatchesImpliesRecognize` | Icarus/SettingsView.swift:184-186 | every string in the language is accepted by the recognizer |
| `UrlGrammar.RecognizeImpliesMatches` | Icarus/SettingsView.swift:184-186 | every string the recognizer accepts is in the language |
| `UrlGrammar.Recognize` | Icarus/SettingsView.swift:184-186 | decides the language by cutting at the first '/' and ':' after the scheme |
| `UrlGrammar.SplitCuts` | Icarus/SettingsView.swift:184 | in any split the host ends at the first ':' and the port at the first '/' after the scheme, and only host characters or ':' come before the path |
| `UrlGrammar.Ipv4IffCheck` | Icarus/SettingsView.swift:184 | the dotted-quad alternative holds iff the groups cut at the first three dots are 1-3 digits each |
| `UrlGrammar.DomainIffCheck` | Icarus/SettingsView.swift:184 | the labels-plus-TLD alternative holds iff cutting at the last dot (and backwards at each dot) succeeds |
| `UrlGrammar.LabelsImpliesCheck` | Icarus/SettingsView.swift:184 | every way of reading `([a-zA-Z0-9-]+\.)+` is found by cutting at the previous dot |
| `UrlGrammar.CheckImpliesLabels` | Icarus/SettingsView.swift:184 | cutting at dots only accepts label sequences of the expression |
| `UrlGrammar.Ipv4BoundariesHold` | Icarus/SettingsView.swift:184 | the `\b` around the dotted quad always holds in a full match, so it removes nothing |
| `UrlGrammar.SchemeRequired` | Icarus/SettingsView.swift:184 | every accepted string starts with `http://` or `https://` |
| `UrlGrammar.RejectsMissingScheme` | Icarus/SettingsView.swift:184 | `example.com` and the empty string are rejected |
| `UrlGrammar.RejectsOtherSchemes` | Icarus/SettingsView.swift:184 | `ftp://example.com` and upper-case `HTTP://example.com` are rejected |
| `UrlGrammar.RejectsForeignCharBeforePath` | Icarus/SettingsView.swift:184-186 | a character outside host characters, ':' and '/' before the path makes the string invalid |
| `UrlGrammar.RejectsTrailingQuery` | Icarus/SettingsView.swift:184-186 | `https://example.com?x` is rejected: `?x` is neither a port nor a path |
| `UrlGrammar.AcceptsAddressWithPort` | Icarus/SettingsView.swift:184 | `https://192.168.1.5:8181` is accepted |
| `UrlGrammar.AcceptsLocalhostWithPath` | Icarus/SettingsView.swift:184 | `http://localhost/api` is accepted |
| `UrlGrammar.AcceptsDomain` | Icarus/SettingsView.swift:184 | `https://example.com` is accepted |
| `UrlGrammar.AcceptsAnyDottedQuad` | Icarus/SettingsView.swift:184 | `http://` with any four 1-3 digit groups is accepted, without a range check |
| `UrlGrammar.AcceptsOutOfRangeAddress` | Icarus/SettingsView.swift:184 | `http://999.999.999.999` is accepted |
| `UrlGrammar.NumericLabelsDomain` | Icarus/SettingsView.swift:184 | `1.2.3.4.com` is not a dotted quad but is a domain |
| `UrlGrammar.BacktracksToDomain` | Icarus/SettingsView.swift:184 | in `http://1.2.3.4.com` the quad `1.2.3.4` leaves `.com`, which is no port or path, yet the whole string matches as a domain |
| `UrlGrammar.AcceptsNumericDomain` | Icarus/SettingsView.swift:184 | `http://1.2.3.4.com` is accepted, its whole host read as dotted labels plus `com` |
| `Settings.SettingsView.constructor` | Icarus/SettingsView.swift:10-14 | initial fields: empty URL and key, URL marked valid, no status, not testing |
| `Settings.SettingsView.ValidateURL` | Icarus/SettingsView.swift:183-187 | the validity flag becomes exactly membership of the URL in the language |
| `Settings.SettingsView.EditURL` | Icarus/SettingsView.swift:108-116 | editing the URL field re-validates, so the flag stays in step with the URL |
| `Settings.SettingsView.EditKey` | Icarus/SettingsView.swift:131 | editing the key field sets the key |
| `Settings.SettingsView.SaveSettings` | Icarus/SettingsView.swift:217-221 | the store becomes the old store with the key and URL written under the service's two keys |
| `Settings.SettingsView.LoadSettings` | Icarus/SettingsView.swift:224-228 | the fields become the stored entries (`""` when missing) and are re-validated; never-saved entries disable Save and Test |
| `Settings.SettingsView.BeginConnectionTest` | Icarus/SettingsView.swift:190-200 | a URL `URL(string:)` refuses only sets "Invalid API URL"; otherwise testing starts, the status clears and GET `<url>/status` with the Authorization header is issued |
| `Settings.SettingsView.FinishConnectionTest` | Icarus/SettingsView.swift:202-213 | the status becomes the reply's message and testing ends; it is green iff the reply is a 200 or an error whose description contains "Success" |
| `Settings.SettingsView.TestConnection` | Icarus/SettingsView.swift:190-214 | the whole test: the issued request, the final status and `isTesting == false` once a request was made; a 200 shows success, any other response does not |
| `Settings.ButtonRules` | Icarus/SettingsView.swift:153-170 | with the flag in step, Save is enabled iff the key is non-empty and the URL is in the language; Test iff Save is and no test runs |
| `Settings.KeysDisjoint` | Icarus/SettingsView.swift:218-219 | no service's key entry is any service's URL entry |
| `Settings.KeysInjective` | Icarus/SettingsView.swift:218-219 | different services use different keys |
| `Settings.OtherSettingsKeysSeparate` | Icarus/SettingsView.swift:5-6 | `appearanceMode` and `refreshInterval` are no integration's keys |
| `Settings.Saved` | Icarus/SettingsView.swift:217-219 | the store after `saveSettings`: the key entry, then the URL entry, of that service written; partnered by `Settings.LoadAfterSave` and the frame lemmas |
| `Settings.Loaded` | Icarus/SettingsView.swift:224-226 | the two fields `loadSettings` reads, each `?? ""`; partnered by `Settings.LoadAfterSave` |
| `Settings.LoadAfterSave` | Icarus/SettingsView.swift:217-227 | loading a service after saving it restores exactly the saved key and URL |
| `Settings.SaveWritesOnlyItsKeys` | Icarus/SettingsView.swift:217-219 | saving adds the service's two keys and leaves every other entry unchanged |
| `Settings.SaveKeepsOtherServices` | Icarus/SettingsView.swift:217-227 | saving one service changes nothing another service loads |
| `Settings.SaveKeepsOtherSettings` | Icarus/SettingsView.swift:217-219 | saving leaves the stored appearance mode and refresh interval alone |
| `Settings.SaveOverwrites` | Icarus/SettingsView.swift:217-219 | a second save of a service replaces the first completely |
| `Settings.SaveLoadedChangesNothing` | Icarus/SettingsView.swift:217-227 | saving what was loaded from a store holding both entries leaves it unchanged |
| `Settings.NeverSavedLoadsEmpty` | Icarus/SettingsView.swift:225-227 | a never-saved service loads as two empty strings, and the empty URL is invalid |
| `Settings.StatusMessage` | Icarus/SettingsView.swift:202-211 | the status text of a finished test: success for a 200, the invalid-response text for any other response, the failure prefix with the error's description for a transport error; its colour is stated by `Settings.StatusColour` |
| `Settings.StatusColour` | Icarus/SettingsView.swift:159 | the status is green iff the reply was a 200, or an error whose description contains "Success" |
| `Settings.SuccessStatusShowsSuccess` | Icarus/SettingsView.swift:205 | the success text is shown green |
| `Settings.InvalidUrlStatusIsNotSuccess` | Icarus/SettingsView.swift:192 | the refused-URL text is not shown green |
| `Appearance.FromRawValue` | Icarus/SettingsView.swift:256-259 | a string reads as a mode only if it is that mode's raw value |
| `Appearance.RawValueRoundTrip` | Icarus/SettingsView.swift:256-259 | reading a mode's raw value gives the mode back |
| `Appearance.StoredMode` | Icarus/SettingsView.swift:5 | the `@AppStorage` mode: the case of the stored raw value, `.system` when none or an unknown one is stored |
| `Appearance.ThemeFor` | Icarus/SettingsView.swift:267-276 | the switch of `applyTheme` over the stored string (nil read as "system"): the three styles, or no change for the `default` branch; stated by `Appearance.ThemeFollowsStoredMode` and `Appearance.UnknownModeKeepsStyle` |
| `Appearance.ThemeFollowsStoredMode` | Icarus/SettingsView.swift:262-278 | `applyTheme` gives the style of the stored mode, and the system style when none is stored |
| `Appearance.UnknownModeKeepsStyle` | Icarus/SettingsView.swift:267-276 | exactly the strings that are no raw value fall to `default` and leave the window as it is |
| `Appearance.ApplyTheme` | Icarus/SettingsView.swift:262-278 | no window: nothing; otherwise the style for the stored string, or unchanged for an unknown string |
| `Appearance.ScenePhaseChanged` | Icarus/SettingsView.swift:92-96 | when the scene becomes active the window takes the style for the stored string, as `applyTheme` gives it; any other phase changes nothing |
| `Appearance.SelectMode` | Icarus/SettingsView.swift:53-61 | picking a mode other than the shown one stores its raw value and gives the window its style; picking the shown mode changes nothing, as `onChange` does not run; either way the picker then shows that mode |
| `Defaults.UserDefaults.StringForKey` | Icarus/SettingsView.swift:225-226 | nil exactly for a key never set, otherwise the stored string |
| `Defaults.UserDefaults.Set` | Icarus/SettingsView.swift:218-219 | writes one entry, every other entry unchanged |
| `TautulliApi.KeyNamesDistinct` | Icarus/TautulliView.swift:179-181 | different coding keys have different member names, and none of them is the property name `progressPercent` |
| `TautulliApi.Required` | Icarus/TautulliView.swift:167-168 | a required member decodes iff it is present and not null |
| `TautulliApi.DecodeString` | Icarus/TautulliView.swift:167-168 | a `String` property decodes iff the member is a JSON string, to that string |
| `TautulliApi.DecodeOptionalNumber` | Icarus/TautulliView.swift:169 | `Double?`: absent or null is nil, a number is its value, anything else fails |
| `TautulliApi.DecodeOptionalString` | Icarus/TautulliView.swift:170 | `String?`: absent or null is nil, a string is its value, anything else fails |
| `TautulliApi.DecodeSession` | Icarus/TautulliView.swift:165-181 | decoding succeeds iff the value is an object with string `title` and `user`, and with `progress_percent` absent, null or a number and `thumb` absent, null or a string, whatever other members it has; each property is then the value of the member named by its coding key, nil for an absent or null optional |
| `TautulliApi.DecodeSessions` | Icarus/TautulliView.swift:161-163 | the array decodes iff every element does, to the elements' sessions in the same order |
| `TautulliApi.DecodeResponse` | Icarus/TautulliView.swift:153-163 | bytes that are not JSON fail as corrupted data, and a JSON value that is not an object fails |
| `TautulliApi.DecodeResponseReadsSessions` | Icarus/TautulliView.swift:153-163 | any payload, extra members included, with an array at `response.data.sessions` decodes exactly as that array's sessions |
| `TautulliApi.DecodedResponseHasSessionsPath` | Icarus/TautulliView.swift:153-163 | a payload decodes only if it has an array at `response.data.sessions`, and then as that array |
| `TautulliApi.DecodeEncodeSession` | Icarus/TautulliView.swift:165-181 | decoding an encoded session gives it back |
| `TautulliApi.DecodeEncodeResponse` | Icarus/TautulliView.swift:153-163 | decoding an encoded `response.data.sessions` payload gives back every session in order |
| `TautulliApi.CamelCaseProgressIgnored` | Icarus/TautulliView.swift:179-181 | progress is read from `progress_percent`, not from `progressPercent` |
| `TautulliApi.MissingTitleRefused` | Icarus/TautulliView.swift:167 | an object without `title` fails with key-not-found |
| `TautulliApi.ActivityUrl` | Icarus/TautulliView.swift:133 | the interpolated `get_activity` URL, the same text as the inline request of line 83; its shape is stated by `TautulliApi.ActivityUrlParts` |
| `TautulliApi.ActivityUrlParts` | Icarus/TautulliView.swift:83 | for an instance URL without a '?', the activity URL starts with the instance URL and its query is `cmd=get_activity&apikey=<key>` |
| `TautulliApi.FetchActivity` | Icarus/TautulliView.swift:132-149 | bad URL iff `URL(string:)` refuses; transport errors are thrown on; non-200 throws bad server response; a 200 returns the decoded sessions or the decoding error |
| `TautulliApi.FetchActivityReturnsPayload` | Icarus/TautulliView.swift:141-148 | a 200 reply whose payload has an array at `response.data.sessions` that decodes makes `fetchActivity` return those sessions, in order |
| `TautulliApi.FullThumbUrl` | Icarus/TautulliView.swift:173-177 | nil for a missing or empty thumb or no stored URL; otherwise the stored URL followed by the thumb, when it parses |
| `TautulliApi.ThumbWithEmptyStoredUrl` | Icarus/TautulliView.swift:173-177 | an empty stored URL is not refused: the thumb path alone is used |
| `Activity.DisplayOf` | Icarus/HomeView.swift:14-20 | the list body: the indicator while loading, else the error text, else the sessions; its properties are stated by `Activity.DisplayPriority` |
| `Activity.DisplayPriority` | Icarus/HomeView.swift:14-20 | loading if `isLoading`, else the error if there is one, else the sessions; a new screen shows loading |
| `Activity.RetryMessage` | Icarus/TautulliView.swift:123 | the retry text with the interval interpolated as a decimal `Int`; `Activity.RetryMessageNamesInterval` states that it names the interval and is injective in it |
| `Activity.RetryMessageNamesInterval` | Icarus/TautulliView.swift:123 | the retry message contains the interval, and different intervals give different messages |
| `Activity.MessagesDistinct` | Icarus/TautulliView.swift:77-123 | the not-configured, invalid-URL, server-error and retry texts are pairwise different |
| `Activity.StoredCredentials` | Icarus/TautulliView.swift:73-75 | the fetch guard passes iff the stored Tautulli key and URL, read with the settings screen's `?? ""`, are both non-empty, and then yields them |
| `Activity.SavedTautulliIsConfigured` | Icarus/TautulliView.swift:73-75 | a save that the Save button allows is read back by the fetch guard as configured, with the saved URL and key |
| `Activity.OtherServiceKeepsCredentials` | Icarus/TautulliView.swift:73-75 | saving another integration does not change the Tautulli credentials |
| `Activity.Apply` | Icarus/TautulliView.swift:76-125 | the main-queue update of each outcome: not configured and invalid URL set their messages, a success replaces the sessions and clears the error, a failure sets the retry message; loading ends in every case (lines 76-79, 85-88, 113-117, 122-125); stated by `Activity.FetchOutcomeShown` |
| `Activity.FetchOutcomeShown` | Icarus/TautulliView.swift:76-125 | after any finished fetch loading is over; the list shows the sessions or the outcome's message; failures keep the old sessions |
| `Activity.LoadingNeverReturns` | Icarus/TautulliView.swift:5-124 | after one or more fetches loading never shows again, and the sessions are those of the latest successful fetch |
| `Activity.TimerPool.Schedule` | Icarus/TautulliView.swift:66-68 | a new live timer under a handle never used before |
| `Activity.TimerPool.Invalidate` | Icarus/TautulliView.swift:65 | the timer is no longer live; nothing else changes |
| `TautulliScreen.InlineOutcome` | Icarus/TautulliView.swift:72-126 | how the Tautulli tab's fetch ends: not configured, invalid URL when `URL(string:)` refuses, fetched on a 200 that decodes, failed otherwise; `TautulliView.FetchTautulliData` is proved against it |
| `TautulliScreen.UnconfiguredIssuesNothing` | Icarus/TautulliView.swift:73-80 | missing or empty credentials issue no request and end as not configured |
| `TautulliScreen.SavedSettingsAreRequested` | Icarus/TautulliView.swift:73-96 | after an allowed save, the fetch requests `<saved URL>/api/v2?cmd=get_activity&apikey=<saved key>` |
| `TautulliScreen.TautulliView.constructor` | Icarus/TautulliView.swift:4-9 | `sessions = []`, `isLoading = true`, no error, no timer and no live timer |
| `TautulliScreen.TautulliView.StartAutoRefresh` | Icarus/TautulliView.swift:64-69 | afterwards the only live timer is a new one at the current interval |
| `TautulliScreen.TautulliView.RefreshIntervalChanged` | Icarus/TautulliView.swift:57-59 | a different interval restarts auto-refresh at that interval, the same interval keeps the timer, as `onChange` does not run; the list state is unchanged |
| `TautulliScreen.TautulliView.FetchTautulliData` | Icarus/TautulliView.swift:72-127 | issues the data request only when configured and the URL parses; the new state is the outcome's update, with the retry message replacing the server-error message |
| `TautulliScreen.TautulliView.OnAppear` | Icarus/TautulliView.swift:48-51 | starts auto-refresh, then fetches |
| `TautulliScreen.TautulliView.ScenePhaseChanged` | Icarus/TautulliView.swift:52-56 | fetches only when the scene became active |
| `TautulliScreen.TautulliView.TimerFired` | Icarus/TautulliView.swift:66-68 | only the live timer fetches; an invalidated one changes nothing |
| `HomeScreen.ApiOutcome` | Icarus/HomeView.swift:72-96 | how the home tab's fetch ends: not configured, fetched when `fetchActivity` returns, failed on any error it throws; `HomeView.FetchTautulliData` is proved against it |
| `HomeScreen.TabsAgree` | Icarus/HomeView.swift:72-96 | with the same reply for both requests the two tabs reach the same state; a refused URL gives "Invalid API URL." on one and the retry message on the other |
| `HomeScreen.SavedSettingsShowServerSessions` | Icarus/HomeView.swift:83-89 | saved settings and a 200 reply whose `response.data.sessions` array decodes put exactly those sessions on screen, with no error and no loading |
| `HomeScreen.HomeView.constructor` | Icarus/HomeView.swift:4-9 | `sessions = []`, `isLoading = true`, no error, no timer and no live timer |
| `HomeScreen.HomeView.StartAutoRefresh` | Icarus/HomeView.swift:64-69 | afterwards the only live timer is a new one at the current interval |
| `HomeScreen.HomeView.RefreshIntervalChanged` | Icarus/HomeView.swift:57-59 | a different interval restarts auto-refresh at that interval, the same interval keeps the timer, as `onChange` does not run; the list state is unchanged |
| `HomeScreen.HomeView.FetchTautulliData` | Icarus/HomeView.swift:72-96 | not configured: message, no request; otherwise `fetchActivity`'s sessions replace the list, or any thrown error sets the retry message and keeps the sessions |
| `HomeScreen.HomeView.OnAppear` | Icarus/HomeView.swift:48-51 | starts auto-refresh, then fetches |
| `HomeScreen.HomeView.ScenePhaseChanged` | Icarus/HomeView.swift:52-56 | fetches only when the scene became active |
| `HomeScreen.HomeView.TimerFired` | Icarus/HomeView.swift:66-68 | only the live timer fetches; an invalidated one changes nothing |
| `Text.IntValueOfIntDecimal` | Icarus/TautulliView.swift:123 | the decimal text of an interpolated `Int` reads back as that integer |
| `Text.IntDecimalInjective` | Icarus/TautulliView.swift:123 | different integers interpolate differently |
| `Text.ContainsAfterPrefix` | Icarus/SettingsView.swift:159 | a prefix without the first character of the searched text adds no occurrence |

## Left out

- `UrlGrammar.Matches`: `\d` is modelled as the ASCII digits `0-9`, but ICU's `\d` also matches other Unicode decimal digits. `\w` in the word boundary is ASCII as well. This makes no difference next to '/', ':' and ASCII digits.
- `Settings.StatusColour`, `Appearance.ApplyTheme` and the store lookups compare strings as sequences of code points (`Text.Contains`, `==`, `match`). Swift's `String` `==`, `switch` over strings and `contains` compare by canonical equivalence instead. The two differ only on text where a combining mark follows a literal the source compares against: a transport-error description "Success" followed by U+0301 contains "Success" in the model, so `Settings.StatusColour` shows it green, while Swift's `contains("Success")` does not match the last letter, which there is part of the character "s"+U+0301.
- `URL(string:)` is a predicate `parses` given by the caller. URLSession is a function from request to reply. Foundation's URL parsing and the real network are not modelled.
- `JSONDecoder` is modelled from an already-parsed JSON value. Parsing bytes is reduced to "is JSON" or "is not" (`Body.NotJson`, reported as corrupted data).
- `TautulliApi.Session`: `progressPercent` is a real number, not a 64-bit `Double`. The `progress / 100` drawing arithmetic and the `UUID` session ids are left out.
- `DispatchQueue.main.async`, `Task` and `async`/`await` are sequentialised. Each fetch applies its main-queue updates in order before the next event. Interleavings, stale replies and overlapping fetches are not modelled, and the source has no guard against them either.
- `Timer` firing at real times is left out. A timer is a handle in `Activity.TimerPool`, and a firing is the event `TimerFired`. A timer interval of zero or less, which Foundation raises to a tiny positive value, is kept as given.
- `refreshInterval` is a field of each activity screen, set by `RefreshIntervalChanged`. The refresh-interval picker and `@AppStorage` propagating the value between screens are not modelled.
- `Settings.SettingsView.TestConnection` runs the whole test as one step. `BeginConnectionTest` and `FinishConnectionTest` expose the `isTesting` state during the request.
- `Activity.TimerPool`: each screen instance owns its pool, so "at most one live timer" holds per instance. Timers of discarded view instances are not modelled: in the split-view layout ContentView.swift:35-39 creates a new `HomeView` on every sidebar switch, and nothing invalidates the old instance's `Timer`, which keeps firing.
- `Activity.LoadingNeverReturns` assumes one refresh interval for the whole series of fetches.
- The debug `print` output, the "Clear Cache" placeholder, Sign in with Apple, the SwiftUI view bodies and navigation are left out. ContentView.swift and DetailView.swift are not part of this model.
