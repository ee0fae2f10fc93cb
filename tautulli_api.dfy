/**
 * The Tautulli client shared by the activity screens: the session record
 * and its JSON keys, the decoding `JSONDecoder` performs for it, the
 * activity request and `TautulliAPI.fetchActivity`, and a session's full
 * thumbnail URL.
 */
module TautulliApi {
  import opened Wrappers
  import opened Text
  import opened JsonModel
  import opened Network
  import opened UrlGrammar
  import Settings

  /** One playing stream. `progressPercent` is the JSON number as read; Double rounding is not modelled. */
  datatype Session = Session(title: string, user: string, progressPercent: Option<real>, thumb: Option<string>)

  // ----- coding keys

  datatype CodingKey = Title | User | ProgressPercent | Thumb

  /** The JSON member name of each stored property. */
  function KeyName(key: CodingKey): string {
    match key
    case Title => "title"
    case User => "user"
    case ProgressPercent => "progress_percent"
    case Thumb => "thumb"
  }

  /**
   * Each property is read from a member of its own, and the property's
   * Swift name `progressPercent` is not one of the member names.
   */
  lemma KeyNamesDistinct(a: CodingKey, b: CodingKey)
    ensures KeyName(a) == KeyName(b) ==> a == b
    ensures KeyName(a) != "progressPercent"
  {
  }

  // ----- decoding

  /** The errors `JSONDecoder` throws, with the key they are about ("" for the value itself). */
  datatype DecodeError = KeyNotFound(key: string) | ValueNotFound(key: string) | TypeMismatch(key: string) | DataCorrupted

  /** A keyed container: the members of an object. */
  function Container(value: Json, key: string): (r: Result<map<string, Json>, DecodeError>)
    ensures r.Ok? <==> value.Object?
  {
    match value
    case Object(fields) => Ok(fields)
    case Null => Err(ValueNotFound(key))
    case _ => Err(TypeMismatch(key))
  }

  /** `decode(_:forKey:)` of a non-optional property: the member must be present and not null. */
  function Required(fields: map<string, Json>, key: string): (r: Result<Json, DecodeError>)
    ensures r.Ok? <==> key in fields && !fields[key].Null?
    ensures r.Ok? ==> r.value == fields[key]
  {
    if key !in fields then Err(KeyNotFound(key))
    else if fields[key].Null? then Err(ValueNotFound(key))
    else Ok(fields[key])
  }

  /** A non-optional `String` property. */
  function DecodeString(fields: map<string, Json>, key: string): (r: Result<string, DecodeError>)
    ensures r.Ok? <==> key in fields && fields[key].Str?
    ensures r.Ok? ==> r.value == fields[key].s
  {
    var value :- Required(fields, key);
    if value.Str? then Ok(value.s) else Err(TypeMismatch(key))
  }

  /** `decodeIfPresent` of a `Double?` property: absent or null is nil. */
  function DecodeOptionalNumber(fields: map<string, Json>, key: string): (r: Result<Option<real>, DecodeError>)
    ensures r.Ok? <==> key !in fields || fields[key].Null? || fields[key].Number?
    ensures r.Ok? && r.value.Some? <==> key in fields && fields[key].Number?
    ensures r.Ok? && r.value.Some? ==> r.value.value == fields[key].n
  {
    if key !in fields || fields[key].Null? then Ok(None)
    else if fields[key].Number? then Ok(Some(fields[key].n))
    else Err(TypeMismatch(key))
  }

  /** `decodeIfPresent` of a `String?` property: absent or null is nil. */
  function DecodeOptionalString(fields: map<string, Json>, key: string): (r: Result<Option<string>, DecodeError>)
    ensures r.Ok? <==> key !in fields || fields[key].Null? || fields[key].Str?
    ensures r.Ok? && r.value.Some? <==> key in fields && fields[key].Str?
    ensures r.Ok? && r.value.Some? ==> r.value.value == fields[key].s
  {
    if key !in fields || fields[key].Null? then Ok(None)
    else if fields[key].Str? then Ok(Some(fields[key].s))
    else Err(TypeMismatch(key))
  }

  /**
   * The objects the synthesized `init(from:)` accepts: `title` and `user`
   * hold strings, `progress_percent` is absent, null or a number, `thumb` is
   * absent, null or a string; any other member may be there too.
   */
  predicate SessionMembers(value: Json) {
    && value.Object?
    && KeyName(Title) in value.fields && value.fields[KeyName(Title)].Str?
    && KeyName(User) in value.fields && value.fields[KeyName(User)].Str?
    && (KeyName(ProgressPercent) !in value.fields || value.fields[KeyName(ProgressPercent)].Null?
        || value.fields[KeyName(ProgressPercent)].Number?)
    && (KeyName(Thumb) !in value.fields || value.fields[KeyName(Thumb)].Null? || value.fields[KeyName(Thumb)].Str?)
  }

  /**
   * The synthesized `init(from:)` of a session: properties are read in
   * declaration order under their coding keys; other members are ignored.
   */
  function DecodeSession(value: Json): (r: Result<Session, DecodeError>)
    ensures r.Ok? <==> SessionMembers(value)
    ensures r.Ok? ==> value.fields[KeyName(Title)] == Str(r.value.title)
    ensures r.Ok? ==> value.fields[KeyName(User)] == Str(r.value.user)
    ensures r.Ok? ==> (r.value.progressPercent
      == if KeyName(ProgressPercent) in value.fields && value.fields[KeyName(ProgressPercent)].Number?
         then Some(value.fields[KeyName(ProgressPercent)].n) else None)
    ensures r.Ok? ==> (r.value.thumb
      == if KeyName(Thumb) in value.fields && value.fields[KeyName(Thumb)].Str?
         then Some(value.fields[KeyName(Thumb)].s) else None)
  {
    var fields :- Container(value, "");
    var title :- DecodeString(fields, KeyName(Title));
    var user :- DecodeString(fields, KeyName(User));
    var progress :- DecodeOptionalNumber(fields, KeyName(ProgressPercent));
    var thumb :- DecodeOptionalString(fields, KeyName(Thumb));
    Ok(Session(title, user, progress, thumb))
  }

  /** An array of sessions, decoded element by element; the first failure is thrown. */
  function DecodeSessions(items: seq<Json>): (r: Result<seq<Session>, DecodeError>)
    ensures r.Ok? <==> forall i | 0 <= i < |items| :: DecodeSession(items[i]).Ok?
    ensures r.Ok? ==> |r.value| == |items|
    ensures r.Ok? ==> forall i | 0 <= i < |items| :: DecodeSession(items[i]) == Ok(r.value[i])
  {
    if items == [] then Ok([])
    else
      var first :- DecodeSession(items[0]);
      var rest :- DecodeSessions(items[1..]);
      Ok([first] + rest)
  }

  /**
   * `v` is an object whose `response` member is an object whose `data`
   * member is an object whose `sessions` member is the array `items`;
   * other members at every level may be there too.
   */
  predicate SessionsPath(v: Json, items: seq<Json>) {
    && v.Object? && "response" in v.fields
    && var response := v.fields["response"];
       && response.Object? && "data" in response.fields
       && var data := response.fields["data"];
          && data.Object? && "sessions" in data.fields
          && data.fields["sessions"] == Array(items)
  }

  /** `TautulliResponse`: the sessions at `response.data.sessions` of the payload. */
  function DecodeResponse(body: Body): (r: Result<seq<Session>, DecodeError>)
    ensures body.NotJson? ==> r == Err(DataCorrupted)
    ensures body.JsonBody? && !body.value.Object? ==> r.Err?
  {
    match body
    case NotJson => Err(DataCorrupted)
    case JsonBody(value) =>
      var top :- Container(value, "");
      var response :- Required(top, "response");
      var responseFields :- Container(response, "response");
      var data :- Required(responseFields, "data");
      var dataFields :- Container(data, "data");
      var sessions :- Required(dataFields, "sessions");
      if sessions.Array? then DecodeSessions(sessions.items) else Err(TypeMismatch("sessions"))
  }

  /** Any payload with an array at `response.data.sessions` decodes as exactly that array's sessions. */
  lemma DecodeResponseReadsSessions(v: Json, items: seq<Json>)
    requires SessionsPath(v, items)
    ensures DecodeResponse(JsonBody(v)) == DecodeSessions(items)
  {
  }

  /** Conversely, a payload decodes only if it has an array at `response.data.sessions`, and then as that array. */
  lemma DecodedResponseHasSessionsPath(v: Json)
    requires DecodeResponse(JsonBody(v)).Ok?
    ensures exists items :: SessionsPath(v, items) && DecodeSessions(items) == DecodeResponse(JsonBody(v))
  {
    var items := v.fields["response"].fields["data"].fields["sessions"].items;
    assert SessionsPath(v, items);
  }

  // ----- encoding, the partner of decoding

  /** A session as the synthesized `encode(to:)` writes it: nil properties are left out. */
  function EncodeSession(s: Session): Json {
    var required := map[KeyName(Title) := Str(s.title), KeyName(User) := Str(s.user)];
    var withProgress :=
      if s.progressPercent.Some? then required[KeyName(ProgressPercent) := Number(s.progressPercent.value)]
      else required;
    Object(if s.thumb.Some? then withProgress[KeyName(Thumb) := Str(s.thumb.value)] else withProgress)
  }

  /** A payload carrying `sessions` at `response.data.sessions`. */
  function EncodeResponse(sessions: seq<Session>): Json {
    var items := seq(|sessions|, i requires 0 <= i < |sessions| => EncodeSession(sessions[i]));
    Object(map["response" := Object(map["data" := Object(map["sessions" := Array(items)])])])
  }

  /** Decoding an encoded session gives the session back. */
  lemma DecodeEncodeSession(s: Session)
    ensures DecodeSession(EncodeSession(s)) == Ok(s)
  {
    var fields := EncodeSession(s).fields;
    assert DecodeString(fields, KeyName(Title)) == Ok(s.title);
    assert DecodeString(fields, KeyName(User)) == Ok(s.user);
    assert DecodeOptionalNumber(fields, KeyName(ProgressPercent)) == Ok(s.progressPercent);
    assert DecodeOptionalString(fields, KeyName(Thumb)) == Ok(s.thumb);
  }

  /** Decoding an encoded payload gives back every session, in payload order. */
  lemma DecodeEncodeResponse(sessions: seq<Session>)
    ensures DecodeResponse(JsonBody(EncodeResponse(sessions))) == Ok(sessions)
  {
    var items := seq(|sessions|, i requires 0 <= i < |sessions| => EncodeSession(sessions[i]));
    assert SessionsPath(EncodeResponse(sessions), items);
    DecodeResponseReadsSessions(EncodeResponse(sessions), items);
    forall i | 0 <= i < |items|
      ensures DecodeSession(items[i]) == Ok(sessions[i])
    {
      DecodeEncodeSession(sessions[i]);
    }
    var r := DecodeSessions(items);
    assert r.Ok?;
    assert r.value == sessions;
  }

  /** Under the property's own name the progress is not read: only `progress_percent` is. */
  lemma CamelCaseProgressIgnored(title: string, user: string, progress: real)
    ensures DecodeSession(Object(map["title" := Str(title), "user" := Str(user), "progressPercent" := Number(progress)]))
         == Ok(Session(title, user, None, None))
    ensures DecodeSession(Object(map["title" := Str(title), "user" := Str(user), "progress_percent" := Number(progress)]))
         == Ok(Session(title, user, Some(progress), None))
  {
    var camel := map["title" := Str(title), "user" := Str(user), "progressPercent" := Number(progress)];
    assert "progress_percent" !in camel;
    assert "thumb" !in camel;
    var snake := map["title" := Str(title), "user" := Str(user), "progress_percent" := Number(progress)];
    assert "thumb" !in snake;
  }

  /** A session without a `title` member is refused with key-not-found. */
  lemma MissingTitleRefused(fields: map<string, Json>)
    requires "title" !in fields
    ensures DecodeSession(Object(fields)) == Err(KeyNotFound("title"))
  {
  }

  // ----- the activity request

  /** The text between the instance URL and the key in the activity request. */
  const ActivityQuery := "/api/v2?cmd=get_activity&apikey="

  /** The URL text of the `get_activity` command. */
  function ActivityUrl(apiURL: string, apiKey: string): string {
    apiURL + ActivityQuery + apiKey
  }

  /** The query of a URL: the text after its first '?', if it has one. */
  function Query(url: string): Option<string> {
    var q := Find(url, '?', 0, |url|);
    if q < |url| then Some(url[q + 1..]) else None
  }

  /**
   * For an instance URL without a '?', the activity URL keeps it as its
   * start and its query is exactly the command with the key.
   */
  lemma ActivityUrlParts(apiURL: string, apiKey: string)
    requires forall m | 0 <= m < |apiURL| :: apiURL[m] != '?'
    ensures ActivityUrl(apiURL, apiKey)[..|apiURL|] == apiURL
    ensures Query(ActivityUrl(apiURL, apiKey)) == Some("cmd=get_activity&apikey=" + apiKey)
  {
    var url := ActivityUrl(apiURL, apiKey);
    var q := |apiURL| + 7;
    assert url[q] == '?';
    forall m | 0 <= m < q
      ensures url[m] != '?'
    {
      if m >= |apiURL| {
        assert url[m] == ActivityQuery[m - |apiURL|];
      }
    }
    FindIs(url, '?', 0, |url|, q);
    assert url[q + 1..] == ActivityQuery[8..] + apiKey;
  }

  const UserAgent := "Mozilla/5.0 (iPhone; CPU iPhone OS 17_0 like Mac OS X)"

  /** The request `fetchActivity` sends: a GET with a browser User-Agent. */
  function ActivityRequest(url: string): Request {
    Request("GET", url, map["User-Agent" := UserAgent])
  }

  /** The errors `fetchActivity` throws. */
  datatype FetchError = BadUrl | BadServerResponse | Transport(description: string) | Decoding(error: DecodeError)

  /**
   * `TautulliAPI.fetchActivity` against the network `exchange`, with
   * `parses` standing for `URL(string:)`.
   */
  function FetchActivity(apiURL: string, apiKey: string, parses: string -> bool, exchange: Request -> Reply)
    : (r: Result<seq<Session>, FetchError>)
    ensures r == Err(BadUrl) <==> !parses(ActivityUrl(apiURL, apiKey))
    ensures parses(ActivityUrl(apiURL, apiKey)) ==>
      var reply := exchange(ActivityRequest(ActivityUrl(apiURL, apiKey)));
      && (reply.TransportError? ==> r == Err(Transport(reply.description)))
      && (reply.Response? && !IsOk(reply) ==> r == Err(BadServerResponse))
      && (IsOk(reply) ==> r == match DecodeResponse(reply.body)
                               case Ok(sessions) => Ok(sessions)
                               case Err(e) => Err(Decoding(e)))
  {
    var url := ActivityUrl(apiURL, apiKey);
    if !parses(url) then Err(BadUrl)
    else
      match exchange(ActivityRequest(url))
      case TransportError(description) => Err(Transport(description))
      case Response(status, body, _) =>
        if status != Some(200) then Err(BadServerResponse)
        else match DecodeResponse(body)
          case Ok(sessions) => Ok(sessions)
          case Err(e) => Err(Decoding(e))
  }

  /**
   * A server answering 200 with any payload whose `response.data.sessions`
   * array decodes makes `fetchActivity` return those sessions, in order.
   */
  lemma FetchActivityReturnsPayload(apiURL: string, apiKey: string, parses: string -> bool,
                                    exchange: Request -> Reply, v: Json, items: seq<Json>,
                                    sessions: seq<Session>, description: string)
    requires parses(ActivityUrl(apiURL, apiKey))
    requires exchange(ActivityRequest(ActivityUrl(apiURL, apiKey))) == Response(Some(200), JsonBody(v), description)
    requires SessionsPath(v, items) && DecodeSessions(items) == Ok(sessions)
    ensures FetchActivity(apiURL, apiKey, parses, exchange) == Ok(sessions)
  {
    DecodeResponseReadsSessions(v, items);
  }

  // ----- thumbnails

  /**
   * `fullThumbURL`: the stored Tautulli URL followed by the thumbnail path,
   * when both exist and the path is not empty and `URL(string:)` accepts it.
   */
  function FullThumbUrl(s: Session, store: map<string, string>, parses: string -> bool): (r: Option<string>)
    ensures s.thumb.None? || s.thumb == Some("") || Settings.ApiUrlKey("Tautulli") !in store ==> r.None?
    ensures r.Some? ==> r.value == store[Settings.ApiUrlKey("Tautulli")] + s.thumb.value && parses(r.value)
    ensures (&& s.thumb.Some? && s.thumb != Some("") && Settings.ApiUrlKey("Tautulli") in store
             && parses(store[Settings.ApiUrlKey("Tautulli")] + s.thumb.value)) ==> r.Some?
  {
    var key := Settings.ApiUrlKey("Tautulli");
    if key !in store || s.thumb.None? || s.thumb.value == "" then None
    else
      var url := store[key] + s.thumb.value;
      if parses(url) then Some(url) else None
  }

  /** Unlike the fetch, the thumbnail does not refuse an empty stored URL: the path alone is used. */
  lemma ThumbWithEmptyStoredUrl(s: Session, store: map<string, string>, parses: string -> bool)
    requires Settings.ApiUrlKey("Tautulli") in store && store[Settings.ApiUrlKey("Tautulli")] == ""
    requires s.thumb.Some? && s.thumb.value != "" && parses(s.thumb.value)
    ensures FullThumbUrl(s, store, parses) == Some(s.thumb.value)
  {
    assert "" + s.thumb.value == s.thumb.value;
  }
}
