/** The requests the synthesis-server client sends
    (GmAkari/SeikaCenterClient/SeikaCenterClient.cs), as values: which HTTP method, which URL,
    which Authorization header and which body each public operation produces. The class
    in module Client builds these same requests step by step. */
module Requests {
  import opened Wrappers
  import opened Text
  import opened Encoding
  import opened Contents

  // The fixed first segments of the server's paths.
  const Avatar2 := "AVATOR2"
  const Avatar := "AVATOR"
  const App := "app"
  const Play2 := "PLAY2"
  const Save2 := "SAVE2"

  datatype HttpMethod = Get | Post

  /** AuthenticationHeaderValue: a scheme and its parameter. */
  datatype AuthHeader = AuthHeader(scheme: string, parameter: string)

  /** HttpRequestMessage with the parts the client sets; the body is a serialized Content. */
  datatype Request = Request(verb: HttpMethod, url: string, authorization: AuthHeader, body: Option<Content>)

  /** What a client holds for its lifetime: the base URL and the precomputed header. */
  datatype ClientState = ClientState(baseUrl: string, authentication: AuthHeader)

  /** $"{username}:{password}": a null name or password interpolates as the empty string. */
  function Credential(username: Option<string>, password: Option<string>): (c: string)
    ensures |c| == |username.GetOr("")| + 1 + |password.GetOr("")|
    ensures c[..|username.GetOr("")|] == username.GetOr("") && c[|username.GetOr("")|] == ':'
    ensures c[|username.GetOr("")| + 1..] == password.GetOr("")
  {
    username.GetOr("") + [':'] + password.GetOr("")
  }

  /** The header computed once in the constructor: scheme Basic, parameter the base64 of
      the ASCII bytes of the credential (section 2 of RFC 7617). */
  function BasicAuthentication(username: Option<string>, password: Option<string>): (h: AuthHeader)
    ensures h.scheme == "Basic"
    ensures |h.parameter| == 4 * ((CodeUnitCount(Credential(username, password)) + 2) / 3)
  {
    AuthHeader("Basic", ToBase64(AsciiBytes(Credential(username, password))))
  }

  /** The server recovers exactly the ASCII bytes of user:password from the header, and for
      ASCII credentials exactly the text. */
  lemma BasicAuthenticationDecodes(username: Option<string>, password: Option<string>)
    ensures BasicAuthentication(username, password).scheme == "Basic"
    ensures FromBase64(BasicAuthentication(username, password).parameter)
            == Some(AsciiBytes(username.GetOr("") + ":" + password.GetOr("")))
    ensures IsAscii(Credential(username, password)) ==>
              AsciiText(FromBase64(BasicAuthentication(username, password).parameter).value)
              == username.GetOr("") + ":" + password.GetOr("")
  {
    var c := Credential(username, password);
    Base64RoundTrip(AsciiBytes(c));
    if IsAscii(c) {
      AsciiRoundTrip(c);
    }
  }

  /** User "a" with password "b" sends "Basic YTpi", the base64 of "a:b". */
  lemma BasicAuthenticationExample()
    ensures BasicAuthentication(Some("a"), Some("b")) == AuthHeader("Basic", "YTpi")
  {
    var b := AsciiBytes("a:b");
    assert b == [97, 58, 98];
  }

  /** A character outside the Basic Multilingual Plane is two UTF-16 code units, so it
      becomes two '?': the name U+1F600 without a password sends the base64 of "??:". */
  lemma BasicAuthenticationSurrogatePair()
    ensures BasicAuthentication(Some("\U{1F600}"), None) == AuthHeader("Basic", "Pz86")
  {
    var b := AsciiBytes("\U{1F600}:");
    assert b == [63, 63, 58];
  }

  /** JoinUrl: every segment split on '/', the pieces joined with '/'. Splitting and
      rejoining neither adds nor removes characters, so this is the plain join. */
  function JoinUrl(segments: seq<string>): (url: string)
    ensures url == Join("/", segments)
  {
    JoinFlatten(segments, '/');
    Join("/", Flatten(segments, '/'))
  }

  /** Flattening the segments first and joining again gives the same URL. */
  lemma JoinUrlIdempotent(segments: seq<string>)
    ensures JoinUrl(Flatten(segments, '/')) == JoinUrl(segments)
  {
    FlattenIdempotent(segments, '/');
  }

  /** A base URL followed by segments: the base survives intact, even with its "//". */
  lemma JoinUrlAfterBase(base: string, segments: seq<string>)
    ensures JoinUrl([base] + segments) == if segments == [] then base else base + "/" + Join("/", segments)
  {
    assert ([base] + segments)[1..] == segments;
  }

  /** The public operations of the client, each with the arguments its request depends on. */
  datatype Operation =
    | ListAvatars                                              // GetAvatar
    | ListAvatars2                                             // GetAvatar2
    | DefaultParameters(cid: int)                              // GetDefaultParameters
    | CurrentParameter(cid: int)                               // GetCurrentParameter
    | StaticContent(path: string)                              // GetStaticContent
    | SaveAudio(cid: int, samplingRate: Option<int>, content: Content)  // Save
    | TalkAudio(cid: int, content: Content)                    // Talk

  /** The path segments each operation passes after the base URL. */
  function Segments(op: Operation): seq<string> {
    match op
    case ListAvatars => [Avatar]
    case ListAvatars2 => [Avatar2]
    case DefaultParameters(cid) => [Avatar2, IntText(cid)]
    case CurrentParameter(cid) => [Avatar2, IntText(cid), "current"]
    case StaticContent(path) => [App, path]
    case SaveAudio(cid, None, _) => [Save2, IntText(cid)]
    case SaveAudio(cid, Some(rate), _) => [Save2, IntText(cid), IntText(rate)]
    case TalkAudio(cid, _) => [Play2, IntText(cid)]
  }

  function MethodOf(op: Operation): HttpMethod {
    if op.SaveAudio? || op.TalkAudio? then Post else Get
  }

  function BodyOf(op: Operation): Option<Content> {
    match op
    case SaveAudio(_, _, content) => Some(content)
    case TalkAudio(_, content) => Some(content)
    case _ => None
  }

  /** The request an operation sends from a client. */
  function Build(client: ClientState, op: Operation): (r: Request)
    ensures r.authorization == client.authentication
    ensures r.verb == Post <==> op.SaveAudio? || op.TalkAudio?
    ensures r.verb == Post ==> r.body == Some(op.content)
    ensures r.verb == Get ==> r.body == None
  {
    Request(MethodOf(op), JoinUrl([client.baseUrl] + Segments(op)), client.authentication, BodyOf(op))
  }

  /** The URL of every request: the base URL, a '/', and the operation's segments joined by '/'. */
  lemma UrlOfBuild(client: ClientState, op: Operation)
    ensures Build(client, op).url == client.baseUrl + "/" + Join("/", Segments(op))
  {
    JoinUrlAfterBase(client.baseUrl, Segments(op));
  }

  // One lemma per endpoint keeps each proof small; the two below gather them.

  lemma ListAvatarsRequest(client: ClientState)
    ensures Build(client, ListAvatars)
            == Request(Get, client.baseUrl + "/" + "AVATOR", client.authentication, None)
  {
    UrlOfBuild(client, ListAvatars);
  }

  lemma ListAvatars2Request(client: ClientState)
    ensures Build(client, ListAvatars2)
            == Request(Get, client.baseUrl + "/" + "AVATOR2", client.authentication, None)
  {
    UrlOfBuild(client, ListAvatars2);
  }

  lemma DefaultParametersRequest(client: ClientState, cid: int)
    ensures Build(client, DefaultParameters(cid))
            == Request(Get, client.baseUrl + "/" + "AVATOR2/" + IntText(cid), client.authentication, None)
  {
    UrlOfBuild(client, DefaultParameters(cid));
  }

  lemma CurrentParameterRequest(client: ClientState, cid: int)
    ensures Build(client, CurrentParameter(cid))
            == Request(Get, client.baseUrl + "/" + "AVATOR2/" + IntText(cid) + "/current", client.authentication, None)
  {
    UrlOfBuild(client, CurrentParameter(cid));
    JoinThree("/", Avatar2, IntText(cid), "current");
  }

  lemma StaticContentRequest(client: ClientState, path: string)
    ensures Build(client, StaticContent(path))
            == Request(Get, client.baseUrl + "/" + "app/" + path, client.authentication, None)
  {
    UrlOfBuild(client, StaticContent(path));
  }

  lemma SaveRequest(client: ClientState, cid: int, content: Content)
    ensures Build(client, SaveAudio(cid, None, content))
            == Request(Post, client.baseUrl + "/" + "SAVE2/" + IntText(cid), client.authentication, Some(content))
  {
    UrlOfBuild(client, SaveAudio(cid, None, content));
  }

  lemma SaveAtRequest(client: ClientState, cid: int, rate: int, content: Content)
    ensures Build(client, SaveAudio(cid, Some(rate), content))
            == Request(Post, client.baseUrl + "/" + "SAVE2/" + IntText(cid) + "/" + IntText(rate),
                       client.authentication, Some(content))
  {
    UrlOfBuild(client, SaveAudio(cid, Some(rate), content));
    JoinThree("/", Save2, IntText(cid), IntText(rate));
  }

  lemma TalkRequest(client: ClientState, cid: int, content: Content)
    ensures Build(client, TalkAudio(cid, content))
            == Request(Post, client.baseUrl + "/" + "PLAY2/" + IntText(cid), client.authentication, Some(content))
  {
    UrlOfBuild(client, TalkAudio(cid, content));
  }

  /** The GET endpoints: /AVATOR, /AVATOR2, /AVATOR2/{cid}, /AVATOR2/{cid}/current and
      /app/{path}, each carrying the client's header and no body. */
  lemma GetEndpoints(client: ClientState, cid: int, path: string)
    ensures Build(client, ListAvatars) == Request(Get, client.baseUrl + "/" + "AVATOR", client.authentication, None)
    ensures Build(client, ListAvatars2) == Request(Get, client.baseUrl + "/" + "AVATOR2", client.authentication, None)
    ensures Build(client, DefaultParameters(cid))
            == Request(Get, client.baseUrl + "/" + "AVATOR2/" + IntText(cid), client.authentication, None)
    ensures Build(client, CurrentParameter(cid))
            == Request(Get, client.baseUrl + "/" + "AVATOR2/" + IntText(cid) + "/current", client.authentication, None)
    ensures Build(client, StaticContent(path))
            == Request(Get, client.baseUrl + "/" + "app/" + path, client.authentication, None)
  {
    ListAvatarsRequest(client);
    ListAvatars2Request(client);
    DefaultParametersRequest(client, cid);
    CurrentParameterRequest(client, cid);
    StaticContentRequest(client, path);
  }

  /** The POST endpoints: /SAVE2/{cid}, /SAVE2/{cid}/{samplingRate} and /PLAY2/{cid}, each
      carrying the client's header and the content as body. */
  lemma PostEndpoints(client: ClientState, cid: int, rate: int, content: Content)
    ensures Build(client, SaveAudio(cid, None, content))
            == Request(Post, client.baseUrl + "/" + "SAVE2/" + IntText(cid), client.authentication, Some(content))
    ensures Build(client, SaveAudio(cid, Some(rate), content))
            == Request(Post, client.baseUrl + "/" + "SAVE2/" + IntText(cid) + "/" + IntText(rate),
                       client.authentication, Some(content))
    ensures Build(client, TalkAudio(cid, content))
            == Request(Post, client.baseUrl + "/" + "PLAY2/" + IntText(cid), client.authentication, Some(content))
  {
    SaveRequest(client, cid, content);
    SaveAtRequest(client, cid, rate, content);
    TalkRequest(client, cid, content);
  }

  /** Every request of a client carries the client's header and starts with its base URL and a '/'. */
  lemma SharedHeaderAndBase(client: ClientState, op: Operation)
    ensures Build(client, op).authorization == client.authentication
    ensures |client.baseUrl| < |Build(client, op).url|
    ensures Build(client, op).url[..|client.baseUrl| + 1] == client.baseUrl + "/"
  {
    JoinUrlAfterBase(client.baseUrl, Segments(op));
  }

  /** The body the default-parameter overloads send: the fetched values and emotions. */
  function DefaultContent(text: string, fetched: Parameters): (c: Content)
    ensures c.talkText == text && c.emotions == fetched.emotions
    ensures c.effects == map["speed" := fetched.effects.speed.value, "volume" := fetched.effects.volume.value,
                            "pitch" := fetched.effects.pitch.value, "intonation" := fetched.effects.intonation.value]
  {
    FromEffectsKeyedByName(text, fetched.effects, fetched.emotions);
    FromEffects(text, fetched.effects, fetched.emotions)
  }
}
