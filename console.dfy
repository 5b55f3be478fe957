/** The command-line program of GmAkari/ConsoleAkari/Program.cs: options with their
    defaults, the choice between talking and saving, and the message printed for each kind
    of failure. The network and the JSON text parser are parameters: `server` answers a
    request with a response or the exception the call throws, `parseJson` reads a response
    body as text and parses it into a JSON value, or fails. */
module Console {
  import opened Wrappers
  import opened Text
  import opened Encoding
  import opened Contents
  import opened Requests

  /** The options as the command-line parser hands them over, absent ones as None. */
  datatype Arguments = Arguments(url: Option<string>, username: Option<string>, password: Option<string>,
                                 avatar: Option<int>, save: Option<string>, text: seq<string>)

  /** CliOption after the parser has filled in the declared defaults. */
  datatype CliOption = CliOption(host: string, username: Option<string>, password: Option<string>,
                                 avatar: int, saveFile: Option<string>, text: seq<string>)

  const DefaultHost := "http://localhost:7180"
  const DefaultAvatar := 2000

  function WithDefaults(args: Arguments): (opt: CliOption)
    ensures args.url.Some? ==> opt.host == args.url.value
    ensures args.url.None? ==> opt.host == "http://localhost:7180"
    ensures args.avatar.Some? ==> opt.avatar == args.avatar.value
    ensures args.avatar.None? ==> opt.avatar == 2000
    ensures opt.username == args.username && opt.password == args.password
    ensures opt.saveFile == args.save && opt.text == args.text
  {
    CliOption(args.url.GetOr(DefaultHost), args.username, args.password,
              args.avatar.GetOr(DefaultAvatar), args.save, args.text)
  }

  /** BuildClient: a client for Host, Username and Password, in that order. */
  function BuildClient(opt: CliOption): (client: ClientState)
    ensures client.baseUrl == opt.host && client.authentication.scheme == "Basic"
    ensures FromBase64(client.authentication.parameter) == Some(AsciiBytes(Credential(opt.username, opt.password)))
  {
    BasicAuthenticationDecodes(opt.username, opt.password);
    ClientState(opt.host, BasicAuthentication(opt.username, opt.password))
  }

  /** string.IsNullOrEmpty. */
  predicate IsNullOrEmpty(s: Option<string>) {
    s.None? || s.value == ""
  }

  datatype Action = Talk | SaveTo(file: string)

  /** Talk when no save file is given, otherwise save to it. */
  function ChooseAction(opt: CliOption): (a: Action)
    ensures a.Talk? <==> IsNullOrEmpty(opt.saveFile)
    ensures a.SaveTo? ==> opt.saveFile == Some(a.file) && a.file != ""
  {
    if IsNullOrEmpty(opt.saveFile) then Talk else SaveTo(opt.saveFile.value)
  }

  /** The kinds of exception that can reach the handlers of Main. */
  datatype Fault =
    | HttpRequestError      // HttpRequestException: connection refused, name resolution, ...
    | TaskCanceled          // the HTTP client's timeout
    | JsonError             // the serializer rejected the document
    | NullReference         // a member the document lacked was dereferenced
    | ArgumentsError        // the exception thrown when the arguments do not parse

  const FailedRequestMessage := "[Error] Failed request to server"
  const UnknownErrorMessage := "[Error] Unknown error has occured"

  /** The two catch clauses: the request message for HttpRequestException, the unknown-error
      message for every other exception. */
  function Message(f: Fault): (m: string)
    ensures m == FailedRequestMessage <==> f == HttpRequestError
    ensures m == UnknownErrorMessage <==> f != HttpRequestError
  {
    if f.HttpRequestError? then FailedRequestMessage else UnknownErrorMessage
  }

  /** What a request yields: status and body are the server's business. */
  datatype Response = Response(status: int, body: seq<Byte>)

  /** A file and the bytes it holds after the program wrote it. */
  datatype FileWrite = FileWrite(path: string, contents: seq<Byte>)

  /** What File.OpenWrite followed by a copy of the body leaves in a file that held
      `existing`: OpenWrite does not truncate, so the bytes past the end of the body stay. */
  function OpenWriteCopy(existing: seq<Byte>, body: seq<Byte>): (contents: seq<Byte>)
    ensures |contents| == if |existing| <= |body| then |body| else |existing|
    ensures contents[..|body|] == body
    ensures |existing| > |body| ==> contents[|body|..] == existing[|body|..]
  {
    if |existing| <= |body| then body else body + existing[|body|..]
  }

  /** A file longer than the new body keeps a stale tail: its contents are not the body. */
  lemma OpenWriteKeepsStaleTail(existing: seq<Byte>, body: seq<Byte>)
    requires |existing| > |body|
    ensures OpenWriteCopy(existing, body) != body
  {
  }

  /** What Main prints: the response, or a classification line and the exception. */
  datatype Outcome = Printed(response: Response) | Reported(message: string, fault: Fault)

  /** One run of the program: the requests sent, in order, the file the response body was
      written to, if any, and what was printed. */
  datatype Session = Session(sent: seq<Request>, written: Option<FileWrite>, outcome: Outcome)

  function Report(f: Fault): Outcome {
    Reported(Message(f), f)
  }

  /** GetDefaultParameters: the fetch, then the deserialization of the answer's body. */
  function FetchDefaults(client: ClientState, cid: int, server: Request -> Result<Response, Fault>,
                         parseJson: seq<Byte> -> Option<Json>): (r: Result<Parameters, Fault>)
    ensures var answer := server(Build(client, DefaultParameters(cid)));
            && (answer.Failure? ==> r == Failure(answer.error))
            && (r.Success? ==> answer.Success? && parseJson(answer.value.body).Some?
                               && ParametersFromJson(parseJson(answer.value.body).value) == Success(r.value))
            && (r.Failure? ==> r.error == JsonError || r.error == NullReference || answer == Failure(r.error))
  {
    match server(Build(client, DefaultParameters(cid)))
    case Failure(f) => Failure(f)
    case Success(response) =>
      match parseJson(response.body)
      case None => Failure(JsonError)
      case Some(doc) =>
        match ParametersFromJson(doc)
        case Success(p) => Success(p)
        case Failure(Malformed) => Failure(JsonError)
        case Failure(NullMember) => Failure(NullReference)
  }

  /** Talk(cid, text) or Save(cid, text, file): fetch the defaults, then post once. Save
      writes the response body to the file whatever its status; the file then holds exactly
      the body (the intended replacement, not OpenWriteCopy). */
  function Perform(client: ClientState, cid: int, text: string, action: Action,
                   server: Request -> Result<Response, Fault>, parseJson: seq<Byte> -> Option<Json>): (s: Session)
    ensures 1 <= |s.sent| <= 2 && s.sent[0] == Build(client, DefaultParameters(cid))
    ensures s.outcome.Reported? ==> s.outcome.message == Message(s.outcome.fault)
    ensures s.written.Some? ==> action == SaveTo(s.written.value.path)
  {
    var fetch := Build(client, DefaultParameters(cid));
    match FetchDefaults(client, cid, server, parseJson)
    case Failure(f) => Session([fetch], None, Report(f))
    case Success(p) =>
      var e := p.effects;
      var op := match action
        case Talk => TalkAudio(cid, FromEffects(text, e, p.emotions))
        case SaveTo(_) => SaveAudio(cid, None, FromValues(text, e.speed.value, e.volume.value, e.pitch.value,
                                                          e.intonation.value, p.emotions));
      var post := Build(client, op);
      match server(post)
      case Failure(f) => Session([fetch, post], None, Report(f))
      case Success(response) =>
        Session([fetch, post], if action.SaveTo? then Some(FileWrite(action.file, response.body)) else None,
                Printed(response))
  }

  /** Main, given the parser's verdict on the command line (None when it fails). */
  function Run(args: Option<Arguments>, server: Request -> Result<Response, Fault>,
               parseJson: seq<Byte> -> Option<Json>): (s: Session)
    ensures args.None? <==> s.sent == []
    ensures |s.sent| <= 2
    ensures s.outcome.Reported? ==> s.outcome.message == Message(s.outcome.fault)
  {
    match args
    case None => Session([], None, Report(ArgumentsError))
    case Some(a) =>
      var opt := WithDefaults(a);
      Perform(BuildClient(opt), opt.avatar, Join(" ", opt.text), ChooseAction(opt), server, parseJson)
  }

  /** Arguments that do not parse send nothing and report an unknown error. */
  lemma RunWithoutArguments(server: Request -> Result<Response, Fault>, parseJson: seq<Byte> -> Option<Json>)
    ensures Run(None, server, parseJson) == Session([], None, Reported(UnknownErrorMessage, ArgumentsError))
  {
  }

  /** The requests Perform sends: the fetch, then, exactly when the defaults were read, the
      one POST of the chosen action with the default-parameter body. */
  lemma PerformRequests(client: ClientState, cid: int, text: string, action: Action,
                        server: Request -> Result<Response, Fault>, parseJson: seq<Byte> -> Option<Json>)
    ensures var s := Perform(client, cid, text, action, server, parseJson);
            var fetched := FetchDefaults(client, cid, server, parseJson);
            && 1 <= |s.sent| <= 2
            && s.sent[0] == Build(client, DefaultParameters(cid))
            && (|s.sent| == 2 <==> fetched.Success?)
            && (|s.sent| == 2 ==>
                  s.sent[1] == Build(client, if action.Talk? then TalkAudio(cid, DefaultContent(text, fetched.value))
                                             else SaveAudio(cid, None, DefaultContent(text, fetched.value))))
  {
  }

  /** The requests of a run: always the fetch of /AVATOR2/{cid} first; then, exactly when the
      defaults were read, one POST — to /PLAY2/{cid} without a save file, to /SAVE2/{cid}
      with one — whose body holds the space-joined text and the fetched values and emotions.
      Every request goes to the host with the header of the given credentials. */
  lemma RunRequests(args: Arguments, server: Request -> Result<Response, Fault>, parseJson: seq<Byte> -> Option<Json>)
    ensures var opt := WithDefaults(args);
            var s := Run(Some(args), server, parseJson);
            var auth := BasicAuthentication(opt.username, opt.password);
            var fetched := FetchDefaults(BuildClient(opt), opt.avatar, server, parseJson);
            && 1 <= |s.sent| <= 2
            && s.sent[0] == Request(Get, opt.host + "/" + "AVATOR2/" + IntText(opt.avatar), auth, None)
            && (|s.sent| == 2 <==> fetched.Success?)
            && (|s.sent| == 2 ==>
                  s.sent[1] == Request(Post,
                    opt.host + "/" + (if IsNullOrEmpty(opt.saveFile) then "PLAY2/" else "SAVE2/") + IntText(opt.avatar),
                    auth, Some(DefaultContent(Join(" ", opt.text), fetched.value))))
  {
    var opt := WithDefaults(args);
    var client := BuildClient(opt);
    var text := Join(" ", opt.text);
    var action := ChooseAction(opt);
    var s := Run(Some(args), server, parseJson);
    assert s == Perform(client, opt.avatar, text, action, server, parseJson);
    PerformRequests(client, opt.avatar, text, action, server, parseJson);
    GetEndpoints(client, opt.avatar, "");
    var fetched := FetchDefaults(client, opt.avatar, server, parseJson);
    if fetched.Success? {
      var c := DefaultContent(text, fetched.value);
      PostEndpoints(client, opt.avatar, 0, c);
      if action.Talk? {
        assert s.sent[1] == Build(client, TalkAudio(opt.avatar, c));
      } else {
        assert s.sent[1] == Build(client, SaveAudio(opt.avatar, None, c));
      }
    }
  }

  /** What a run prints and writes: a reported failure carries the message of its kind; the
      response is printed exactly when the POST answered; the body is written to the save
      file exactly when saving and the POST answered, whatever the response's status, and
      the file then holds the body verbatim. */
  lemma RunOutcome(args: Arguments, server: Request -> Result<Response, Fault>, parseJson: seq<Byte> -> Option<Json>)
    ensures var opt := WithDefaults(args);
            var s := Run(Some(args), server, parseJson);
            && (s.outcome.Reported? ==> s.outcome.message == Message(s.outcome.fault))
            && (s.outcome.Printed? <==> |s.sent| == 2 && server(s.sent[1]).Success?)
            && (s.outcome.Printed? ==> server(s.sent[1]) == Success(s.outcome.response))
            && (s.written.Some? <==> s.outcome.Printed? && !IsNullOrEmpty(opt.saveFile))
            && (s.written.Some? ==> Some(s.written.value.path) == opt.saveFile
                                    && s.written.value.contents == s.outcome.response.body)
  {
  }

  /** Which exception a failed run reports: the one the fetch threw; JsonError when the
      fetched body is not JSON or a member has the wrong type; NullReference when the effects
      are missing; otherwise the one the POST threw. A refused connection therefore prints
      the failed-request line. */
  lemma RunFaults(args: Arguments, server: Request -> Result<Response, Fault>, parseJson: seq<Byte> -> Option<Json>)
    ensures var s := Run(Some(args), server, parseJson);
            var answer := server(s.sent[0]);
            && (answer.Failure? ==> s.outcome == Reported(Message(answer.error), answer.error))
            && (answer == Failure(HttpRequestError) ==> s.outcome.message == FailedRequestMessage)
            && (answer.Success? && parseJson(answer.value.body).None? ==>
                  s.outcome == Reported(UnknownErrorMessage, JsonError))
            && (answer.Success? && parseJson(answer.value.body).Some? ==>
                  (ParametersFromJson(parseJson(answer.value.body).value) == Failure(Malformed) ==>
                     s.outcome == Reported(UnknownErrorMessage, JsonError))
                  && (ParametersFromJson(parseJson(answer.value.body).value) == Failure(NullMember) ==>
                     s.outcome == Reported(UnknownErrorMessage, NullReference)))
            && (|s.sent| == 2 && server(s.sent[1]).Failure? ==>
                  s.outcome == Reported(Message(server(s.sent[1]).error), server(s.sent[1]).error))
  {
  }

  /** Avatar 2000 is rendered "2000" in paths. */
  lemma DefaultAvatarText()
    ensures IntText(DefaultAvatar) == "2000"
  {
  }

  /** The URLs of a run for avatar 2000, under any host. */
  lemma DefaultAvatarUrls(client: ClientState, content: Content)
    ensures Build(client, DefaultParameters(DefaultAvatar)).url == client.baseUrl + "/" + "AVATOR2/" + "2000"
    ensures Build(client, TalkAudio(DefaultAvatar, content)).url == client.baseUrl + "/" + "PLAY2/" + "2000"
    ensures Build(client, SaveAudio(DefaultAvatar, None, content)).url == client.baseUrl + "/" + "SAVE2/" + "2000"
  {
    DefaultAvatarText();
    GetEndpoints(client, DefaultAvatar, "");
    PostEndpoints(client, DefaultAvatar, 0, content);
  }

  /** Without a host or an avatar on the command line, the client talks to
      http://localhost:7180 about avatar 2000 (the URLs are those of DefaultAvatarUrls). */
  lemma DefaultOptions(args: Arguments)
    requires args.url == None && args.avatar == None
    ensures BuildClient(WithDefaults(args)) == ClientState(DefaultHost, BasicAuthentication(args.username, args.password))
    ensures DefaultHost == "http://localhost:7180"
    ensures WithDefaults(args).avatar == DefaultAvatar == 2000
  {
  }
}
