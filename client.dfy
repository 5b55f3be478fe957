/** The client object of GmAkari/SeikaCenterClient/SeikaCenterClient.cs: a base URL and
    an Authorization header fixed at construction, and one method per public operation.
    Sending is left to the caller: each method returns the requests it would send, in order,
    and the default-parameter overloads take the parameters the server answered as an argument. */
module Client {
  import opened Wrappers
  import opened Text
  import opened Contents
  import opened Requests

  class SeikaCenterClient {
    const baseUrl: string
    const authentication: AuthHeader

    /** The header is computed once, here, and reused by every request. */
    constructor (baseUrl: string, username: Option<string>, password: Option<string>)
      ensures State() == ClientState(baseUrl, BasicAuthentication(username, password))
    {
      this.baseUrl := baseUrl;
      authentication := BasicAuthentication(username, password);
    }

    function State(): ClientState {
      ClientState(baseUrl, authentication)
    }

    /** A request for the base URL followed by the segments, each split on '/', with the
        client's header and no body yet. */
    method BuildRequestMessage(verb: HttpMethod, segments: seq<string>) returns (r: Request)
      ensures r.verb == verb && r.authorization == authentication && r.body == None
      ensures r.url == if segments == [] then baseUrl else baseUrl + "/" + Join("/", segments)
    {
      r := Request(verb, JoinUrl([baseUrl] + segments), authentication, None);
      JoinUrlAfterBase(baseUrl, segments);
    }

    method GetAvatar() returns (r: Request)
      ensures r == Build(State(), ListAvatars)
    {
      r := BuildRequestMessage(Get, [Avatar]);
      UrlOfBuild(State(), ListAvatars);
    }

    method GetAvatar2() returns (r: Request)
      ensures r == Build(State(), ListAvatars2)
    {
      r := BuildRequestMessage(Get, [Avatar2]);
      UrlOfBuild(State(), ListAvatars2);
    }

    method GetDefaultParameters(cid: int) returns (r: Request)
      ensures r == Build(State(), DefaultParameters(cid))
    {
      r := BuildRequestMessage(Get, [Avatar2, IntText(cid)]);
      UrlOfBuild(State(), DefaultParameters(cid));
    }

    method GetCurrentParameter(cid: int) returns (r: Request)
      ensures r == Build(State(), CurrentParameter(cid))
    {
      r := BuildRequestMessage(Get, [Avatar2, IntText(cid), "current"]);
      UrlOfBuild(State(), CurrentParameter(cid));
    }

    method GetStaticContent(path: string) returns (r: Request)
      ensures r == Build(State(), StaticContent(path))
    {
      r := BuildRequestMessage(Get, [App, path]);
      UrlOfBuild(State(), StaticContent(path));
    }

    /** Save with explicit values: the request, and the file the response body is written to,
        which is written whatever status the response carries. */
    method Save(cid: int, text: string, file: string, speed: real, volume: real, pitch: real,
                intonation: real, emotions: Option<map<string, real>>) returns (r: Request, output: string)
      ensures r == Build(State(), SaveAudio(cid, None, FromValues(text, speed, volume, pitch, intonation, emotions)))
      ensures output == file
    {
      r := BuildRequestMessage(Post, [Save2, IntText(cid)]);
      r := r.(body := Some(FromValues(text, speed, volume, pitch, intonation, emotions)));
      UrlOfBuild(State(), SaveAudio(cid, None, FromValues(text, speed, volume, pitch, intonation, emotions)));
      output := file;
    }

    /** Save with a sampling rate and explicit values. */
    method SaveAt(cid: int, text: string, file: string, samplingRate: int, speed: real, volume: real,
                  pitch: real, intonation: real, emotions: Option<map<string, real>>)
      returns (r: Request, output: string)
      ensures r == Build(State(), SaveAudio(cid, Some(samplingRate), FromValues(text, speed, volume, pitch, intonation, emotions)))
      ensures output == file
    {
      r := BuildRequestMessage(Post, [Save2, IntText(cid), IntText(samplingRate)]);
      r := r.(body := Some(FromValues(text, speed, volume, pitch, intonation, emotions)));
      UrlOfBuild(State(), SaveAudio(cid, Some(samplingRate), FromValues(text, speed, volume, pitch, intonation, emotions)));
      output := file;
    }

    /** Save with the server's defaults: one fetch of /AVATOR2/{cid}, then the save with the
        fetched values and emotions. */
    method SaveWithDefaults(cid: int, text: string, file: string, fetched: Parameters)
      returns (sent: seq<Request>, output: string)
      ensures sent == [Build(State(), DefaultParameters(cid)), Build(State(), SaveAudio(cid, None, DefaultContent(text, fetched)))]
      ensures output == file
    {
      var fetch := GetDefaultParameters(cid);
      var e := fetched.effects;
      var post;
      post, output := Save(cid, text, file, e.speed.value, e.volume.value, e.pitch.value, e.intonation.value, fetched.emotions);
      sent := [fetch, post];
    }

    /** Save with a sampling rate and the server's defaults. */
    method SaveAtWithDefaults(cid: int, text: string, file: string, samplingRate: int, fetched: Parameters)
      returns (sent: seq<Request>, output: string)
      ensures sent == [Build(State(), DefaultParameters(cid)),
                       Build(State(), SaveAudio(cid, Some(samplingRate), DefaultContent(text, fetched)))]
      ensures output == file
    {
      var fetch := GetDefaultParameters(cid);
      var e := fetched.effects;
      var post;
      post, output := SaveAt(cid, text, file, samplingRate, e.speed.value, e.volume.value, e.pitch.value,
                             e.intonation.value, fetched.emotions);
      sent := [fetch, post];
    }

    /** Talk with explicit values. */
    method Talk(cid: int, text: string, speed: real, volume: real, pitch: real, intonation: real,
                emotions: Option<map<string, real>>) returns (r: Request)
      ensures r == Build(State(), TalkAudio(cid, FromValues(text, speed, volume, pitch, intonation, emotions)))
    {
      r := BuildRequestMessage(Post, [Play2, IntText(cid)]);
      r := r.(body := Some(FromValues(text, speed, volume, pitch, intonation, emotions)));
      UrlOfBuild(State(), TalkAudio(cid, FromValues(text, speed, volume, pitch, intonation, emotions)));
    }

    /** Talk with the server's defaults: one fetch of /AVATOR2/{cid}, then the talk with a body
        built from the fetched Effects and emotions. */
    method TalkWithDefaults(cid: int, text: string, fetched: Parameters) returns (sent: seq<Request>)
      ensures sent == [Build(State(), DefaultParameters(cid)), Build(State(), TalkAudio(cid, DefaultContent(text, fetched)))]
    {
      var fetch := GetDefaultParameters(cid);
      var post := BuildRequestMessage(Post, [Play2, IntText(cid)]);
      post := post.(body := Some(FromEffects(text, fetched.effects, fetched.emotions)));
      UrlOfBuild(State(), TalkAudio(cid, DefaultContent(text, fetched)));
      sent := [fetch, post];
    }
  }
}
