# Akari synthesis client, modelled in Dafny

Akari is a command-line client for the AssistantSeika voice-synthesis server ("SeikaCenter").
Its library class `SeikaCenterClient` builds HTTP requests against the server's fixed paths.
Each request carries a Basic Authorization header computed once, in the constructor.
The synthesis requests have a JSON body (`Content`).
Its console program `ConsoleAkari` joins the words of the command line and calls `Talk`, or `Save` when a save file is given.
It prints either the response or one of two error lines.

The model is split into these modules:

- `Text`: `String.Split(char)`, `String.Join` and the decimal rendering of an `int`. Joining a split and splitting a join are proved to be inverses.
- `Encoding`: `Encoding.ASCII.GetBytes`, and base64 as section 4 of RFC 4648 defines it, with a decoder. The base64 round trip is proved.
- `Contents`: the records of `Content.cs`, the three `Content` constructors, and the JSON member names. JSON is modelled as a small value type.
- `Requests`: the requests as values. This covers `JoinUrl`, the credential and header, the mapping from operation to method, path and body, and the body of the default-parameter overloads.
- `Client`: the class `SeikaCenterClient`. Its `const` fields are the base URL and the header. It has one method per public operation, each proved to build the request `Requests.Build` describes.
- `Console`: `Main` as a function `Run` of three inputs. These are the parser's verdict on the command line, a `server` function and a JSON text parser. `Run` returns the requests sent, the file written and what is printed.

Floating-point values are only copied, so they are `real`.
The network is the `server` parameter: it answers a request with a response or with the exception the call throws.
Reading a body as text and parsing it as JSON is the `parseJson` parameter.
The command-line parser is replaced by an `Arguments` record, or `None` when parsing fails.

Behaviour of the code worth noting:

- A timeout of the HTTP client throws `TaskCanceledException`, which is not an `HttpRequestException`. `Main` therefore reports it with the unknown-error line, not the request-failure line.
- Without credentials the client still sends a Basic header. Its parameter is the base64 of `":"`, because a null name interpolates as the empty string.
- Missing effect settings in the server's answer are not rejected by the serializer. It leaves them null, and the first use throws `NullReferenceException`. A missing number member reads as 0.0.

## Model

| member | source | states |
|---|---|---|
| Text.Split | GmAkari/SeikaCenterClient/SeikaCenterClient.cs:215 | `String.Split('/')` yields at least one piece and no piece contains the separator |
| Text.Flatten | GmAkari/SeikaCenterClient/SeikaCenterClient.cs:215 | `SelectMany(s => s.Split('/'))` yields only pieces without '/', and some piece for a non-empty list |
| Text.Join | GmAkari/SeikaCenterClient/SeikaCenterClient.cs:214 | `string.Join` of no parts is empty, and a join starts with its first part |
| Text.JoinSplit | GmAkari/SeikaCenterClient/SeikaCenterClient.cs:214-215 | joining the pieces of a split with the same separator returns the original string |
| Text.JoinFlatten | GmAkari/SeikaCenterClient/SeikaCenterClient.cs:214-215 | splitting every segment and rejoining with the separator gives exactly the plain join of the segments |
| Text.FlattenFlat | GmAkari/SeikaCenterClient/SeikaCenterClient.cs:215 | segments without '/' are left unchanged by the flattening |
| Text.FlattenIdempotent | GmAkari/SeikaCenterClient/SeikaCenterClient.cs:215 | flattening an already flattened list changes nothing |
| Text.SplitJoin | GmAkari/ConsoleAkari/Program.cs:14 | words without spaces are recovered from their single-space join, so the join adds exactly one separator between neighbours |
| Text.NatText | GmAkari/SeikaCenterClient/SeikaCenterClient.cs:59 | the rendering of a natural number is a non-empty string of decimal digits |
| Text.IntText | GmAkari/SeikaCenterClient/SeikaCenterClient.cs:59 | the rendering of `$"{cid}"` is non-empty, contains no '/', and starts with '-' exactly for negative numbers |
| Text.NatTextValue | GmAkari/SeikaCenterClient/SeikaCenterClient.cs:59 | the digits of n denote n |
| Text.IntTextInjective | GmAkari/SeikaCenterClient/SeikaCenterClient.cs:59 | different avatar ids render differently, so they get different paths |
| Encoding.AsciiBytes | GmAkari/SeikaCenterClient/SeikaCenterClient.cs:24 | one byte per UTF-16 code unit, so two `?` for a character above U+FFFF; for ASCII text exactly one byte per character, the character's code |
| Encoding.AsciiRoundTrip | GmAkari/SeikaCenterClient/SeikaCenterClient.cs:24 | ASCII text is recovered from its bytes |
| Encoding.SextetValue | GmAkari/SeikaCenterClient/SeikaCenterClient.cs:23 | a character accepted as base64 is the alphabet character of its index |
| Encoding.ToBase64 | GmAkari/SeikaCenterClient/SeikaCenterClient.cs:23-25 | the encoding has 4 * ceil(n / 3) characters, as section 4 of RFC 4648 requires |
| Encoding.TripleRoundTrip | GmAkari/SeikaCenterClient/SeikaCenterClient.cs:23-25 | four characters of a three-byte group decode to those three bytes |
| Encoding.Base64RoundTrip | GmAkari/SeikaCenterClient/SeikaCenterClient.cs:23-25 | decoding the base64 of any bytes returns exactly those bytes, padding included |
| Requests.Credential | GmAkari/SeikaCenterClient/SeikaCenterClient.cs:24 | `$"{username}:{password}"` is the name, one ':', then the password, a null part contributing nothing |
| Requests.BasicAuthentication | GmAkari/SeikaCenterClient/SeikaCenterClient.cs:21-25 | the header's scheme is `Basic` and its parameter is the base64 of the credential, 4 * ceil(n / 3) characters long for a credential of n UTF-16 code units |
| Requests.BasicAuthenticationDecodes | GmAkari/SeikaCenterClient/SeikaCenterClient.cs:21-25 | the header's scheme is `Basic` and its parameter decodes to the ASCII bytes of `username:password` (null parts as empty), or to the text itself for ASCII credentials |
| Requests.BasicAuthenticationExample | GmAkari/SeikaCenterClient/SeikaCenterClient.cs:21-25 | user `a` with password `b` sends `Basic YTpi` |
| Requests.BasicAuthenticationSurrogatePair | GmAkari/SeikaCenterClient/SeikaCenterClient.cs:21-25 | the user name U+1F600 without a password sends `Basic Pz86`, the base64 of `??:`, one `?` per surrogate |
| Requests.JoinUrl | GmAkari/SeikaCenterClient/SeikaCenterClient.cs:214-215 | `JoinUrl` equals the segments joined with a single '/': the splitting adds and removes nothing |
| Requests.JoinUrlIdempotent | GmAkari/SeikaCenterClient/SeikaCenterClient.cs:214-215 | re-flattening the segments and joining again gives the same URL |
| Requests.JoinUrlAfterBase | GmAkari/SeikaCenterClient/SeikaCenterClient.cs:29-33 | the URL is the base URL intact, even one like `http://host:port` with its "//", then '/' and the joined segments |
| Requests.Build | GmAkari/SeikaCenterClient/SeikaCenterClient.cs:29-33 | every request carries the client's header; it is a POST exactly for the save and talk operations, which carry their content as body, and every GET has no body |
| Requests.UrlOfBuild | GmAkari/SeikaCenterClient/SeikaCenterClient.cs:29-33 | every request's URL is the base URL, '/', and the operation's segments in order |
| Requests.GetEndpoints | GmAkari/SeikaCenterClient/SeikaCenterClient.cs:40-85 | GET `/AVATOR`, `/AVATOR2`, `/AVATOR2/{cid}`, `/AVATOR2/{cid}/current` and `/app/{path}`, each with the client's header and no body |
| Requests.PostEndpoints | GmAkari/SeikaCenterClient/SeikaCenterClient.cs:104-203 | POST `/SAVE2/{cid}` without a rate, `/SAVE2/{cid}/{samplingRate}` with one, and `/PLAY2/{cid}` for both talks, each with the client's header and the content as body |
| Requests.SharedHeaderAndBase | GmAkari/SeikaCenterClient/SeikaCenterClient.cs:29-33 | every request carries the one header computed by the constructor and its URL starts with the base URL and '/' |
| Requests.DefaultContent | GmAkari/SeikaCenterClient/SeikaCenterClient.cs:124-128 | the default-parameter body holds the given text, the fetched emotions, and exactly the fetched `Value` of each setting under its own name |
| Contents.FromValues | GmAkari/SeikaCenterClient/Content.cs:14-21 | `TalkText` is the text and `Emotions` the dictionary unchanged (possibly null); the effects have exactly the keys speed, volume, pitch, intonation, each bound to the argument of that name |
| Contents.FromEffects | GmAkari/SeikaCenterClient/Content.cs:23-24 | `Content(text, effects, emotions)` keeps text and emotions, has the four effect keys, and binds each to the `Value` of the setting of that name |
| Contents.FromEffectsKeyedByName | GmAkari/SeikaCenterClient/Content.cs:23-24 | `Content(text, effects, emotions)` keys each effect by the setting of the same name, although `Effects` declares volume first |
| Contents.FromEffectsReadsOnlyValues | GmAkari/SeikaCenterClient/Content.cs:23-24 | min, max and step never reach the body: settings with equal values give equal content |
| Contents.FromText | GmAkari/SeikaCenterClient/Content.cs:27 | `Content(text)` keeps the text, has no emotions and has the four effect keys |
| Contents.FromTextIsNeutral | GmAkari/SeikaCenterClient/Content.cs:27 | `Content(text)` has all four effects 1.0 and null emotions |
| Contents.ContentToJson | GmAkari/SeikaCenterClient/Content.cs:9-12 | a request body is serialized under exactly the names `talktext`, `effects`, `emotions`, with null emotions as JSON null |
| Contents.ParametersFromJson | GmAkari/SeikaCenterClient/Content.cs:56-58 | a document reads as parameters only when it is an object whose `effect` and `emotion` members read; an object without `effect` yields a null member; a value that is neither an object nor null is malformed |
| Contents.ParametersRoundTrip | GmAkari/SeikaCenterClient/Content.cs:34-63 | a server document under the names `effect`, `emotion`, `volume`, `speed`, `pitch`, `intonation`, `value`, `min`, `max`, `step` is read back to the same parameters |
| Contents.ExtraMembersIgnored | GmAkari/SeikaCenterClient/SeikaCenterClient.cs:63 | a server answer with extra members of any kind, arrays and booleans included, reads as the same parameters |
| Contents.WrongKindIsMalformed | GmAkari/SeikaCenterClient/SeikaCenterClient.cs:63 | a boolean or an array under `effect` makes the answer malformed |
| Contents.ContentIsNotParameters | GmAkari/SeikaCenterClient/Content.cs:9-12 | read as parameters a request body fails with a null member, because bodies use plural names and parameter documents singular ones |
| Client.SeikaCenterClient.constructor | GmAkari/SeikaCenterClient/SeikaCenterClient.cs:18-27 | the client keeps the base URL and the Basic header of the given username and password |
| Client.SeikaCenterClient.BuildRequestMessage | GmAkari/SeikaCenterClient/SeikaCenterClient.cs:29-33 | a request with the given method and the client's header, no body yet, and the base URL followed by '/' and the joined segments |
| Client.SeikaCenterClient.GetAvatar | GmAkari/SeikaCenterClient/SeikaCenterClient.cs:39-42 | builds the `/AVATOR` request |
| Client.SeikaCenterClient.GetAvatar2 | GmAkari/SeikaCenterClient/SeikaCenterClient.cs:48-51 | builds the `/AVATOR2` request |
| Client.SeikaCenterClient.GetDefaultParameters | GmAkari/SeikaCenterClient/SeikaCenterClient.cs:58-64 | builds the `/AVATOR2/{cid}` request |
| Client.SeikaCenterClient.GetCurrentParameter | GmAkari/SeikaCenterClient/SeikaCenterClient.cs:71-77 | builds the `/AVATOR2/{cid}/current` request |
| Client.SeikaCenterClient.GetStaticContent | GmAkari/SeikaCenterClient/SeikaCenterClient.cs:84-87 | builds the `/app/{path}` request |
| Client.SeikaCenterClient.Save | GmAkari/SeikaCenterClient/SeikaCenterClient.cs:101-115 | builds the `/SAVE2/{cid}` POST with the given values as body; the response goes to the given file |
| Client.SeikaCenterClient.SaveAt | GmAkari/SeikaCenterClient/SeikaCenterClient.cs:143-158 | builds the `/SAVE2/{cid}/{samplingRate}` POST with the given values as body; the response goes to the given file |
| Client.SeikaCenterClient.SaveWithDefaults | GmAkari/SeikaCenterClient/SeikaCenterClient.cs:124-128 | sends exactly one fetch of `/AVATOR2/{cid}`, then one `/SAVE2/{cid}` POST for the same cid whose body is the fetched values and emotions |
| Client.SeikaCenterClient.SaveAtWithDefaults | GmAkari/SeikaCenterClient/SeikaCenterClient.cs:168-172 | sends one fetch of `/AVATOR2/{cid}`, then one `/SAVE2/{cid}/{samplingRate}` POST whose body is the fetched values and emotions |
| Client.SeikaCenterClient.Talk | GmAkari/SeikaCenterClient/SeikaCenterClient.cs:185-193 | builds the `/PLAY2/{cid}` POST with the given values as body |
| Client.SeikaCenterClient.TalkWithDefaults | GmAkari/SeikaCenterClient/SeikaCenterClient.cs:201-207 | sends one fetch of `/AVATOR2/{cid}`, then one `/PLAY2/{cid}` POST whose body, built from the fetched `Effects`, equals the one the save overloads build |
| Console.WithDefaults | GmAkari/ConsoleAkari/Program.cs:31-46 | an absent host gives `http://localhost:7180` and an absent avatar 2000; given options and the other fields pass through unchanged |
| Console.BuildClient | GmAkari/ConsoleAkari/Program.cs:48-50 | the client has the host as base URL and a Basic header that decodes to the bytes of `username:password` |
| Console.ChooseAction | GmAkari/ConsoleAkari/Program.cs:15-17 | talk exactly when the save path is null or empty, otherwise save to that non-empty path |
| Console.Message | GmAkari/ConsoleAkari/Program.cs:20-27 | `[Error] Failed request to server` exactly for `HttpRequestException`, `[Error] Unknown error has occured` for every other exception |
| Console.FetchDefaults | GmAkari/SeikaCenterClient/SeikaCenterClient.cs:58-64 | a failed fetch fails with the exception the request threw; a success means the answer arrived, parsed as JSON and read as exactly those parameters; any other failure is `JsonError` or `NullReference` |
| Console.Perform | GmAkari/ConsoleAkari/Program.cs:15-17 | one or two requests, the fetch of the defaults first; a reported failure carries the message of its kind; a file is written only when saving, and to the save file |
| Console.Run | GmAkari/ConsoleAkari/Program.cs:9-28 | nothing is sent exactly when the arguments do not parse; at most two requests; a reported failure carries the message of its kind |
| Console.RunWithoutArguments | GmAkari/ConsoleAkari/Program.cs:11-12 | a command line that does not parse sends nothing and reports the unknown-error line |
| Console.PerformRequests | GmAkari/ConsoleAkari/Program.cs:15-17 | the fetch of the defaults comes first; exactly when it succeeds, one POST follows, for the chosen action and the same cid |
| Console.RunRequests | GmAkari/ConsoleAkari/Program.cs:13-17 | a run sends GET `/AVATOR2/{cid}` to the host, then, exactly when the defaults were read, one POST: `/PLAY2/{cid}` without a save file and `/SAVE2/{cid}` with one; the body holds the words joined by single spaces and the fetched values; all requests carry the header of the given username and password |
| Console.RunOutcome | GmAkari/ConsoleAkari/Program.cs:15-27 | a reported failure carries the message of its exception kind. The response is printed exactly when the POST answered. The save file is written exactly when saving and the POST answered, whatever the status, and it then holds the response body verbatim |
| Console.RunFaults | GmAkari/ConsoleAkari/Program.cs:10-27 | the fault reported is the one the fetch threw, `JsonError` for an answer that is not JSON or is malformed, `NullReference` for missing effects, or the one the POST threw; a refused fetch prints `[Error] Failed request to server` |
| Console.DefaultOptions | GmAkari/ConsoleAkari/Program.cs:32-49 | absent options give host `http://localhost:7180` and avatar 2000, and the client is built from host, username and password |
| Console.DefaultAvatarUrls | GmAkari/ConsoleAkari/Program.cs:39-40 | for avatar 2000 the run's requests go to `/AVATOR2/2000`, `/PLAY2/2000` and `/SAVE2/2000` |
| Console.OpenWriteCopy | GmAkari/SeikaCenterClient/SeikaCenterClient.cs:109-112 | what `File.OpenWrite` and the copy leave in the file: the body first, and the old bytes beyond its end kept |
| Console.OpenWriteKeepsStaleTail | GmAkari/SeikaCenterClient/SeikaCenterClient.cs:109-112 | a file longer than the new body does not end up holding the body |

## Left out

- Sending, async/await and `Dispose` are not modelled: the network is the `server` parameter, and the class methods return the requests they would send.
- The JSON serializer's text handling is not modelled. Parsing text into a JSON value (null, boolean, number, string, array or object) is the `parseJson` parameter. It is assumed to fail exactly when the text is not JSON. Only the member names and the member types are modelled.
- The fetched parameters are an argument of the class's default-parameter methods: the server's answer cannot be computed in the model. `Console.Run` models the fetch followed by the fill.
- The command-line parser library is not modelled. Its result is an `Arguments` record with the declared defaults applied by `WithDefaults`, or `None`. Help and version requests also take the `None` path in the code.
- Console output is the `Outcome` value. The exception detail printed after the classification line is the `Fault` kind only.
- `ToString` of the records and of the response is not modelled: they only format floating-point values for printing.
- File-system failures during `Save` (an unwritable path, for instance) are not modelled. They would be reported with the unknown-error line.
- Null strings are not modelled for the base URL or the static path, where they would throw when the URL is joined. A null text passed to the client is not modelled either: it would be sent as JSON null under `talktext`; the console program always passes a joined string. Null is modelled for the username, the password, the save path and the emotions.
- Encoding.AsciiBytes: strings are sequences of Unicode characters, encoded per UTF-16 code unit. A .NET string can also hold an unpaired surrogate, which no Dafny string can; credentials containing one are not modelled.
- Text.IntText: renders with the invariant culture's minus sign. A culture with another negative sign is not modelled.
- Console.Perform: writes the response body to the save file as the evidently intended replacement of the file's contents. The code's non-truncating write is `Console.OpenWriteCopy` (see Findings).
- Client.SeikaCenterClient.Save: states which file the response body goes to, not the bytes written, because the class does not model responses; the same holds for Client.SeikaCenterClient.SaveAt, Client.SeikaCenterClient.SaveWithDefaults and Client.SeikaCenterClient.SaveAtWithDefaults. `Console.RunOutcome` states the bytes written.
- Requests.Build: the URL string is kept as built, not parsed as a `Uri` the way `HttpRequestMessage` does. So dot segments are not removed: `GetStaticContent("../AVATOR")` is modelled as `{base}/app/../AVATOR`, while the code requests `{base}/AVATOR`. Nor is a URL the `Uri` parser rejects modelled, such as a port above 65535.
- Console.Run: treats the fetch as sent for any host. For a host the `Uri` parser rejects, the code throws `UriFormatException` before sending anything and prints the unknown-error line; the model lists the fetch as sent and leaves the outcome to `server`.

## Findings

| source | as written | input that shows it | evidently intended | confidence | as-written member | corrected member |
|---|---|---|---|---|---|---|
| GmAkari/SeikaCenterClient/SeikaCenterClient.cs:109-112 | `File.OpenWrite` opens an existing file without truncating it. The body is then copied over the start of the file. | An existing 2-byte file saved over with a 1-byte response ends up holding `[body byte, old second byte]` instead of the body alone. The same happens to a WAV file saved over with a shorter one. | The saved file holds exactly the response body (`File.Create`), as for a fresh file | high on the semantics of `OpenWrite`, medium on intent; not executed | Console.OpenWriteKeepsStaleTail | Console.RunOutcome |
