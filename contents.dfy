/** The request body and the parameter records of the synthesis server's API
    (GmAkari/SeikaCenterClient/Content.cs). Voice parameters are only copied, never
    computed, so they are `real`. The JSON serializer is a library; what is modelled of it
    is the mapping between record fields and JSON member names, over a small JSON value
    type. */
module Contents {
  import opened Wrappers

  /** Parameter: a server-reported setting with its range and step. */
  datatype Parameter = Parameter(value: real, min: real, max: real, step: real)

  /** Effects: the four tunable settings, declared volume first as the server reports them. */
  datatype Effects = Effects(volume: Parameter, speed: Parameter, pitch: Parameter, intonation: Parameter)

  /** Parameters: the answer of /AVATOR2/{cid}; the emotion weights may be null. */
  datatype Parameters = Parameters(effects: Effects, emotions: Option<map<string, real>>)

  /** Content: the body of a synthesis request. */
  datatype Content = Content(talkText: string, effects: map<string, real>, emotions: Option<map<string, real>>)

  /** The keys of the effects dictionary: the names of the constructor's parameters. */
  const EffectKeys: set<string> := {"speed", "volume", "pitch", "intonation"}

  /** new Content(text, speed, volume, pitch, intonation, emotions). */
  function FromValues(text: string, speed: real, volume: real, pitch: real, intonation: real,
                      emotions: Option<map<string, real>>): (c: Content)
    ensures c.talkText == text && c.emotions == emotions
    ensures c.effects.Keys == EffectKeys
    ensures c.effects["speed"] == speed && c.effects["volume"] == volume
    ensures c.effects["pitch"] == pitch && c.effects["intonation"] == intonation
  {
    Content(text, map["speed" := speed, "volume" := volume, "pitch" := pitch, "intonation" := intonation], emotions)
  }

  /** new Content(text, effects, emotions): chains to FromValues with each setting's value. */
  function FromEffects(text: string, effects: Effects, emotions: Option<map<string, real>>): (c: Content)
    ensures c.talkText == text && c.emotions == emotions
    ensures c.effects.Keys == EffectKeys
    ensures c.effects["volume"] == effects.volume.value && c.effects["speed"] == effects.speed.value
    ensures c.effects["pitch"] == effects.pitch.value && c.effects["intonation"] == effects.intonation.value
  {
    FromValues(text, effects.speed.value, effects.volume.value, effects.pitch.value, effects.intonation.value, emotions)
  }

  /** new Content(text): every effect 1.0, no emotions. */
  function FromText(text: string): (c: Content)
    ensures c.talkText == text && c.emotions == None
    ensures c.effects.Keys == EffectKeys
  {
    FromValues(text, 1.0, 1.0, 1.0, 1.0, None)
  }

  /** The effects of FromEffects are keyed by name, whatever the declaration order of Effects:
      each key holds the value of the setting of the same name. */
  lemma FromEffectsKeyedByName(text: string, effects: Effects, emotions: Option<map<string, real>>)
    ensures FromEffects(text, effects, emotions) == Content(text, map[
      "volume" := effects.volume.value, "speed" := effects.speed.value,
      "pitch" := effects.pitch.value, "intonation" := effects.intonation.value], emotions)
  {
  }

  /** Only the values of the settings reach the body: min, max and step are never read. */
  lemma FromEffectsReadsOnlyValues(text: string, e1: Effects, e2: Effects, emotions: Option<map<string, real>>)
    requires e1.volume.value == e2.volume.value && e1.speed.value == e2.speed.value
    requires e1.pitch.value == e2.pitch.value && e1.intonation.value == e2.intonation.value
    ensures FromEffects(text, e1, emotions) == FromEffects(text, e2, emotions)
  {
  }

  /** Content(text) is the neutral request: every effect 1.0 and null emotions. */
  lemma FromTextIsNeutral(text: string)
    ensures FromText(text).talkText == text && FromText(text).emotions == None
    ensures FromText(text).effects.Keys == EffectKeys
    ensures forall k :: k in FromText(text).effects ==> FromText(text).effects[k] == 1.0
  {
  }

  /** A JSON value. Booleans and arrays never hold a member the readers use: inside an
      object the readers skip them like any other member they do not name, and where a
      number or an object is expected they are malformed. */
  datatype Json =
    | JNull
    | JBool(b: bool)
    | JNumber(n: real)
    | JString(s: string)
    | JArray(items: seq<Json>)
    | JObject(members: map<string, Json>)

  /** Why a document does not yield usable Parameters: a member of the wrong JSON type (the
      serializer throws), or a missing object member, which the serializer leaves null and
      the first use dereferences. */
  datatype DecodeError = Malformed | NullMember

  // Wire names of Content (plural) and of Parameters (singular).
  const TalkTextName := "talktext"
  const EffectsName := "effects"
  const EmotionsName := "emotions"
  const EffectName := "effect"
  const EmotionName := "emotion"

  function NumberObject(m: map<string, real>): (j: Json)
    ensures j.JObject? && j.members.Keys == m.Keys
    ensures forall k :: k in m ==> j.members[k] == JNumber(m[k])
  {
    JObject(map k | k in m :: JNumber(m[k]))
  }

  /** The JSON document the serializer writes for a request body. */
  function ContentToJson(c: Content): (j: Json)
    ensures j.JObject? && j.members.Keys == {TalkTextName, EffectsName, EmotionsName}
    ensures j.members[TalkTextName] == JString(c.talkText)
    ensures j.members[EffectsName] == NumberObject(c.effects)
    ensures j.members[EmotionsName] == if c.emotions.None? then JNull else NumberObject(c.emotions.value)
  {
    JObject(map[TalkTextName := JString(c.talkText), EffectsName := NumberObject(c.effects),
                EmotionsName := match c.emotions case None => JNull case Some(m) => NumberObject(m)])
  }

  /** A double member: absent gives the default 0.0, a number its value, anything else fails. */
  function NumberMember(members: map<string, Json>, name: string): Result<real, DecodeError> {
    if name !in members then Success(0.0)
    else match members[name]
      case JNumber(n) => Success(n)
      case _ => Failure(Malformed)
  }

  function ParameterFromJson(j: Json): Result<Parameter, DecodeError> {
    match j
    case JNull => Failure(NullMember)
    case JObject(ms) =>
      var value := NumberMember(ms, "value");
      var min := NumberMember(ms, "min");
      var max := NumberMember(ms, "max");
      var step := NumberMember(ms, "step");
      if value.Failure? || min.Failure? || max.Failure? || step.Failure? then Failure(Malformed)
      else Success(Parameter(value.value, min.value, max.value, step.value))
    case _ => Failure(Malformed)
  }

  /** An object member: absent or null is a null reference. */
  function ParameterMember(members: map<string, Json>, name: string): Result<Parameter, DecodeError> {
    if name !in members then Failure(NullMember) else ParameterFromJson(members[name])
  }

  /** The error of the first failure among the results, a malformed member taking precedence
      over a null one: the serializer throws on the former while reading the document, the
      latter only surfaces when the reference is used. */
  function FirstError(rs: seq<Result<Parameter, DecodeError>>): Option<DecodeError> {
    if exists i :: 0 <= i < |rs| && rs[i] == Failure(Malformed) then Some(Malformed)
    else if exists i :: 0 <= i < |rs| && rs[i].Failure? then Some(NullMember)
    else None
  }

  function EffectsFromJson(j: Json): Result<Effects, DecodeError> {
    match j
    case JNull => Failure(NullMember)
    case JObject(ms) =>
      var rs := [ParameterMember(ms, "volume"), ParameterMember(ms, "speed"),
                 ParameterMember(ms, "pitch"), ParameterMember(ms, "intonation")];
      (match FirstError(rs)
       case Some(e) => Failure(e)
       case None => Success(Effects(rs[0].value, rs[1].value, rs[2].value, rs[3].value)))
    case _ => Failure(Malformed)
  }

  /** A Dictionary<string, double> member: absent or null stays null, an object of numbers is read. */
  function EmotionsFromJson(members: map<string, Json>): Result<Option<map<string, real>>, DecodeError> {
    if EmotionName !in members then Success(None)
    else match members[EmotionName]
      case JNull => Success(None)
      case JObject(ms) =>
        if forall k :: k in ms ==> ms[k].JNumber? then Success(Some(map k | k in ms :: ms[k].n))
        else Failure(Malformed)
      case _ => Failure(Malformed)
  }

  /** Reading the answer of a parameter endpoint: members "effect" and "emotion". */
  function ParametersFromJson(j: Json): (r: Result<Parameters, DecodeError>)
    ensures r.Success? ==> j.JObject? && EffectName in j.members
                           && EffectsFromJson(j.members[EffectName]) == Success(r.value.effects)
                           && EmotionsFromJson(j.members) == Success(r.value.emotions)
    ensures j.JObject? && EffectName !in j.members && EmotionsFromJson(j.members).Success? ==> r == Failure(NullMember)
    ensures !j.JObject? && !j.JNull? ==> r == Failure(Malformed)
  {
    match j
    case JNull => Failure(NullMember)
    case JObject(ms) =>
      var effects := if EffectName in ms then EffectsFromJson(ms[EffectName]) else Failure(NullMember);
      var emotions := EmotionsFromJson(ms);
      if effects == Failure(Malformed) || emotions.Failure? then Failure(Malformed)
      else if effects.Failure? then Failure(NullMember)
      else Success(Parameters(effects.value, emotions.value))
    case _ => Failure(Malformed)
  }

  function ParameterToJson(p: Parameter): Json {
    JObject(map["value" := JNumber(p.value), "min" := JNumber(p.min), "max" := JNumber(p.max), "step" := JNumber(p.step)])
  }

  /** Members the readers do not name are skipped: a server answer with any extra members,
      whatever their values, reads as the same parameters. */
  lemma ExtraMembersIgnored(p: Parameters, extra: map<string, Json>)
    requires EffectName !in extra && EmotionName !in extra
    ensures ParametersFromJson(JObject(ParametersToJson(p).members + extra)) == Success(p)
  {
    var ms := ParametersToJson(p).members;
    var all := ms + extra;
    assert all[EffectName] == ms[EffectName] && all[EmotionName] == ms[EmotionName];
    EffectsRoundTrip(p.effects, all[EffectName]);
    EmotionsRoundTrip(p.emotions, all);
  }

  /** A boolean or an array where a parameter object is expected is malformed. */
  lemma WrongKindIsMalformed(ms: map<string, Json>, b: bool, items: seq<Json>)
    requires EffectName in ms && (ms[EffectName] == JBool(b) || ms[EffectName] == JArray(items))
    ensures ParametersFromJson(JObject(ms)) == Failure(Malformed)
  {
  }

  /** The document a server sends for given Parameters, under the wire names the reader expects. */
  function ParametersToJson(p: Parameters): Json {
    JObject(map[
      EffectName := JObject(map[
        "volume" := ParameterToJson(p.effects.volume), "speed" := ParameterToJson(p.effects.speed),
        "pitch" := ParameterToJson(p.effects.pitch), "intonation" := ParameterToJson(p.effects.intonation)]),
      EmotionName := match p.emotions case None => JNull case Some(m) => NumberObject(m)])
  }

  lemma ParameterRoundTrip(p: Parameter)
    ensures ParameterFromJson(ParameterToJson(p)) == Success(p)
  {
  }

  /** A parameters document under the singular wire names is read back exactly. */
  lemma ParametersRoundTrip(p: Parameters)
    ensures ParametersFromJson(ParametersToJson(p)) == Success(p)
  {
    var ms := ParametersToJson(p).members;
    EffectsRoundTrip(p.effects, ms[EffectName]);
    EmotionsRoundTrip(p.emotions, ms);
  }

  /** The effect member of a server document reads back to the effects it was written from. */
  lemma EffectsRoundTrip(e: Effects, j: Json)
    requires j == JObject(map["volume" := ParameterToJson(e.volume), "speed" := ParameterToJson(e.speed),
                              "pitch" := ParameterToJson(e.pitch), "intonation" := ParameterToJson(e.intonation)])
    ensures EffectsFromJson(j) == Success(e)
  {
    ParameterRoundTrip(e.volume);
    ParameterRoundTrip(e.speed);
    ParameterRoundTrip(e.pitch);
    ParameterRoundTrip(e.intonation);
  }

  /** The emotion member of a server document reads back to the emotions it was written from. */
  lemma EmotionsRoundTrip(emotions: Option<map<string, real>>, ms: map<string, Json>)
    requires EmotionName in ms
    requires ms[EmotionName] == match emotions case None => JNull case Some(m) => NumberObject(m)
    ensures EmotionsFromJson(ms) == Success(emotions)
  {
    match emotions
    case None =>
    case Some(m) =>
      var ns := NumberObject(m).members;
      assert (map k | k in ns :: ns[k].n) == m;
  }

  /** The request body uses the plural names, so read as a parameters document it has no
      "effect" member: the two shapes are not interchangeable. */
  lemma ContentIsNotParameters(c: Content)
    ensures ParametersFromJson(ContentToJson(c)) == Failure(NullMember)
  {
  }
}
