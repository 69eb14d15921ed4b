/** `emotion_detector` from the moment the emotion-prediction service has
    answered: status handling, the two reply shapes, default-to-zero score
    extraction and the dominant-emotion label. The request itself is not
    part of this model; the reply is an input. */
module EmotionDetection {
  import opened Wrappers
  import opened Emotions

  /** A JSON value found in an emotion object: a number, or anything else
      (a string, a boolean, null, an array or an object). */
  datatype Value = Number(n: real) | NonNumber

  /** A decoded JSON object holding emotion scores, keyed by name; it may
      hold other keys, with values of any kind. */
  type EmotionObject = map<string, Value>

  /** One element of the `emotionPredictions` list; `emotion` is None when
      the element has no `emotion` key. */
  datatype Prediction = Prediction(emotion: Option<EmotionObject>)

  /** The top-level JSON object of a reply, reduced to the two fields the
      client looks at. None means the key is absent. */
  datatype Body = Body(text: Option<string>, emotionPredictions: Option<seq<Prediction>>)

  /** The HTTP reply: its status code and its body decoded as a JSON object
      (None when the body does not decode to one). */
  datatype Reply = Reply(status: int, body: Option<Body>)

  /** What the client raises. */
  datatype Error =
    | HttpError(status: int)      // raised by `raise_for_status`
    | BodyNotJson                 // raised by `response.json()`
    | ValueError(message: string) // raised by the client itself
    | TypeError                   // raised by `max` comparing a non-number with a number

  const TextDecodeFailed: string := "Failed to decode JSON from 'text' attribute."
  const NoPredictions: string := "Could not extract emotion predictions from the response."
  const UnexpectedFormat: string := "Unexpected response format from API."

  /** HTTP 400, Bad Request (section 15.5.1 of RFC 9110). */
  const BadRequest: int := 400

  /** The statuses `raise_for_status` raises for: client errors (4xx) and
      server errors (5xx). */
  predicate RaisesForStatus(status: int) {
    400 <= status < 600
  }

  /** The record the client returns: five optional scores and an optional
      dominant label. */
  datatype Analysis = Analysis(
    anger: Option<real>, disgust: Option<real>, fear: Option<real>,
    joy: Option<real>, sadness: Option<real>,
    dominantEmotion: Option<Emotion>)
  {
    /** Every score and the label are present. */
    predicate Complete() {
      anger.Some? && disgust.Some? && fear.Some? && joy.Some? && sadness.Some? && dominantEmotion.Some?
    }

    function ScoreValues(): Scores
      requires Complete()
    {
      Scores(anger.value, disgust.value, fear.value, joy.value, sadness.value)
    }
  }

  /** The all-None record returned for a rejected text. */
  const Rejected: Analysis := Analysis(None, None, None, None, None, None)

  /** `emotion_results.get(key, 0)`. */
  function Lookup(m: EmotionObject, key: string): Value {
    if key in m then m[key] else Number(0.0)
  }

  /** The five scores read from an emotion object, each defaulting to 0;
      None when one of the five keys holds something other than a number. */
  function ScoresOf(m: EmotionObject): (r: Option<Scores>)
    ensures r.Some? <==> forall e :: Name(e) in m ==> m[Name(e)].Number?
    ensures r.Some? ==> forall e :: Lookup(m, Name(e)) == Number(r.value.Get(e))
  {
    var anger, disgust, fear := Lookup(m, Name(Anger)), Lookup(m, Name(Disgust)), Lookup(m, Name(Fear));
    var joy, sadness := Lookup(m, Name(Joy)), Lookup(m, Name(Sadness));
    if anger.Number? && disgust.Number? && fear.Number? && joy.Number? && sadness.Number? then
      Some(Scores(anger.n, disgust.n, fear.n, joy.n, sadness.n))
    else
      None
  }

  /** The record built from a set of scores, labelled with the dominant
      emotion. */
  function Record(s: Scores): (a: Analysis)
    ensures a.Complete() && a.ScoreValues() == s
    ensures IsDominant(s, a.dominantEmotion.value)
  {
    Analysis(Some(s.anger), Some(s.disgust), Some(s.fear), Some(s.joy), Some(s.sadness),
             Some(Dominant(s)))
  }

  /** Picks the emotion object out of a reply body. A `text` field wins and
      is decoded again (decode stands for `json.loads`); otherwise the first
      element of `emotionPredictions` must carry an `emotion` object. */
  function Extract(body: Body, decode: string -> Option<EmotionObject>): (r: Result<EmotionObject, Error>)
    ensures r.Success? && body.text.Some? ==> decode(body.text.value) == Some(r.value)
    ensures r.Success? && body.text.None? ==>
      && body.emotionPredictions.Some?
      && |body.emotionPredictions.value| > 0
      && body.emotionPredictions.value[0].emotion == Some(r.value)
    ensures body.text.Some? ==>
      && (r.Success? <==> decode(body.text.value).Some?)
      && (r.Failure? ==> r.error == ValueError(TextDecodeFailed))
    ensures body.text.None? && body.emotionPredictions.Some? ==>
      var predictions := body.emotionPredictions.value;
      && (r.Success? <==> |predictions| > 0 && predictions[0].emotion.Some?)
      && (r.Failure? ==> r.error == ValueError(NoPredictions))
    ensures body.text.None? && body.emotionPredictions.None? ==>
      r == Failure(ValueError(UnexpectedFormat))
  {
    if body.text.Some? then
      match decode(body.text.value)
      case Some(m) => Success(m)
      case None => Failure(ValueError(TextDecodeFailed))
    else if body.emotionPredictions.Some? then
      var predictions := body.emotionPredictions.value;
      if |predictions| > 0 && predictions[0].emotion.Some? then Success(predictions[0].emotion.value)
      else Failure(ValueError(NoPredictions))
    else
      Failure(ValueError(UnexpectedFormat))
  }

  /** The outcome once the emotion object is known: the scored record, or
      the TypeError `max` raises when it compares a non-number score with a
      number. */
  function Scored(m: EmotionObject): Result<Analysis, Error> {
    match ScoresOf(m)
    case Some(s) => Success(Record(s))
    case None => Failure(TypeError)
  }

  /** `emotion_detector` after the request: the outcome for a given reply. */
  function Detect(reply: Reply, decode: string -> Option<EmotionObject>): (r: Result<Analysis, Error>)
    ensures reply.status == BadRequest ==> r == Success(Rejected)
    ensures reply.status != BadRequest && RaisesForStatus(reply.status) ==>
      r == Failure(HttpError(reply.status))
    ensures r.Success? && reply.status != BadRequest ==>
      r.value.Complete() && IsDominant(r.value.ScoreValues(), r.value.dominantEmotion.value)
  {
    if reply.status == BadRequest then Success(Rejected)
    else if RaisesForStatus(reply.status) then Failure(HttpError(reply.status))
    else match reply.body
      case None => Failure(BodyNotJson)
      case Some(body) =>
        match Extract(body, decode)
        case Failure(e) => Failure(e)
        case Success(m) => Scored(m)
  }

  /** A 400 reply gives the all-None record whatever its body says. */
  lemma BadRequestIgnoresBody(b1: Option<Body>, b2: Option<Body>,
                              d1: string -> Option<EmotionObject>, d2: string -> Option<EmotionObject>)
    ensures Detect(Reply(BadRequest, b1), d1) == Detect(Reply(BadRequest, b2), d2)
    ensures Detect(Reply(BadRequest, b1), d1).Success?
    ensures var a := Detect(Reply(BadRequest, b1), d1).value;
      a.anger.None? && a.disgust.None? && a.fear.None? && a.joy.None? && a.sadness.None?
      && a.dominantEmotion.None?
  {
  }

  /** Shape A: with a `text` field the scores come from decoding it, even
      when `emotionPredictions` is also present; a decoding failure raises. */
  lemma TextShape(reply: Reply, decode: string -> Option<EmotionObject>)
    requires !RaisesForStatus(reply.status)
    requires reply.body.Some? && reply.body.value.text.Some?
    ensures var t := reply.body.value.text.value;
      Detect(reply, decode) ==
        if decode(t).Some? then Scored(decode(t).value)
        else Failure(ValueError(TextDecodeFailed))
  {
  }

  /** Shape B: without `text`, the scores come from the first prediction's
      `emotion` object; an empty list or a first element without one raises. */
  lemma PredictionsShape(reply: Reply, decode: string -> Option<EmotionObject>)
    requires !RaisesForStatus(reply.status)
    requires reply.body.Some? && reply.body.value.text.None?
    requires reply.body.value.emotionPredictions.Some?
    ensures var p := reply.body.value.emotionPredictions.value;
      Detect(reply, decode) ==
        if |p| > 0 && p[0].emotion.Some? then Scored(p[0].emotion.value)
        else Failure(ValueError(NoPredictions))
  {
  }

  /** A body with neither field raises. */
  lemma NeitherShape(reply: Reply, decode: string -> Option<EmotionObject>)
    requires !RaisesForStatus(reply.status)
    requires reply.body.Some? && reply.body.value.text.None?
    requires reply.body.value.emotionPredictions.None?
    ensures Detect(reply, decode) == Failure(ValueError(UnexpectedFormat))
  {
  }

  /** A body that is not a JSON object raises. */
  lemma BodyMustBeJson(reply: Reply, decode: string -> Option<EmotionObject>)
    requires !RaisesForStatus(reply.status) && reply.body.None?
    ensures Detect(reply, decode) == Failure(BodyNotJson)
  {
  }

  /** On success after a non-400 reply, each score is the extracted value
      under that emotion's key, or 0 when the key is absent, and the label is
      the first maximal emotion. */
  lemma SuccessReportsExtractedScores(reply: Reply, decode: string -> Option<EmotionObject>, e: Emotion)
    requires Detect(reply, decode).Success? && reply.status != BadRequest
    ensures reply.body.Some? && Extract(reply.body.value, decode).Success?
    ensures var m := Extract(reply.body.value, decode).value;
      var a := Detect(reply, decode).value;
      && ScoresOf(m).Some?
      && a.Complete() && Lookup(m, Name(e)) == Number(a.ScoreValues().Get(e))
      && a.dominantEmotion == Some(Dominant(ScoresOf(m).value))
  {
  }

  /** A non-number under one of the five emotion keys makes `max` raise. */
  lemma NonNumberScoreRaises(reply: Reply, decode: string -> Option<EmotionObject>, e: Emotion)
    requires !RaisesForStatus(reply.status) && reply.body.Some?
    requires Extract(reply.body.value, decode).Success?
    requires var m := Extract(reply.body.value, decode).value; Name(e) in m && m[Name(e)].NonNumber?
    ensures Detect(reply, decode) == Failure(TypeError)
  {
  }

  /** Keys other than the five emotion names, whatever they hold, do not
      change the scores. */
  lemma OtherKeysIgnored(m: EmotionObject, k: string, v: Value)
    requires forall e :: k != Name(e)
    ensures ScoresOf(m[k := v]) == ScoresOf(m)
  {
  }
}
