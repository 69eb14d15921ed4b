# Emotion detector reply normalisation, in Dafny

This project models `emotion_detector` from `EmotionDetection/emotion_detection.py`. It covers everything
the function does after the emotion-prediction service has answered:

- a 400 (Bad Request, section 15.5.1 of RFC 9110) reply becomes the all-`None` record;
- any other 4xx/5xx reply raises, as `raise_for_status` does;
- a reply body with a `text` field has that string decoded as JSON a second time;
- otherwise the first element of `emotionPredictions` must carry an `emotion` object;
- a body with neither field raises;
- the five scores `anger`, `disgust`, `fear`, `joy` and `sadness` are read with a default of 0;
- `dominant_emotion` is computed with Python's `max(..., key=...)` over the keys in that order, so the first maximum wins.

The reply is an input (`Reply`: a status code and the body as a decoded JSON object). The
nested `json.loads` is an opaque `decode` parameter that gives an emotion object or a failure.
What the client raises is the `Failure` side of a `Result`. Scores are `real` and are only
compared.

Files:
- `wrappers.dfy`: `Option` and `Result`.
- `emotions.dfy`: the five labels, their scores, `max`'s left-to-right walk (`MaxFrom`), and the independent rule
  `IsDominant`: the label scores at least every emotion and strictly more than every earlier one. `Dominant` is proved to meet
  the rule, and the rule is proved to determine the label.
- `emotion_detection.dfy`: the reply, the shape dispatch (`Extract`), the default-to-zero
  extraction (`ScoresOf`), the record (`Record`) and the whole normalisation (`Detect`), with
  one lemma per outcome.

`Detect` is a function, so the same reply and decoder always give the same result.

The client has no error types of its own. It raises one of four things:
- whatever `raise_for_status` raises (`HttpError` here), raised for statuses 400 to 599 only (statuses in 1xx, 2xx and 3xx, and codes of 600 and above, go on to body parsing);
- whatever `response.json()` raises (`BodyNotJson`);
- `ValueError` with one of three fixed messages;
- the `TypeError` of `max` when one of the five scores is not a number.

## Model

| member | source | states |
|---|---|---|
| Emotions.MaxFromFindsFirstMaximum | EmotionDetection/emotion_detection.py:85 | walking the remaining keys in order, keeping the best key and replacing it only on a strictly greater score, keeps "first maximum so far" and ends on an emotion satisfying the dominant rule |
| Emotions.Dominant | EmotionDetection/emotion_detection.py:76-85 | the label chosen by `max` over the dictionary built in the order anger, disgust, fear, joy, sadness scores at least every other emotion and strictly more than every emotion before it |
| Emotions.DominantIsUnique | EmotionDetection/emotion_detection.py:76-85 | any emotion that meets the first-maximum rule is the one `max` returns, so the rule and the computation agree in both directions |
| Emotions.TieGoesToEarlier | EmotionDetection/emotion_detection.py:76-85 | when two emotions share the top score, the later one in the order is never reported |
| Emotions.Index | EmotionDetection/emotion_detection.py:76-82 | each emotion's position in the dictionary's insertion order, and the order lists that emotion there |
| EmotionDetection.ScoresOf | EmotionDetection/emotion_detection.py:69-73 | scores are produced exactly when none of the five keys holds a non-number, and then each score is the value under that emotion's key, or 0 when the key is absent |
| EmotionDetection.OtherKeysIgnored | EmotionDetection/emotion_detection.py:69-73 | adding or changing a key other than the five emotion names, with a value of any JSON kind, leaves the scores unchanged |
| EmotionDetection.NonNumberScoreRaises | EmotionDetection/emotion_detection.py:69-85 | a non-number under one of the five emotion keys of the extracted object makes the client raise the `TypeError` of `max` |
| EmotionDetection.Record | EmotionDetection/emotion_detection.py:88-95 | the returned record carries all five scores and a present `dominant_emotion` that satisfies the first-maximum rule for them |
| EmotionDetection.Extract | EmotionDetection/emotion_detection.py:54-66 | with `text` present, extraction succeeds exactly when it decodes, yielding the decoded object, and otherwise fails with the decode message; without `text` but with `emotionPredictions`, it succeeds exactly when the list is non-empty and its first element has `emotion`, yielding that object, and otherwise fails with the predictions message; with neither, it fails with the unexpected-format message |
| EmotionDetection.Detect | EmotionDetection/emotion_detection.py:34-95 | a 400 reply gives the all-None record, any other 4xx/5xx raises the HTTP error, and every other success is a complete record whose label is the first maximum of its scores |
| EmotionDetection.BadRequestIgnoresBody | EmotionDetection/emotion_detection.py:35-43 | for a 400 reply the outcome does not depend on the body or the decoder, and all five scores and `dominant_emotion` are None |
| EmotionDetection.TextShape | EmotionDetection/emotion_detection.py:54-58 | with a `text` field the scores come from decoding it, even when `emotionPredictions` is also present, and a failed decoding raises "Failed to decode JSON from 'text' attribute." |
| EmotionDetection.PredictionsShape | EmotionDetection/emotion_detection.py:59-64 | without `text`, the scores come from the first prediction's `emotion` object, and an empty list or a first element without `emotion` raises "Could not extract emotion predictions from the response." |
| EmotionDetection.NeitherShape | EmotionDetection/emotion_detection.py:65-66 | a body with neither `text` nor `emotionPredictions` raises "Unexpected response format from API." |
| EmotionDetection.BodyMustBeJson | EmotionDetection/emotion_detection.py:48 | a non-error reply whose body is not a JSON object raises |
| EmotionDetection.SuccessReportsExtractedScores | EmotionDetection/emotion_detection.py:69-95 | on success after a non-400 reply, every reported score is the number under that key of the extracted object or 0, and the label is the dominant emotion of those scores |

## Left out

- The request itself (URL, model-id header, `raw_document` payload, the POST) at `EmotionDetection/emotion_detection.py:27-32`: network I/O, so the reply is an input. Transport errors are not modelled.
- The debug print of the full reply at `EmotionDetection/emotion_detection.py:51`: console output.
- `requests`' `raise_for_status` and `response.json()` are not part of this model. Their behaviour is taken as documented: raise for 400 to 599, and decode the body or raise.
- The internals of `json.loads`: the `decode` parameter stands for it. Its `None` covers both a JSON decoding error and a decoded value that is not an object. In the source the second raises `AttributeError` at `.get` rather than the `ValueError`, but both are failures.
- Some JSON values of the wrong type are not modelled: a reply body that is an array or a string, a non-string `text`, a decoded `text` or `emotion` value that is not an object, and prediction elements that are not objects. Each of these raises some Python error in the source. A `null` `emotionPredictions` is falsy like `[]`, so the empty list stands for both.
- Values inside an emotion object are either a number or `NonNumber`. A `NonNumber` under one of the five keys is modelled as the `TypeError` `max` raises when it compares it with a number. This is exact whenever at least one of the five is a number, which includes every missing key, since missing keys default to 0. Two cases are not reproduced. If all five keys hold mutually comparable non-numbers, such as five strings, Python's `max` picks one without raising. JSON booleans compare as 1 and 0 in Python, but the model treats them as non-numbers.
- Floating point: scores are `real`. NaN, whose comparisons would change `max`'s choice, is not modelled.
- `server.py` (Flask routes, the blank-statement and `None`-label checks, message formatting) and `test_emotion_detection.py` are not part of this model. They are web plumbing and live-service assertions.
