/** The five emotion labels, their scores, and the dominant-emotion rule:
    `max(emotion_scores, key=emotion_scores.get)` over a dictionary built in
    the order anger, disgust, fear, joy, sadness. */
module Emotions {

  /** The five emotion keys of the result record. */
  datatype Emotion = Anger | Disgust | Fear | Joy | Sadness

  /** The dictionary key under which the service reports an emotion. */
  function Name(e: Emotion): string {
    match e
    case Anger => "anger"
    case Disgust => "disgust"
    case Fear => "fear"
    case Joy => "joy"
    case Sadness => "sadness"
  }

  /** Insertion order of the scores dictionary, which is the order `max`
      visits its keys in. */
  const Order: seq<Emotion> := [Anger, Disgust, Fear, Joy, Sadness]

  /** Position of an emotion in Order. */
  function Index(e: Emotion): (i: nat)
    ensures i < |Order| && Order[i] == e
  {
    match e
    case Anger => 0
    case Disgust => 1
    case Fear => 2
    case Joy => 3
    case Sadness => 4
  }

  /** The five scores of one analysis. The source only compares them. */
  datatype Scores = Scores(anger: real, disgust: real, fear: real, joy: real, sadness: real)
  {
    function Get(e: Emotion): real {
      match e
      case Anger => anger
      case Disgust => disgust
      case Fear => fear
      case Joy => joy
      case Sadness => sadness
    }
  }

  /** Python's `max` with a key: walk Order from position i onwards,
      keeping the best key so far, and replace it only by a key whose score
      is strictly greater. */
  function MaxFrom(s: Scores, best: Emotion, i: nat): Emotion
    requires i <= |Order|
    decreases |Order| - i
  {
    if i == |Order| then best
    else MaxFrom(s, if s.Get(Order[i]) > s.Get(best) then Order[i] else best, i + 1)
  }

  /** If the key kept after visiting the first i keys of Order is the first
      maximum among them, the walk ends on the first maximum of all five. */
  lemma {:induction false} MaxFromFindsFirstMaximum(s: Scores, best: Emotion, i: nat)
    requires i <= |Order| && Index(best) < i
    requires forall e :: Index(e) < i ==> s.Get(e) <= s.Get(best)
    requires forall e :: Index(e) < Index(best) ==> s.Get(e) < s.Get(best)
    ensures IsDominant(s, MaxFrom(s, best, i))
    decreases |Order| - i
  {
    if i < |Order| {
      var next := Order[i];
      var best' := if s.Get(next) > s.Get(best) then next else best;
      forall e | Index(e) < i + 1 ensures s.Get(e) <= s.Get(best') {
        if Index(e) == i {
          assert e == next;
        }
      }
      MaxFromFindsFirstMaximum(s, best', i + 1);
    }
  }

  /** The dominant-emotion rule, stated independently of how `max` walks:
      d scores at least as high as every emotion, and strictly higher than
      every emotion that comes before it in Order. */
  ghost predicate IsDominant(s: Scores, d: Emotion) {
    && (forall e :: s.Get(e) <= s.Get(d))
    && (forall e :: Index(e) < Index(d) ==> s.Get(e) < s.Get(d))
  }

  /** `max(emotion_scores, key=emotion_scores.get)`: the first maximal
      emotion in the order anger, disgust, fear, joy, sadness. */
  function Dominant(s: Scores): (d: Emotion)
    ensures IsDominant(s, d)
  {
    MaxFromFindsFirstMaximum(s, Order[0], 1);
    MaxFrom(s, Order[0], 1)
  }

  /** The rule determines the label: any emotion meeting it is the one
      Dominant returns. */
  lemma DominantIsUnique(s: Scores, d: Emotion)
    requires IsDominant(s, d)
    ensures d == Dominant(s)
  {
  }

  /** Tie-break: when two emotions share the top score, the earlier one in
      Order is reported. */
  lemma TieGoesToEarlier(s: Scores, a: Emotion, b: Emotion)
    requires Index(a) < Index(b)
    requires s.Get(a) == s.Get(b)
    requires forall e :: s.Get(e) <= s.Get(a)
    ensures Dominant(s) != b
  {
  }
}
