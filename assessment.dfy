/**
 * The self-assessment questionnaire (components/Assessment.js): five fixed
 * questions, a map of recorded answers, a remote scoring request whose failure
 * falls back to a local rule, and a reset.
 */
module AssessmentEngine {
  import opened Wrappers

  /** One answer to a question; the component stores the strings "yes", "no" and "unsure". */
  datatype Response = Yes | No | Unsure

  /** The fixed question list; a question is identified by its position. */
  const Questions: seq<string> := [
    "Have you felt sad or hopeless recently?",
    "Have you lost interest in activities you used to enjoy?",
    "Have you had changes in appetite or weight?",
    "Do you have trouble sleeping?",
    "Do you often feel tired or lack energy?"
  ]

  /** A result as the component stores it: the object { result, remedies, severity }. */
  datatype AssessmentResult = AssessmentResult(result: string, remedies: seq<string>, severity: string)

  const HighResult := AssessmentResult(
    "You may benefit from professional support.",
    ["Talk to a mental health professional",
     "Practice daily self-care",
     "Maintain regular sleep",
     "Connect with supportive people",
     "Consider therapy"],
    "high")

  const MediumResult := AssessmentResult(
    "Monitor your mental health and practice self-care.",
    ["Practice mindfulness",
     "Maintain routine",
     "Exercise regularly",
     "Talk to friends",
     "Monitor your mood"],
    "medium")

  const LowResult := AssessmentResult(
    "You're doing well. Keep it up!",
    ["Continue healthy habits",
     "Stay connected",
     "Practice stress relief",
     "Regular check-ins",
     "Help others"],
    "low")

  /**
   * How the awaited scoring request ended: a response body that parsed as JSON
   * (whatever its HTTP status), or an exception from the transport or the parse.
   */
  datatype ScoringOutcome = Returned(data: AssessmentResult) | Threw

  /** The answer object: question index to recorded answer; not every index need be present. */
  type Answers = map<int, Response>

  /** Every recorded key is the index of a question (what the question buttons ever record). */
  predicate AnsweredInRange(answers: Answers) {
    forall k | k in answers :: 0 <= k < |Questions|
  }

  /** The submit guard: the number of recorded keys is at least the number of questions. */
  predicate PassesValidation(answers: Answers) {
    |answers| >= |Questions|
  }

  /** The request body: one slot per question, the recorded answer or "no" where none is recorded. */
  function AnswersArray(answers: Answers): (body: seq<Response>)
    ensures |body| == |Questions| == 5
    ensures forall i | 0 <= i < |body| :: i in answers ==> body[i] == answers[i]
    ensures forall i | 0 <= i < |body| :: i !in answers ==> body[i] == No
  {
    seq(|Questions|, i requires 0 <= i < |Questions| => if i in answers then answers[i] else No)
  }

  /** The number of recorded answers equal to "yes", counted over the answer object's values. */
  function YesCount(answers: Answers): (n: nat)
    ensures n <= |answers|
  {
    SubsetCardinality(YesKeys(answers), answers.Keys);
    |YesKeys(answers)|
  }

  /** The keys under which "yes" is recorded. */
  function YesKeys(answers: Answers): set<int> {
    set k | k in answers && answers[k] == Yes
  }

  /** The three fixed results by number of "yes" answers. */
  function ResultFor(yesCount: nat): (r: AssessmentResult)
    ensures |r.remedies| == 5
    ensures r.severity == "high" <==> yesCount >= 3
    ensures r.severity == "medium" <==> 1 <= yesCount <= 2
    ensures r.severity == "low" <==> yesCount == 0
  {
    if yesCount >= 3 then HighResult
    else if yesCount >= 1 then MediumResult
    else LowResult
  }

  /** The local fallback classifier over the recorded answers. */
  function LocalResult(answers: Answers): (r: AssessmentResult)
    ensures r in {HighResult, MediumResult, LowResult}
    ensures r == HighResult <==> YesCount(answers) >= 3
    ensures r == MediumResult <==> 1 <= YesCount(answers) <= 2
    ensures r == LowResult <==> YesCount(answers) == 0
  {
    ResultFor(YesCount(answers))
  }

  /** Orders the three severities: low < medium < high. */
  function SeverityRank(severity: string): nat {
    if severity == "high" then 2 else if severity == "medium" then 1 else 0
  }

  /** Number of "yes" entries in a sequence of answers. */
  function CountYes(body: seq<Response>): nat {
    if body == [] then 0
    else CountYes(body[..|body| - 1]) + (if body[|body| - 1] == Yes then 1 else 0)
  }

  /** The positions of "yes" entries in a sequence of answers. */
  function YesPositions(body: seq<Response>): set<int> {
    set i | 0 <= i < |body| && body[i] == Yes
  }

  lemma SubsetCardinality<T>(a: set<T>, b: set<T>)
    requires a <= b
    ensures |a| <= |b|
  {
    assert b == a + (b - a);
  }

  /** The set {0, ..., n - 1}. */
  function Indices(n: nat): (r: set<int>)
    ensures |r| == n
    ensures forall i :: i in r <==> 0 <= i < n
  {
    if n == 0 then {} else Indices(n - 1) + {n - 1}
  }

  lemma {:induction false} YesPositionsCount(body: seq<Response>)
    ensures |YesPositions(body)| == CountYes(body)
  {
    if body != [] {
      var init := body[..|body| - 1];
      YesPositionsCount(init);
      assert YesPositions(body) == YesPositions(init) + (if body[|body| - 1] == Yes then {|body| - 1} else {});
    }
  }

  /**
   * The fallback counts the answer object's values while the request carries
   * the padded array; when every key is a question index they count the same
   * "yes" answers, so the fallback classifies exactly what was submitted.
   */
  lemma FallbackCountsSubmittedAnswers(answers: Answers)
    requires AnsweredInRange(answers)
    ensures YesCount(answers) == CountYes(AnswersArray(answers))
    ensures LocalResult(answers) == ResultFor(CountYes(AnswersArray(answers)))
  {
    var body := AnswersArray(answers);
    assert YesKeys(answers) == YesPositions(body);
    YesPositionsCount(body);
  }

  /** An answer recorded under a key that is no question index is counted by the fallback only. */
  lemma OutOfRangeKeyCountedOnlyLocally()
    ensures YesCount(map[7 := Yes]) == 1
    ensures CountYes(AnswersArray(map[7 := Yes])) == 0
  {
    assert YesKeys(map[7 := Yes]) == {7};
    var body := AnswersArray(map[7 := Yes]);
    assert YesPositions(body) == {};
    YesPositionsCount(body);
  }

  /** With keys restricted to question indices, passing the key-count guard means every question is answered. */
  lemma ValidatedAnswersAreComplete(answers: Answers)
    requires AnsweredInRange(answers)
    requires PassesValidation(answers)
    ensures forall i | 0 <= i < |Questions| :: i in answers
    ensures forall i | 0 <= i < |Questions| :: AnswersArray(answers)[i] == answers[i]
  {
    forall i | 0 <= i < |Questions|
      ensures i in answers
    {
      if i !in answers {
        SubsetCardinality(answers.Keys, Indices(|Questions|) - {i});
        assert false;
      }
    }
  }

  /** The "yes" count of a map splits into that of the map without one key, plus that key's contribution. */
  lemma YesCountWithout(answers: Answers, k: int)
    ensures YesCount(answers) == YesCount(answers - {k}) + (if k in answers && answers[k] == Yes then 1 else 0)
  {
    var own: set<int> := if k in answers && answers[k] == Yes then {k} else {};
    YesKeysWithout(answers, k);
    assert YesKeys(answers - {k}) !! own;
  }

  lemma YesKeysWithout(answers: Answers, k: int)
    ensures YesKeys(answers) == YesKeys(answers - {k}) + (if k in answers && answers[k] == Yes then {k} else {})
  {
  }

  /** Recording "no" or "unsure" adds nothing to the count; recording "yes" adds exactly one. */
  lemma RecordedAnswerContribution(answers: Answers, k: int, a: Response)
    ensures YesCount(answers[k := a]) == YesCount(answers - {k}) + (if a == Yes then 1 else 0)
  {
    YesCountWithout(answers[k := a], k);
    assert answers[k := a] - {k} == answers - {k};
  }

  /** "no" and "unsure" are interchangeable for the classifier. */
  lemma NonYesAnswersInterchangeable(answers: Answers, k: int, a: Response, b: Response)
    requires a != Yes && b != Yes
    ensures YesCount(answers[k := a]) == YesCount(answers[k := b])
    ensures LocalResult(answers[k := a]) == LocalResult(answers[k := b])
  {
    RecordedAnswerContribution(answers, k, a);
    RecordedAnswerContribution(answers, k, b);
  }

  /** Answering a question "yes" never lowers the severity; answering it otherwise never raises it. */
  lemma SeverityMonotoneInYes(answers: Answers, k: int, a: Response)
    ensures SeverityRank(LocalResult(answers).severity) <= SeverityRank(LocalResult(answers[k := Yes]).severity)
    ensures a != Yes ==> SeverityRank(LocalResult(answers[k := a]).severity) <= SeverityRank(LocalResult(answers).severity)
  {
    YesCountWithout(answers, k);
    RecordedAnswerContribution(answers, k, Yes);
    RecordedAnswerContribution(answers, k, a);
  }

  /** The local result depends on the answers only through their "yes" count. */
  lemma LocalResultDependsOnlyOnYesCount(a1: Answers, a2: Answers)
    requires YesCount(a1) == YesCount(a2)
    ensures LocalResult(a1) == LocalResult(a2)
  {
  }

  /** Messages of the three buckets, and their partition of the possible counts 0..5. */
  lemma LocalResultBuckets(answers: Answers)
    requires AnsweredInRange(answers)
    ensures YesCount(answers) <= |Questions|
    ensures YesCount(answers) >= 3 ==> LocalResult(answers).result == "You may benefit from professional support."
    ensures 1 <= YesCount(answers) <= 2 ==> LocalResult(answers).result == "Monitor your mental health and practice self-care."
    ensures YesCount(answers) == 0 ==> LocalResult(answers).result == "You're doing well. Keep it up!"
  {
    SubsetCardinality(answers.Keys, Indices(|Questions|));
  }

  /** Answers yes, yes, yes, no, unsure classify as high. */
  lemma ExampleThreeYesIsHigh()
    ensures LocalResult(map[0 := Yes, 1 := Yes, 2 := Yes, 3 := No, 4 := Unsure]) == HighResult
  {
    var m := map[0 := Yes, 1 := Yes, 2 := Yes, 3 := No, 4 := Unsure];
    assert YesKeys(m) == {0, 1, 2};
  }

  /** Five "no" answers classify as low. */
  lemma ExampleAllNoIsLow()
    ensures LocalResult(map[0 := No, 1 := No, 2 := No, 3 := No, 4 := No]) == LowResult
  {
    var m := map[0 := No, 1 := No, 2 := No, 3 := No, 4 := No];
    assert YesKeys(m) == {};
  }

  /** The component's state: the answer object, the displayed result (or null) and the loading flag. */
  class Assessment {
    var answers: Answers
    var result: Option<AssessmentResult>
    var loading: bool

    constructor ()
      ensures answers == map[] && result == None && !loading
    {
      answers := map[];
      result := None;
      loading := false;
    }

    /** Records an answer under an index, overwriting any earlier answer there. */
    method RecordAnswer(index: int, answer: Response)
      modifies this
      ensures answers == old(answers)[index := answer]
      ensures index in answers && answers[index] == answer
      ensures forall k | k != index :: (k in answers <==> k in old(answers))
      ensures forall k | k != index && k in answers :: answers[k] == old(answers)[k]
      ensures result == old(result) && loading == old(loading)
      ensures AnsweredInRange(old(answers)) && 0 <= index < |Questions| ==> AnsweredInRange(answers)
    {
      answers := answers[index := answer];
    }

    /**
     * The synchronous part of a submit: the key-count guard (an alert and no
     * request when it fails), the loading flag and the request body.
     */
    method BeginSubmit() returns (body: Option<seq<Response>>)
      modifies this
      ensures answers == old(answers) && result == old(result)
      ensures !PassesValidation(answers) ==> body == None && loading == old(loading)
      ensures PassesValidation(answers) ==> body == Some(AnswersArray(answers)) && loading
    {
      if |answers| < |Questions| {
        return None;
      }
      loading := true;
      body := Some(AnswersArray(answers));
    }

    /**
     * The part of a submit after the request settles: a parsed body is stored
     * as it is, a thrown error is replaced by the local result for the answers
     * the submit saw, and the loading flag is cleared either way.
     */
    method CompleteSubmit(submitted: Answers, outcome: ScoringOutcome)
      modifies this
      ensures answers == old(answers) && !loading
      ensures outcome.Returned? ==> result == Some(outcome.data)
      ensures outcome.Threw? ==> result == Some(LocalResult(submitted))
    {
      match outcome {
        case Returned(data) =>
          result := Some(data);
        case Threw =>
          result := Some(LocalResult(submitted));
      }
      loading := false;
    }

    /** A whole submit, the scoring request ending with the given outcome. */
    method Submit(outcome: ScoringOutcome) returns (body: Option<seq<Response>>)
      modifies this
      ensures answers == old(answers)
      ensures !PassesValidation(answers) ==> body == None && result == old(result) && loading == old(loading)
      ensures PassesValidation(answers) ==> body == Some(AnswersArray(answers)) && !loading
      ensures PassesValidation(answers) && outcome.Returned? ==> result == Some(outcome.data)
      ensures PassesValidation(answers) && outcome.Threw? ==> result == Some(LocalResult(answers))
      ensures PassesValidation(answers) && outcome.Threw? ==> |result.value.remedies| == 5
    {
      var submitted := answers;
      body := BeginSubmit();
      if body.Some? {
        CompleteSubmit(submitted, outcome);
      }
    }

    /** Clears the answers and the result; the loading flag is left as it is. */
    method Reset()
      modifies this
      ensures answers == map[] && result == None && loading == old(loading)
      ensures AnsweredInRange(answers) && !PassesValidation(answers)
    {
      answers := map[];
      result := None;
    }
  }

  /** After a reset, a submit without new answers is rejected and shows no result. */
  method ResetThenSubmit(a: Assessment, outcome: ScoringOutcome) returns (body: Option<seq<Response>>)
    modifies a
    ensures body == None && a.result == None && a.answers == map[]
    ensures a.loading == old(a.loading)
  {
    a.Reset();
    body := a.Submit(outcome);
  }
}
