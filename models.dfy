/**
 * The scoring and serialisation rules of the ORM classes: answering a
 * question, the progress of an exam, a document's score table, and the
 * comma-joined `labels` and `authors` columns. Each database row is an
 * object whose columns are fields; database sessions are not modelled.
 */
module Models {
  import opened PyValues
  import opened PyText
  import opened Services
  import opened Cache
  import opened Prompts
  import opened Judging

  const ChoiceType: int := 0
  const TrueOrFalseType: int := 1
  const BlankType: int := 2
  const ReviewType: int := 3

  /** The `passed` rule on a stored score: no score never passes, and a
      score passes when it is strictly above the passing score. */
  function IsPassed(score: Option<int>): (r: bool)
    ensures score.None? ==> !r
    ensures score.Some? ==> (r <==> score.value > PassedScore)
  {
    match score
    case None => false
    case Some(s) => s > PassedScore
  }

  /** The score of a choice or true/false answer: the text column is
      compared with the (possibly missing) standard answer. */
  function ChoiceScore(user: string, standard: Option<string>): (r: int)
    ensures r == 100 || r == 0
    ensures r == 100 <==> standard == Some(user)
  {
    if standard == Some(user) then 100 else 0
  }

  /** A choice answer passes exactly when it is the standard answer, and
      a missing standard answer fails every answer. */
  lemma ChoicePassed(user: string, standard: Option<string>)
    ensures IsPassed(Some(ChoiceScore(user, standard))) <==> standard == Some(user)
    ensures standard.None? ==> !IsPassed(Some(ChoiceScore(user, standard)))
  {
  }

  /** The text the standard answer has inside the judging prompt: a
      missing answer is formatted as `None`. */
  function StandardText(standard: Option<string>): (r: string)
    ensures standard.Some? ==> r == standard.value
  {
    match standard
    case None => "None"
    case Some(s) => s
  }

  class Question {
    var questionType: int
    var standardAnswer: Option<string>
    var standardReview: Option<string>
    var userAnswer: Option<string>
    var score: Option<int>
    /** The answer time, as a timestamp supplied by the caller. */
    var answerTime: Option<int>
    /** The document the question belongs to. */
    var document: Document

    /** A new, unanswered question of document `doc`. */
    constructor(doc: Document, t: int, standard: Option<string>)
      ensures document == doc && questionType == t && standardAnswer == standard
      ensures standardReview.None? && userAnswer.None? && score.None? && !Done()
    {
      document, questionType, standardAnswer := doc, t, standard;
      standardReview, userAnswer, score, answerTime := None, None, None, None;
    }

    /** `done`: the question has been answered. */
    predicate Done()
      reads this
    {
      answerTime.Some?
    }

    /** `passed`. */
    predicate Passed()
      reads this
    {
      IsPassed(score)
    }

    /** `set_user_answer(user_answer)` at time `now`. The answer and its
        time are recorded before the type is looked at, so they stay set
        even when an invalid type raises. A blank question is judged
        against its standard answer; a review question also gives the
        judge the document's abstract. */
    method SetUserAnswer(env: Env, cache: ResponseCache, answer: string, now: int) returns (r: Outcome<()>)
      modifies this, cache
      ensures answerTime == Some(now) && userAnswer == Some(answer) && Done()
      ensures questionType == old(questionType) && standardAnswer == old(standardAnswer)
      ensures document == old(document)
      ensures r.Raise? <==> !(ChoiceType <= questionType <= ReviewType)
      ensures (questionType == ChoiceType || questionType == TrueOrFalseType) ==>
        && score == Some(ChoiceScore(answer, standardAnswer))
        && standardReview == old(standardReview)
        && cache.stores == old(cache.stores)
      ensures (questionType == BlankType || questionType == ReviewType) ==>
        var prior := if questionType == ReviewType then old(document.abstractText) else None;
        var standard := StandardText(standardAnswer);
        var j := Judged(env, old(cache.stores), answer, standard, prior);
        && score == j.score
        && standardReview == j.review
        && cache.stores == MaxTry(env, old(cache.stores), JudgePrompt(answer, standard, prior),
                                  Checker(env), MaxProblemGenTries, 0).stores
      ensures r.Raise? ==>
        score == old(score) && standardReview == old(standardReview) && cache.stores == old(cache.stores)
    {
      answerTime := Some(now);
      userAnswer := Some(answer);
      if questionType == ChoiceType || questionType == TrueOrFalseType {
        score := Some(ChoiceScore(answer, standardAnswer));
        r := Ok(());
      } else if questionType == BlankType {
        var j := JudgeAnswer(env, cache, answer, StandardText(standardAnswer), None);
        score, standardReview := j.score, j.review;
        r := Ok(());
      } else if questionType == ReviewType {
        var j := JudgeAnswer(env, cache, answer, StandardText(standardAnswer), document.abstractText);
        score, standardReview := j.score, j.review;
        r := Ok(());
      } else {
        r := Raise;
      }
    }
  }

  /** The number of answered questions in `qs`. */
  function DoneCount(qs: seq<Question>): nat
    reads qs
  {
    if qs == [] then 0
    else DoneCount(qs[..|qs| - 1]) + (if qs[|qs| - 1].Done() then 1 else 0)
  }

  /** Every question in `qs` has been answered. */
  predicate AllDone(qs: seq<Question>)
    reads qs
  {
    forall i :: 0 <= i < |qs| ==> qs[i].Done()
  }

  /** At most every question is answered, and all are exactly when none
      is left unanswered. */
  lemma {:induction false} DoneCountBound(qs: seq<Question>)
    ensures DoneCount(qs) <= |qs|
    ensures DoneCount(qs) == |qs| <==> AllDone(qs)
  {
    if qs != [] {
      var init := qs[..|qs| - 1];
      DoneCountBound(init);
      assert forall i :: 0 <= i < |init| ==> init[i] == qs[i];
      if AllDone(qs) {
        assert AllDone(init);
      }
    }
  }

  class Exam {
    var questions: seq<Question>

    /** `done`. */
    predicate Done()
      reads this, questions
    {
      AllDone(questions)
    }

    /** `question_number`. */
    function QuestionNumber(): nat
      reads this
    {
      |questions|
    }

    /** `done_number`: never more than the questions, and equal to their
        number exactly when the exam is done. */
    function DoneNumber(): (r: nat)
      reads this, questions
      ensures r <= QuestionNumber()
      ensures r == QuestionNumber() <==> Done()
    {
      DoneCountBound(questions);
      DoneCount(questions)
    }
  }

  /** The row of the 4×2 score table a question type indexes. Python
      indexing also accepts -4..-1, counted from the end; any other type
      raises. */
  function Row(t: int): (r: Option<nat>)
    ensures r.Some? <==> -4 <= t < 4
    ensures r.Some? ==> r.value < 4 && (r.value == t || r.value == t + 4)
  {
    if 0 <= t < 4 then Some(t)
    else if -4 <= t < 0 then Some(t + 4)
    else None
  }

  /** The two columns of a question the score table looks at. */
  datatype Grade = Grade(questionType: int, score: Option<int>)

  /** The grades of `qs`, in order. */
  function Grades(qs: seq<Question>): (r: seq<Grade>)
    reads qs
    ensures |r| == |qs|
    ensures forall i :: 0 <= i < |qs| ==> r[i] == Grade(qs[i].questionType, qs[i].score)
  {
    seq(|qs|, i reads qs requires 0 <= i < |qs| => Grade(qs[i].questionType, qs[i].score))
  }

  /** A grade that is added to row `row`. */
  predicate CountsIn(g: Grade, row: nat) {
    g.score.Some? && Row(g.questionType) == Some(row)
  }

  /** The sum of the scores counted in row `row`. */
  function ScoreSum(gs: seq<Grade>, row: nat): int {
    if gs == [] then 0
    else
      var g := gs[|gs| - 1];
      ScoreSum(gs[..|gs| - 1], row) + (if CountsIn(g, row) then g.score.value else 0)
  }

  /** The number of scores counted in row `row`. */
  function ScoredCount(gs: seq<Grade>, row: nat): nat {
    if gs == [] then 0
    else ScoredCount(gs[..|gs| - 1], row) + (if CountsIn(gs[|gs| - 1], row) then 1 else 0)
  }

  /** A scored grade whose type indexes outside the table. */
  predicate BadType(gs: seq<Grade>) {
    exists i :: 0 <= i < |gs| && gs[i].score.Some? && Row(gs[i].questionType).None?
  }

  /** The scored grades of `gs`, in order. */
  function Scored(gs: seq<Grade>): (r: seq<Grade>)
    ensures forall i :: 0 <= i < |r| ==> r[i].score.Some? && r[i] in gs
  {
    if gs == [] then []
    else
      var g := gs[|gs| - 1];
      Scored(gs[..|gs| - 1]) + (if g.score.Some? then [g] else [])
  }

  /** Adding one grade at the end adds its score to the row it counts in. */
  lemma TableSnoc(gs: seq<Grade>, g: Grade, row: nat)
    ensures ScoreSum(gs + [g], row) == ScoreSum(gs, row) + (if CountsIn(g, row) then g.score.value else 0)
    ensures ScoredCount(gs + [g], row) == ScoredCount(gs, row) + (if CountsIn(g, row) then 1 else 0)
  {
    assert (gs + [g])[..|gs|] == gs;
  }

  /** Unscored questions change nothing: the table over the scored
      grades alone is the same. */
  lemma {:induction false} UnscoredChangeNothing(gs: seq<Grade>, row: nat)
    ensures ScoreSum(Scored(gs), row) == ScoreSum(gs, row)
    ensures ScoredCount(Scored(gs), row) == ScoredCount(gs, row)
  {
    if gs != [] {
      var init, g := gs[..|gs| - 1], gs[|gs| - 1];
      UnscoredChangeNothing(init, row);
      assert gs == init + [g];
      TableSnoc(init, g, row);
      var kept := Scored(init);
      if g.score.Some? {
        assert Scored(gs) == kept + [g];
        TableSnoc(kept, g, row);
      } else {
        assert Scored(gs) == kept;
      }
    }
  }

  /** No row counts more grades than there are; with scores in 0..100 a
      row's sum is at most 100 per counted grade. */
  lemma {:induction false} RowBounds(gs: seq<Grade>, row: nat)
    requires forall i :: 0 <= i < |gs| && gs[i].score.Some? ==> 0 <= gs[i].score.value <= 100
    ensures ScoredCount(gs, row) <= |gs|
    ensures 0 <= ScoreSum(gs, row) <= 100 * ScoredCount(gs, row)
  {
    if gs != [] {
      var init := gs[..|gs| - 1];
      assert forall i :: 0 <= i < |init| ==> init[i] == gs[i];
      RowBounds(init, row);
    }
  }

  /** How one more grade changes the raising test. */
  lemma BadTypeStep(gs: seq<Grade>, i: int)
    requires 0 <= i < |gs|
    ensures BadType(gs[..i + 1]) <==> BadType(gs[..i]) || (gs[i].score.Some? && Row(gs[i].questionType).None?)
  {
    var next := gs[..i + 1];
    assert next[..i] == gs[..i];
    if BadType(next) {
      var j :| 0 <= j < |next| && next[j].score.Some? && Row(next[j].questionType).None?;
      if j < i {
        assert gs[..i][j] == next[j];
      }
    }
    if BadType(gs[..i]) {
      var j :| 0 <= j < i && gs[..i][j].score.Some? && Row(gs[..i][j].questionType).None?;
      assert next[j] == gs[..i][j];
    }
  }

  /** A bad grade in a prefix is a bad grade of the whole. */
  lemma BadTypeExtends(gs: seq<Grade>, i: int)
    requires 0 <= i <= |gs| && BadType(gs[..i])
    ensures BadType(gs)
  {
    var j :| 0 <= j < i && gs[..i][j].score.Some? && Row(gs[..i][j].questionType).None?;
    assert gs[j] == gs[..i][j];
  }

  class Document {
    var questions: seq<Question>
    var abstractText: Option<string>

    /** `get_question_score`: row t holds the sum and the number of the
        scores of type-t questions; a scored question of a type outside
        the table raises. */
    method GetQuestionScore() returns (r: Outcome<array2<int>>)
      ensures r.Raise? <==> BadType(Grades(questions))
      ensures r.Ok? ==>
        && fresh(r.value) && r.value.Length0 == 4 && r.value.Length1 == 2
        && forall k :: 0 <= k < 4 ==>
             && r.value[k, 0] == ScoreSum(Grades(questions), k)
             && r.value[k, 1] == ScoredCount(Grades(questions), k)
    {
      ghost var gs := Grades(questions);
      var table := new int[4, 2]((k, c) => 0);
      var i := 0;
      while i < |questions|
        invariant 0 <= i <= |questions|
        invariant !BadType(gs[..i])
        invariant forall k :: 0 <= k < 4 ==>
          table[k, 0] == ScoreSum(gs[..i], k) && table[k, 1] == ScoredCount(gs[..i], k)
      {
        var q := questions[i];
        assert gs[i] == Grade(q.questionType, q.score);
        assert gs[..i + 1] == gs[..i] + [gs[i]];
        BadTypeStep(gs, i);
        if q.score.Some? {
          match Row(q.questionType)
          case None =>
            BadTypeExtends(gs, i + 1);
            return Raise;
          case Some(row) =>
            table[row, 0] := table[row, 0] + q.score.value;
            table[row, 1] := table[row, 1] + 1;
        }
        forall k | 0 <= k < 4
          ensures table[k, 0] == ScoreSum(gs[..i + 1], k)
          ensures table[k, 1] == ScoredCount(gs[..i + 1], k)
        {
          TableSnoc(gs[..i], gs[i], k);
        }
        i := i + 1;
      }
      assert gs[..i] == gs;
      return Ok(table);
    }
  }

  /** The `labels` getter on the text column: no text reads as no labels. */
  function LabelsOf(text: Option<string>): (r: seq<string>)
    ensures text.None? ==> r == []
    ensures text.Some? ==> r != [] && Join(",", r) == text.value
  {
    match text
    case None => []
    case Some(t) => JoinSplit(t, ','); Split(t, ',')
  }

  /** The text the `labels` setter stores. */
  function LabelsText(labels: seq<string>): string {
    Join(",", labels)
  }

  /** Labels round-trip through the column when there is at least one and
      none holds a comma. */
  lemma LabelsRoundTrip(labels: seq<string>)
    requires labels != [] && forall i :: 0 <= i < |labels| ==> ',' !in labels[i]
    ensures LabelsOf(Some(LabelsText(labels))) == labels
  {
    SplitJoin(labels, ',');
  }

  /** Setting no labels reads back as one empty label. */
  lemma NoLabelsReadBack()
    ensures LabelsOf(Some(LabelsText([]))) == [""]
  {
  }

  class User {
    var labelsText: Option<string>

    /** `labels`. */
    function Labels(): seq<string>
      reads this
    {
      LabelsOf(labelsText)
    }

    /** The `labels` setter. */
    method SetLabels(labels: seq<string>)
      modifies this
      ensures labelsText == Some(LabelsText(labels))
      ensures (labels != [] && forall i :: 0 <= i < |labels| ==> ',' !in labels[i]) ==> Labels() == labels
    {
      labelsText := Some(LabelsText(labels));
      if labels != [] && forall i :: 0 <= i < |labels| ==> ',' !in labels[i] {
        LabelsRoundTrip(labels);
      }
    }
  }

  class Recommendation {
    var authorsText: string

    /** `authors`: the text column split at commas, never empty. */
    function Authors(): (r: seq<string>)
      reads this
      ensures r != [] && Join(",", r) == authorsText
    {
      JoinSplit(authorsText, ',');
      Split(authorsText, ',')
    }

    /** The `authors` setter. */
    method SetAuthors(authors: seq<string>)
      modifies this
      ensures authorsText == TransformAuthorsToText(authors)
      ensures (authors != [] && forall i :: 0 <= i < |authors| ==> ',' !in authors[i]) ==> Authors() == authors
    {
      authorsText := Join(",", authors);
      if authors != [] && forall i :: 0 <= i < |authors| ==> ',' !in authors[i] {
        AuthorsRoundTrip(authors);
      }
    }

    /** `transform_authors_to_text`: the text the setter stores. */
    static function TransformAuthorsToText(authors: seq<string>): string {
      Join(",", authors)
    }
  }

  /** The text of a non-empty list of comma-free authors splits back into
      the list. */
  lemma AuthorsRoundTrip(authors: seq<string>)
    requires authors != [] && forall i :: 0 <= i < |authors| ==> ',' !in authors[i]
    ensures Split(Recommendation.TransformAuthorsToText(authors), ',') == authors
  {
    SplitJoin(authors, ',');
  }
}
