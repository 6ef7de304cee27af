/**
 * Grading a free-text answer by the language model: `check_response_judge`,
 * `_judge_answer` and its wrapper `judge_answer`.
 */
module Judging {
  import opened PyValues
  import opened Services
  import opened Cache
  import opened Prompts

  const ScoreKey: string := "评分"
  const ReviewKey: string := "评价"

  /** `int(float(score))` for a score the check accepts: numbers are
      integers here, `True`/`False` are 1/0, strings go through the
      converter; anything else has no score. */
  function ScoreValue(env: Env, score: Json): Option<int> {
    match score
    case JNum(n) => Some(n)
    case JBool(b) => Some(if b then 1 else 0)
    case JStr(s) => env.toScore(s)
    case _ => None
  }

  /** A judging reply the check accepts: a dict with a string review and a
      score that converts. */
  predicate Acceptable(env: Env, data: Json) {
    && data.JObject?
    && ScoreKey in data.fields && ReviewKey in data.fields
    && data.fields[ReviewKey].JStr?
    && ScoreValue(env, data.fields[ScoreKey]).Some?
  }

  /** `check_response_judge(data)`: `None` counts as false; `in` on a
      number raises, and so does indexing anything but a dict. */
  function JudgeCheck(env: Env, data: Json): (r: Outcome<bool>)
    ensures r == Ok(true) <==> Acceptable(env, data)
    ensures data.JObject? ==> r.Ok?
  {
    match Contains(ScoreKey, data)
    case Raise => Raise
    case Ok(false) => Ok(false)
    case Ok(true) =>
      match Contains(ReviewKey, data)
      case Raise => Raise
      case Ok(false) => Ok(false)
      case Ok(true) =>
        if !data.JObject? then Raise
        else
          var score, review := data.fields[ScoreKey], data.fields[ReviewKey];
          if !review.JStr? then Ok(false)
          else if score.JNum? || score.JBool? then Ok(true)
          else if score.JStr? then Ok(env.toScore(score.s).Some?)
          else Ok(false)
  }

  /** The check as the retry helper receives it. */
  function Checker(env: Env): Json -> Outcome<bool> {
    d => JudgeCheck(env, d)
  }

  /** What `_judge_answer` returns: both parts, or `(None, None)`. */
  datatype Judgement = Judgement(score: Option<int>, review: Option<string>)

  /** `_judge_answer(user_answer, standard_answer, prior_knowledge)` on the
      given cache files. */
  function Judged(env: Env, st: Stores, user: string, standard: string, prior: Option<string>): Judgement {
    var found := MaxTry(env, st, JudgePrompt(user, standard, prior),
                        Checker(env), MaxProblemGenTries, 0).result;
    match found
    case None => Judgement(None, None)
    case Some(d) =>
      if Acceptable(env, d) then
        Judgement(ScoreValue(env, d.fields[ScoreKey]), Some(d.fields[ReviewKey].s))
      else Judgement(None, None)
  }

  /** The verdict is all or nothing, and a verdict is exactly the accepted
      reply's score and review. */
  lemma JudgedReply(env: Env, st: Stores, user: string, standard: string, prior: Option<string>)
    ensures var j := Judged(env, st, user, standard, prior);
      var found := MaxTry(env, st, JudgePrompt(user, standard, prior),
                          Checker(env), MaxProblemGenTries, 0).result;
      && (j.score.Some? <==> j.review.Some?)
      && (j.score.None? <==> found.None?)
      && (found.Some? ==>
            && Acceptable(env, found.value)
            && j.score == ScoreValue(env, found.value.fields[ScoreKey])
            && j.review == Some(found.value.fields[ReviewKey].s))
  {
    var found := MaxTry(env, st, JudgePrompt(user, standard, prior), Checker(env), MaxProblemGenTries, 0).result;
    if found.Some? {
      assert JudgeCheck(env, found.value) == Ok(true);
    }
  }

  lemma CheckerAccepts(env: Env, d: Json)
    requires Acceptable(env, d)
    ensures Checker(env)(d) == Ok(true)
  {
    assert JudgeCheck(env, d) == Ok(true);
  }

  /** A reply scoring 150 with an empty review is acceptable. */
  lemma HighScoreAcceptable(env: Env)
    ensures var d := JObject(map[ScoreKey := JNum(150), ReviewKey := JStr("")]);
      Acceptable(env, d) && ScoreValue(env, d.fields[ScoreKey]) == Some(150)
  {
    assert ScoreKey != ReviewKey by { assert ScoreKey[1] != ReviewKey[1]; }
  }

  /** The score is not clamped: a reply scoring 150 is recorded as 150. */
  lemma NoClamping(env: Env, st: Stores, user: string, standard: string, prior: Option<string>)
    requires !env.useCache
    requires forall p, i :: env.llm(p, i) == Some("{}")
    requires forall t :: env.loads(t) == Some(JObject(map[ScoreKey := JNum(150), ReviewKey := JStr("")]))
    ensures Judged(env, st, user, standard, prior).score == Some(150)
  {
    var d := JObject(map[ScoreKey := JNum(150), ReviewKey := JStr("")]);
    HighScoreAcceptable(env);
    CheckerAccepts(env, d);
    FirstReplyTaken(env, st, JudgePrompt(user, standard, prior), Checker(env), "{}", d);
    JudgedReply(env, st, user, standard, prior);
  }

  /** `judge_answer`, with the retry loop run on the cache object. */
  method JudgeAnswer(env: Env, cache: ResponseCache, user: string, standard: string, prior: Option<string>)
    returns (j: Judgement)
    modifies cache
    ensures j == Judged(env, old(cache.stores), user, standard, prior)
    ensures cache.stores == MaxTry(env, old(cache.stores), JudgePrompt(user, standard, prior),
                                   Checker(env), MaxProblemGenTries, 0).stores
  {
    var prompt := JudgePrompt(user, standard, prior);
    var found := cache.JsonWithMaxTry(env, prompt, Checker(env), MaxProblemGenTries);
    match found {
      case None => j := Judgement(None, None);
      case Some(d) =>
        if Acceptable(env, d) {
          j := Judgement(ScoreValue(env, d.fields[ScoreKey]), Some(d.fields[ReviewKey].s));
        } else {
          j := Judgement(None, None);
        }
    }
  }
}
