/**
 * The user profile: `get_user_profile_prompt`, which fits the documents a
 * user has read into the word budget, `check_profile_data` and
 * `get_user_profile_response`.
 */
module Profile {
  import opened PyValues
  import opened PyText
  import opened Services
  import opened Cache
  import opened Chunker

  /** A document the user read: `(title, content)`. */
  datatype Doc = Doc(title: string, content: string)

  const FieldsKey: string := "领域"
  const DescriptionKey: string := "描述"

  function Titles(docs: seq<Doc>): (r: seq<string>)
    ensures |r| == |docs|
  {
    if docs == [] then [] else [docs[0].title] + Titles(docs[1..])
  }

  function Contents(docs: seq<Doc>): (r: seq<string>)
    ensures |r| == |docs|
  {
    if docs == [] then [] else [docs[0].content] + Contents(docs[1..])
  }

  /** The summary of the first loop at `i`: the contents of the first `i`
      documents, then the titles of the rest, one per line. */
  function Mixed(docs: seq<Doc>, i: nat): string
    requires i <= |docs|
  {
    Join("\n", Contents(docs[..i]) + Titles(docs[i..]))
  }

  /** The summary of the fallback loop at `i`: the first `i` titles. */
  function TitlesOnly(docs: seq<Doc>, i: nat): string
    requires i <= |docs|
  {
    Join("\n", Titles(docs[..i]))
  }

  /** A descending `for i in range(i, -1, -1)` loop that breaks at the
      first `i` with `fits(i)`: the largest such index, if any. */
  function Largest(fits: nat -> bool, i: nat): (r: Option<nat>)
    ensures r.Some? ==> r.value <= i && fits(r.value)
    decreases i
  {
    if fits(i) then Some(i)
    else if i == 0 then None
    else Largest(fits, i - 1)
  }

  /** What `Largest` picks: none fits above it, and it picks nothing
      exactly when no index up to `i` fits. */
  lemma {:induction false} LargestSpec(fits: nat -> bool, i: nat)
    ensures var r := Largest(fits, i);
      && (r.Some? ==> forall j :: r.value < j <= i ==> !fits(j))
      && (r.None? <==> forall j :: 0 <= j <= i ==> !fits(j))
    decreases i
  {
    if !fits(i) && i > 0 {
      LargestSpec(fits, i - 1);
    }
  }

  /** The test of the first loop: the mixed summary at `j` fits. */
  function MixedFits(docs: seq<Doc>): nat -> bool {
    (j: nat) => j <= |docs| && !CheckMaxWord(Mixed(docs, j))
  }

  /** The test of the fallback loop: the first `j` titles fit. */
  function TitleFits(docs: seq<Doc>): nat -> bool {
    (j: nat) => j <= |docs| && !CheckMaxWord(TitlesOnly(docs, j))
  }

  /** The summary the prompt embeds: from the first loop, else from the
      fallback; `ValueError` when neither fits. */
  function ChosenSummary(docs: seq<Doc>): Outcome<string> {
    match Largest(MixedFits(docs), |docs|)
    case Some(i) => Ok(Mixed(docs, i))
    case None =>
      match Largest(TitleFits(docs), |docs|)
      case Some(i) => Ok(TitlesOnly(docs, i))
      case None => Raise
  }

  function ProfileHead(): string {
    "\n你是一个用户画" + "像系统, 你需要" + "根据我提供的用户" + "信息, 生成一个" + "用户画像.\n已知" + "这个用户读过的书" + "籍信息如下:\n"
  }

  function ProfileTail(): string {
    "\n请你按照以下格" + "式为我生成用户画" + "像. 你需要返回" + "一个字典, 其中" + "包含以下字段:\n" + "{\n    \"领"
    + "域\": [\"领域" + " 1\", \"领域" + " 2\", \"领域" + " 3\", ..." + "], # 从文章" + "中总结出用户的研"
    + "究领域\n    " + "\"描述\": \"用" + "户的描述信息\"," + " # 从用户读过" + "的文章中总结出用" + "户的描述信息, " + "可以包括研究方向"
    + ", 感兴趣的内容" + "以及阅读深度等等" + "\n}\n注意你必须" + "输出【英文】, " + "且你应当只返回这" + "个字典不应该有其" + "他输出\nYou "
    + "must out" + "put in E" + "nglish, " + "and you " + "should o" + "nly retu" + "rn this "
    + "dictiona" + "ry witho" + "ut any o" + "ther out" + "put.\n"
  }

  /** `profile_prompt.format(documents=summary)`. */
  function Fill(summary: string): string {
    ProfileHead() + summary + ProfileTail()
  }

  /** `get_user_profile_prompt(docs)`. */
  function ProfilePrompt(docs: seq<Doc>): Outcome<string> {
    match ChosenSummary(docs)
    case Ok(summary) => Ok(Fill(summary))
    case Raise => Raise
  }

  /** No title at all is the empty text, which has no words. */
  lemma NoTitlesFit(docs: seq<Doc>)
    ensures TitleFits(docs)(0)
  {
    assert Titles(docs[..0]) == [];
    assert Join("\n", []) == "";
    assert Words("") == [];
  }

  /** The `ValueError` branch is never taken, and the embedded summary
      is within the word budget. */
  lemma ChosenSummaryFits(docs: seq<Doc>)
    ensures ChosenSummary(docs).Ok?
    ensures WordCount(ChosenSummary(docs).value) <= MaxArticleWords
  {
    var i := Largest(MixedFits(docs), |docs|);
    if i.Some? {
      MixedSummary(docs, i.value);
      assert MixedFits(docs)(i.value);
    } else {
      NoTitlesFit(docs);
      LargestSpec(TitleFits(docs), |docs|);
      var t := Largest(TitleFits(docs), |docs|);
      FallbackSummary(docs, t.value);
      assert TitleFits(docs)(t.value);
    }
  }

  /** Which summary is chosen: the largest `i` whose mixed summary fits;
      only when none fits (not even all titles, at `i` = 0), the largest
      `i` whose first `i` titles fit. */
  lemma ChosenSummaryLargest(docs: seq<Doc>)
    ensures var i := Largest(MixedFits(docs), |docs|);
      && (i.Some? ==>
            && ChosenSummary(docs) == Ok(Mixed(docs, i.value))
            && forall j :: i.value < j <= |docs| ==> CheckMaxWord(Mixed(docs, j)))
      && (i.None? ==>
            && CheckMaxWord(Mixed(docs, 0))
            && Largest(TitleFits(docs), |docs|).Some?
            && ChosenSummary(docs) == Ok(TitlesOnly(docs, Largest(TitleFits(docs), |docs|).value))
            && forall j :: Largest(TitleFits(docs), |docs|).value < j <= |docs| ==> CheckMaxWord(TitlesOnly(docs, j)))
  {
    var i := Largest(MixedFits(docs), |docs|);
    LargestSpec(MixedFits(docs), |docs|);
    if i.Some? {
      MixedSummary(docs, i.value);
      forall j | i.value < j <= |docs| ensures CheckMaxWord(Mixed(docs, j)) {
        assert !MixedFits(docs)(j);
      }
    } else {
      assert !MixedFits(docs)(0);
      NoTitlesFit(docs);
      LargestSpec(TitleFits(docs), |docs|);
      var t := Largest(TitleFits(docs), |docs|);
      FallbackSummary(docs, t.value);
      forall j | t.value < j <= |docs| ensures CheckMaxWord(TitlesOnly(docs, j)) {
        assert !TitleFits(docs)(j);
      }
    }
  }

  /** A `for i in range(n, -1, -1)` loop that breaks at the first `i`
      passing `fits`, and ends with `None` when it runs out (its `else`). */
  method Descend(fits: nat -> bool, n: nat) returns (found: Option<nat>)
    ensures found == Largest(fits, n)
  {
    var i: nat := n;
    while true
      invariant i <= n
      invariant Largest(fits, n) == Largest(fits, i)
      decreases i
    {
      if fits(i) {
        return Some(i);
      }
      if i == 0 {
        return None;
      }
      i := i - 1;
    }
  }

  /** The same loop when `fits(0)` holds: the `else` is never reached,
      and the loop runs down while the test fails. */
  method DescendTo(fits: nat -> bool, n: nat) returns (k: nat)
    requires fits(0)
    ensures Largest(fits, n) == Some(k)
  {
    k := n;
    while !fits(k)
      invariant k <= n
      invariant Largest(fits, n) == Largest(fits, k)
      decreases k
    {
      k := k - 1;
    }
  }

  /** `get_user_profile_prompt`: the two descending loops, the fallback
      only when the first finds nothing. */
  method GetUserProfilePrompt(docs: seq<Doc>) returns (r: Outcome<string>)
    ensures r == ProfilePrompt(docs)
  {
    var found := Descend(MixedFits(docs), |docs|);
    if found.Some? {
      MixedPrompt(docs, found.value);
      return Ok(Fill(Mixed(docs, found.value)));
    }
    NoTitlesFit(docs);
    var k := DescendTo(TitleFits(docs), |docs|);
    FallbackPrompt(docs, k);
    return Ok(Fill(TitlesOnly(docs, k)));
  }

  /** The prompt when the first loop picks `i`. */
  lemma MixedPrompt(docs: seq<Doc>, i: nat)
    requires Largest(MixedFits(docs), |docs|) == Some(i)
    ensures ProfilePrompt(docs) == Ok(Fill(Mixed(docs, i)))
  {
    MixedSummary(docs, i);
  }

  lemma FallbackSummary(docs: seq<Doc>, k: nat)
    requires Largest(MixedFits(docs), |docs|).None?
    requires Largest(TitleFits(docs), |docs|) == Some(k)
    ensures ChosenSummary(docs) == Ok(TitlesOnly(docs, k))
  {
  }

  lemma MixedSummary(docs: seq<Doc>, i: nat)
    requires Largest(MixedFits(docs), |docs|) == Some(i)
    ensures ChosenSummary(docs) == Ok(Mixed(docs, i))
  {
  }

  /** The prompt when only the fallback loop picks `k`. */
  lemma FallbackPrompt(docs: seq<Doc>, k: nat)
    requires Largest(MixedFits(docs), |docs|).None?
    requires Largest(TitleFits(docs), |docs|) == Some(k)
    ensures ProfilePrompt(docs) == Ok(Fill(TitlesOnly(docs, k)))
  {
  }

  // ---------------------------------------------------------------------
  // the reply

  /** `all(isinstance(item, str) for item in items)`. */
  function AllStrings(items: seq<Json>): (r: bool)
    ensures r <==> forall k :: 0 <= k < |items| ==> items[k].JStr?
  {
    if items == [] then true else items[0].JStr? && AllStrings(items[1..])
  }

  /** A profile reply: a dict whose fields entry is a list of strings and
      whose description is a string. */
  predicate ProfileOk(data: Json) {
    && data.JObject?
    && FieldsKey in data.fields && DescriptionKey in data.fields
    && data.fields[FieldsKey].JList? && data.fields[DescriptionKey].JStr?
    && forall k :: 0 <= k < |data.fields[FieldsKey].items| ==> data.fields[FieldsKey].items[k].JStr?
  }

  /** `check_profile_data(data)`: it never raises. */
  function ProfileCheck(data: Json): (r: Outcome<bool>)
    ensures r == Ok(true) <==> ProfileOk(data)
    ensures r.Ok?
  {
    if !data.JObject? then Ok(false)
    else if FieldsKey !in data.fields || DescriptionKey !in data.fields then Ok(false)
    else if !data.fields[FieldsKey].JList? || !data.fields[DescriptionKey].JStr? then Ok(false)
    else Ok(AllStrings(data.fields[FieldsKey].items))
  }

  function ProfileChecker(): Json -> Outcome<bool> {
    d => ProfileCheck(d)
  }

  /** What `get_user_profile_response` returns: the fields and the
      description, or `(None, None)`. */
  datatype ProfileReply = ProfileReply(fields: Option<seq<Json>>, description: Option<string>)

  /** The reply part of `get_user_profile_response`, for the prompt. */
  function ProfileReplyFor(env: Env, st: Stores, prompt: string): ProfileReply {
    match MaxTry(env, st, prompt, ProfileChecker(), MaxProblemGenTries, 0).result
    case None => ProfileReply(None, None)
    case Some(d) =>
      if ProfileOk(d) then ProfileReply(Some(d.fields[FieldsKey].items), Some(d.fields[DescriptionKey].s))
      else ProfileReply(None, None)
  }

  /** `get_user_profile_response(docs)` on the given cache files. */
  function ProfileResponse(env: Env, st: Stores, docs: seq<Doc>): Outcome<ProfileReply> {
    var prompt :- ProfilePrompt(docs);
    Ok(ProfileReplyFor(env, st, prompt))
  }

  /** `(None, None)` exactly when the retry helper finds nothing; otherwise
      the validated fields of the reply it accepted. */
  lemma ProfileReplyFound(env: Env, st: Stores, prompt: string)
    ensures var r := ProfileReplyFor(env, st, prompt);
      var found := MaxTry(env, st, prompt, ProfileChecker(), MaxProblemGenTries, 0).result;
      && (r.fields.None? <==> found.None?)
      && (r.fields.Some? <==> r.description.Some?)
      && (found.Some? ==>
            && ProfileOk(found.value)
            && r.fields == Some(found.value.fields[FieldsKey].items)
            && r.description == Some(found.value.fields[DescriptionKey].s)
            && forall k :: 0 <= k < |r.fields.value| ==> r.fields.value[k].JStr?)
  {
    var found := MaxTry(env, st, prompt, ProfileChecker(), MaxProblemGenTries, 0).result;
    if found.Some? {
      assert ProfileCheck(found.value) == Ok(true);
    }
  }

  /** The response never raises: the prompt always exists. */
  lemma ProfileResponseOk(env: Env, st: Stores, docs: seq<Doc>)
    ensures ProfilePrompt(docs).Ok?
    ensures ProfileResponse(env, st, docs) == Ok(ProfileReplyFor(env, st, ProfilePrompt(docs).value))
  {
    ChosenSummaryFits(docs);
  }

  /** `get_user_profile_response`, with the retry loop run on the cache
      object. */
  method GetUserProfileResponse(env: Env, cache: ResponseCache, docs: seq<Doc>) returns (r: Outcome<ProfileReply>)
    modifies cache
    ensures r == ProfileResponse(env, old(cache.stores), docs)
    ensures ProfilePrompt(docs).Ok? ==>
      cache.stores == MaxTry(env, old(cache.stores), ProfilePrompt(docs).value, ProfileChecker(), MaxProblemGenTries, 0).stores
  {
    var prompt := GetUserProfilePrompt(docs);
    if prompt.Raise? {
      return Raise;
    }
    var found := cache.JsonWithMaxTry(env, prompt.value, ProfileChecker(), MaxProblemGenTries);
    match found {
      case None => r := Ok(ProfileReply(None, None));
      case Some(d) =>
        if ProfileOk(d) {
          r := Ok(ProfileReply(Some(d.fields[FieldsKey].items), Some(d.fields[DescriptionKey].s)));
        } else {
          r := Ok(ProfileReply(None, None));
        }
    }
  }
}
