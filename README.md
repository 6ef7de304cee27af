# SOA backend core, modelled in Dafny

This project models the core of the SOA backend. The backend is a
reading-assistant service. It cuts an uploaded paper into chunks and asks a
language model for exam questions about them: multiple choice, true/false,
fill-in-the-blank and one review question. It grades the user's answers and
recommends new arXiv papers from the user's profile.

The model covers the following, each in its source's own form:

- **Chunking** (`Chunker`). The segment loop of `save_pdf_text_chunks` stops at a
  `References` heading. It merges segments under the same heading, flushes a
  chunk before the word budget of 4000 words is exceeded, and cuts oversized
  segments into 4000-word pieces. `word_count` and `check_max_word` are over
  whitespace-split words (`PyText.Words`). The chunk file name helpers and
  `get_arxiv_id_from_link` are here too.
- **Tolerant reply decoding** (`Extract`). `jsonfy_response` keeps the span
  from the first opening bracket to the last closing one. It then writes
  `True`/`False` as JSON literals, deletes comment lines and turns single
  quotes into double quotes. `process_json` falls back to stripping the
  Markdown fences.
- **Validators** (`Validate`, `Judging`, `Arxiv`, `Profile`):
  - the per-type `check_problem_format`;
  - the judging check;
  - the recommendation reply check;
  - the profile reply check.
- **Response caches** (`Cache`). `get_response` and `update_cache` work on one
  store per problem type; `ResponseCache` is the cache files as a mutable
  object.
- **Retry engines**: `get_json_response_with_max_try` (`Cache.MaxTry`,
  `ResponseCache.JsonWithMaxTry`) and `get_problems` (`Generate`).
- **Distribution and assembly** (`Distribute`, `Assemble`). The per-type quota
  is shared among the chunks used. The four problem sets, the summary and the
  review are then put into the final question list.
- **Recommendation** (`Arxiv`):
  - the search URL builder;
  - the paging loop of `get_paper_info_list`;
  - the quota-filling rounds of `filter_the_papers`;
  - `get_recommendation_paper_info_list`.
- **User profile** (`Profile`). The two descending budget loops of
  `get_user_profile_prompt`, and the profile request.
- **ORM rules** (`Models`):
  - question scoring and passing;
  - exam progress;
  - the per-type score table of a document;
  - the comma-joined `labels` and `authors` columns.

The outside services are parameters, gathered in `Services.Env`:

- the language model is an oracle from a prompt and an attempt number to a
  reply or a failure;
- `json.loads`, `json.dumps` and the key order of dict iteration;
- `str` on non-string values;
- `int(float(s))`.

JSON numbers are integers in the model. The configuration constants are those
of `constants.py`:

- 4000 words per chunk;
- 3 tries;
- 3 problems per type;
- a passing score strictly above 85;
- 20 papers searched and 10 chosen.

Each loop of the modelled source is a `method` with its loop and invariants,
with one exception: the `for item in data` loop of `check_response_data`
(arxiv.py:114-120) is the recursive function `Arxiv.ItemsOk`, because that
check is handed to the retry helper as a function value, and a method cannot
be one. Each loop method is proved equal to a specification function, and the properties are proved
about those functions. Python exceptions are the `Raise` case of
`PyValues.Outcome`. A bare `except` or `try` becomes a test of that case.

Behaviour kept as written:

- The quota remainder goes to the *first* chunk used (utils.py:348); the
  comment at utils.py:336 says the last.
- `chunk_index_list` grows by the number of problems *asked* of a chunk, not
  the number delivered. So the `zip` in `get_problems_for_article` can pair
  a problem with the wrong chunk (`Distribute.ZipMisattributes`).
- `update_cache` stores the full accumulated list rather than the truncated
  one (`Generate.CachedUntruncated`). It raises when it pops an absent prompt.
- `get_json_response_with_max_try` always uses the judge store.
- `filter_the_papers` does not cap its result at the quota (`Arxiv.NotCapped`).
- The judging score is not clamped (`Judging.NoClamping`).

## Model

| member | source | states |
|---|---|---|
| PyText.Split | utils.py:195 | `str.split(c)` gives at least one piece and no piece contains the separator |
| PyText.JoinSplit | models.py:35 | joining the pieces of a split with the separator gives the text back |
| PyText.SplitJoin | models.py:35-39 | splitting a join of a non-empty list of separator-free pieces gives the pieces back |
| PyText.WordsJoinSpace | utils.py:176-177 | re-joining whitespace-split words with single spaces and splitting again gives the same words |
| PyText.WordCountTake | utils.py:176 | the first `n` words of a text with at least `n` words, joined, have exactly `n` words |
| PyText.WordCountDrop | utils.py:177 | re-joining the words after the first `n` leaves the word count minus `n` |
| Chunker.FirstLine | utils.py:167 | `t.split("\n", 1)[0]` is the prefix of the text before its first line break |
| Chunker.AfterFirstLine | utils.py:172 | `t.split("\n", 1)[1]` exists exactly when the text has a line break, and is the text after the first one |
| Chunker.SliceOversized | utils.py:175-177 | every piece cut by the inner loop has exactly 4000 words, the rest has at most 4000, and a text within budget is not cut |
| Chunker.SliceOnce | utils.py:175-177 | each turn of the inner loop strictly reduces the word count, so the loop ends |
| Chunker.SliceLoop | utils.py:175-177 | the inner `while` loop cuts the pieces the specification function describes |
| Chunker.StepWithin | utils.py:169-181 | one segment keeps every emitted chunk and the chunk being filled within the word budget |
| Chunker.RunWithin | utils.py:165-181 | the whole segment loop keeps every chunk within the word budget |
| Chunker.ChunksWithinBudget | utils.py:165-182 | a successful chunking emits at least one chunk and none has more than 4000 words |
| Chunker.NoSegments | utils.py:162-182 | a paper without segments gives exactly one empty chunk |
| Chunker.ReferencesCut | utils.py:167-168 | nothing at or after a segment headed exactly `References` changes the loop's result |
| Chunker.ChunkTextReferences | utils.py:165-182 | the chunks of a paper are those of its segments before the first `References` heading |
| Chunker.RunTotal | utils.py:169-172 | a loop over segments that all contain a line break never raises |
| Chunker.StepRaise | utils.py:172 | a line-break-free segment repeating the previous heading raises |
| Chunker.StepCut | utils.py:173-178 | a segment that would exceed the budget flushes the stripped chunk, appends the cut pieces and starts the rest |
| Chunker.StepAppend | utils.py:179-181 | a segment that fits is appended to the chunk being filled |
| Chunker.AdditionNew | utils.py:169-170 | a segment under a new heading is added whole, followed by a blank line |
| Chunker.AdditionSame | utils.py:171-172 | a segment under the same heading is added as the text after its first line break, followed by a line break |
| Chunker.ChunkTexts | utils.py:161-182 | the chunking loop computes the specification's chunk list or raises as it does |
| Chunker.ChunkIdOfName | utils.py:191-195 | reading the id back from a chunk file name gives the id |
| PyText.ParseIntUnderscore | utils.py:195 | `int` accepts underscores between digits: `"1_0"` reads as 10 |
| Chunker.ChunkFileNames | utils.py:184-186 | the file names loop gives `chunk{i}.txt` for every index, each reading back as its index |
| Chunker.ArxivId | utils.py:197-199 | the arXiv id is the slash-free end of the link after its last slash |
| Extract.BeginIndex | utils.py:61-67 | the slice starts at the earliest `[` or `{`, or at 0 when neither occurs |
| Extract.EndIndex | utils.py:68-74 | the slice ends just past the last `]` or `}`, or at the end when neither occurs |
| Extract.PySlice | utils.py:75 | Python slicing gives the substring, or the empty string when the bounds cross |
| Extract.BracketedInfix | utils.py:61-75 | the decoded span is a substring of the reply |
| Extract.BracketedWrapped | utils.py:61-75 | chatter before and after a bracketed body is cut away exactly |
| Extract.NoSingleQuotes | utils.py:81 | the text handed to the decoder has no single quotes |
| Extract.CommentLineNonEmpty | utils.py:79 | a line taken for a comment is never empty |
| Extract.NoComments | utils.py:77-80 | lines without `//` or `...` markers are never removed |
| Extract.JsonTextWrapped | utils.py:60-81 | a clean JSON body wrapped in chatter reaches the decoder unchanged |
| Extract.RemoveComments | utils.py:77-80 | the comment-removal loop deletes every comment line of the original split |
| Extract.JsonfyResponse | utils.py:60-81 | `jsonfy_response` decodes the text the specification describes, or raises |
| Extract.ProcessJson | utils.py:252-257 | a non-string raises; the lenient decode of the quoted text is used when it succeeds; otherwise the decode of the fence-stripped text is used, and its failure raises |
| Extract.UnfencedBlock | utils.py:256 | removing the fences of a fenced JSON block leaves its stripped body |
| Extract.ProcessFenced | utils.py:252-257 | the fallback decodes the body of a fenced reply |
| Validate.SelectSubseq | utils.py:265-270 | the kept items are an order-preserving subsequence of the items, all accepted |
| Validate.ChoiceItem | utils.py:266-270 | a choice item is kept exactly when it is a dict with the six keys and its answer is A, B, C or D; it raises exactly on a value `in` cannot search, or on a non-dict holding all the keys |
| Validate.BlankItem | utils.py:290-294 | a blank item is kept exactly when it has question and answer and the answer has length at most 20; an answer without a length raises |
| Validate.FilterSelects | utils.py:265-270 | the item loop raises exactly when some item raises, and otherwise keeps exactly the accepted items in order |
| Validate.KeepItems | utils.py:265-270 | the choice and blank loop computes the specification's kept list |
| Validate.TfAnswer | utils.py:276-286 | an answer already 正确 or 错误 is kept, any other non-string answer raises, and a normalised answer is 正确 or 错误 |
| Validate.TfAnswerNormalises | utils.py:276-286 | a string answer that is not yet 正确 or 错误 becomes 正确 when its lower-cased text holds "true", else 错误 when it holds "false", else 正确 for 对, else 错误 for 错; it is skipped exactly when none of these holds |
| Validate.TfItemsValid | utils.py:272-287 | every returned true/false item is normalised and, apart from answers, the items are a subsequence of the input |
| Validate.TfLoop | utils.py:272-287 | the index loop that overwrites answers in place computes the specification's list |
| Validate.CheckProblemFormat | utils.py:260-308 | `check_problem_format` with its loops equals the specification of every branch |
| Validate.NonEmpty | utils.py:303-304 | an empty result raises and a non-empty one is returned unchanged |
| Validate.FormatNonEmpty | utils.py:303-305 | whatever the check returns is non-empty |
| Validate.ChoiceFormat | utils.py:264-270 | the choice result is exactly the well-formed parsed items, in order, and non-empty |
| Validate.BlankFormat | utils.py:288-294 | the blank result is exactly the well-formed parsed items, in order, and non-empty |
| Validate.TfFormatValid | utils.py:271-287 | the true/false result comes from a list reply, is normalised and keeps the items' order |
| Validate.ChoiceItemRaises | utils.py:266-308 | one choice item on which `in` raises makes the whole batch raise |
| Validate.BlankItemRaises | utils.py:292-308 | one blank answer without a length makes the whole batch raise |
| Validate.ObjectFormat | utils.py:295-302 | summary and review replies are returned whole, and only when they hold their keys |
| Validate.JudgeRejected | utils.py:260-308 | a kind without a branch always raises |
| Cache.Lift | utils.py:97 | a model reply is a string value; a failed call raises |
| Cache.Respond | utils.py:95-110 | cache off: one model call, stores unchanged; hit: the stored value and no call; miss: one call, the reply stored under exactly that prompt |
| Cache.RespondFrame | utils.py:98-110 | a call touches no other kind's cache file |
| Cache.Updated | utils.py:123-139 | `update_cache` changes only that prompt's entry, sets it for lists or one-item summary and review lists and removes it otherwise, and raises on a missing file or an absent popped prompt |
| Cache.ResponseCache.GetResponse | utils.py:95-110 | the method returns the reply and leaves the stores the specification describes |
| Cache.ResponseCache.UpdateCache | utils.py:123-139 | the method leaves the stores the specification describes, and reports the exception |
| Cache.Accepted | utils.py:116-118 | an accepted reply is one the check passes |
| Cache.MaxTry | utils.py:112-121 | a returned value passes the check, at most `max_try` calls are made (all of them when nothing is found and the cache is off), and only the judge store can change |
| Cache.MaxTryFound | utils.py:112-121 | with the cache off, the helper returns the first of the attempts' accepted values, attempt by attempt from `i` up to `max_try` |
| Cache.MaxTryNone | utils.py:112-121 | with the cache off, the helper returns `None` exactly when no attempt's reply decodes to a value the check accepts |
| Cache.MaxTryFirst | utils.py:112-121 | with the cache off, a returned value is the accepted value of the first attempt whose reply passes |
| Cache.FirstReplyTaken | utils.py:113-118 | a first reply that decodes to an accepted value is returned |
| Cache.ResponseCache.TryOnce | utils.py:115-118 | one pass asks the judge store, decodes and checks |
| Cache.ResponseCache.JsonWithMaxTry | utils.py:112-121 | the retry loop returns what the specification returns and leaves its stores |
| Prompts.ProblemPrompt | utils.py:25-58 | a prompt exists for every problem kind, starts with the stripped text, and the judge kind raises |
| Prompts.PromptKeyTells | utils.py:25-43 | two prompts of one kind are equal only for equal stripped texts and, when the template counts, equal counts |
| Prompts.PromptKeySame | utils.py:25-43 | such requests do share a cache key |
| Prompts.JudgePromptMentions | utils.py:47-50 | the judging prompt quotes both answers and the abstract when one is given |
| Judging.JudgeCheck | utils.py:222-234 | the check accepts exactly a dict with a string review and a convertible score, and never raises on a dict |
| Judging.JudgedReply | utils.py:236-240 | the verdict is all or nothing, `(None, None)` exactly when the retry helper finds nothing, and otherwise the accepted reply's score and review |
| Judging.NoClamping | utils.py:240 | a reply scoring 150 is recorded as 150 |
| Judging.JudgeAnswer | utils.py:242-250 | `judge_answer` returns the verdict and leaves the judge store as the retry helper does |
| Generate.Added | utils.py:322-325 | the accumulated problems stay as a prefix and grow, unless the reply is an empty list |
| Generate.AddedSpliced | utils.py:322-325 | a list reply is spliced in item by item (`extend`), any other reply appended whole |
| Generate.FormatterNonEmpty | utils.py:303-325 | every checked reply adds at least one problem |
| Generate.Attempt | utils.py:319-329 | one attempt makes at most one model call, exactly one unless the cache serves it, and a raised attempt adds nothing |
| Generate.AttemptGrows | utils.py:321-325 | an attempt whose check passes adds at least one problem |
| Generate.Attempts | utils.py:318-329 | the loop only adds problems, makes at most three attempts, and only attempt 0 may be served from the cache |
| Generate.AttemptsFull | utils.py:326-327 | the loop stops before its last attempt only once it has `num` problems |
| Generate.AttemptsStop | utils.py:319-327 | an attempt that passes the format check and reaches `num` problems ends the loop with its problems and cache files, with no further attempt or call |
| Generate.AttemptsContributed | utils.py:319-329 | every accumulated problem was in hand already or is an item of some attempt's checked reply |
| Generate.EmptyIffAllRaised | utils.py:317-329 | asking for at least one problem, the loop comes back empty exactly when every attempt raised |
| Generate.Take | utils.py:332 | `problems[:num]` is a prefix of at most `num` problems: exactly `num` when there are that many, and all of them when there are fewer |
| Generate.Finished | utils.py:330-332 | with the cache on, the untruncated list is written back, and the truncated list is returned |
| Generate.ProblemsFor | utils.py:317-332 | at most `num` problems and at most three model calls; with the cache off nothing is written and nothing raises |
| Generate.Problems | utils.py:310-332 | the same for `get_problems`, and a kind without a template raises before asking |
| Generate.ProblemsPrefix | utils.py:317-332 | the problems returned are the first ones accumulated |
| Generate.ProblemsContributed | utils.py:317-332 | every problem returned is an item of `check_problem_format`'s output on one of the attempts' replies |
| Generate.ProblemsEmpty | utils.py:317-332 | cache off and `num` at least one: the result is empty exactly when every attempt raised |
| Generate.CachedUntruncated | utils.py:330-331 | with the cache on, `update_cache` is given every accumulated problem, not the truncated list |
| Generate.GetProblems | utils.py:310-332 | `get_problems` on the cache object returns and stores what the specification does |
| Generate.AskProblems | utils.py:317-332 | the retry loop with its invariants computes the specification's result |
| Distribute.GeneratorBounded | utils.py:310-332 | `get_problems` never delivers more than asked |
| Distribute.ChosenDistinct | utils.py:338-342 | the chunks used are distinct chunks of the article, as many as the quota when sampled |
| Distribute.DistributedIndex | utils.py:346-351 | the recorded chunk indices are each chunk's share, and no more problems are delivered than indices recorded |
| Distribute.DistributedLength | utils.py:346-351 | with at least one chunk exactly `nums` indices are recorded, and at most `nums` problems delivered |
| Distribute.DistributedCounts | utils.py:347-351 | the first chunk used is recorded `nums // M + nums % M` times, every other `nums // M` times, and no other index appears |
| Distribute.DistributedBelow | utils.py:338-351 | every recorded index is the index of a chunk of the article |
| Distribute.SpreadTotal | utils.py:347-349 | the shares add up to `nums` |
| Distribute.ZipMisattributes | utils.py:346-398 | when the first of two chunks delivers one problem of two asked, the second chunk's problem is paired with the first chunk's index |
| Distribute.DistLoop | utils.py:346-351 | the distribution loop computes the specification's problems, indices and stores |
| Distribute.DistributeProblems | utils.py:334-352 | `get_problem_for_each_article_per_type` on the cache object matches the specification |
| Assemble.SummaryRaised | utils.py:381-382 | a summary item that is not a string ends the loop with an exception |
| Assemble.ReviewText | utils.py:381-384 | the review text is non-empty or the first chunk, and needs a chunk or a summary item |
| Assemble.ReviewTextOf | utils.py:381-384 | the review is asked of the joined summaries when they are not empty, of the first chunk when they are (an `IndexError` without chunks), and a bad summary item raises |
| Assemble.SummaryConcat | utils.py:381-382 | when every item holds a string 总结, the summary is their concatenation in order |
| Assemble.Zipped | utils.py:392-398 | the first `n` pairs give `n` records of the block's type, with the first `n` recorded indices |
| Assemble.Strings | utils.py:403 | `join` succeeds exactly on lists of strings |
| Assemble.Reviews | utils.py:400-406 | each review item becomes a type-3 record with index -1 |
| Assemble.QuestionsShape | utils.py:387-407 | the records come in four type blocks in order |
| Assemble.QuestionsCounts | utils.py:391-406 | each type's count is the size of its block |
| Assemble.AssembledOrder | utils.py:354-407 | records and indices have equal length, types are non-decreasing, and a review comes last with index -1 |
| Assemble.AssembledCounts | utils.py:354-407 | at most three records of each problem type and one review, ten in all |
| Assemble.AssembledIndices | utils.py:338-398 | every problem record points at a chunk of the article |
| Assemble.EmptyArticleRaises | utils.py:383-384 | an article without chunks raises at `chunks[0]` |
| Assemble.SummaryLoop | utils.py:381-382 | the summary loop computes the specification's text |
| Assemble.ZipLoop | utils.py:392-398 | the zip loop for one problem type computes the specification's records |
| Assemble.ReviewLoop | utils.py:400-406 | the review loop computes the specification's records |
| Assemble.SummarizeOrFirst | utils.py:381-384 | the review text is as the specification gives it |
| Assemble.QuestionList | utils.py:387-407 | the list building computes the specification's records and indices |
| Assemble.DistributeAll | utils.py:363-371 | the three problem distributions and the summary distribution run in submission order on the cache object, as the specification chains them |
| Assemble.ProblemsForArticle | utils.py:354-407 | `get_problems_for_article` on the cache object matches the specification |
| Arxiv.KeywordQueries | arxiv.py:60-61 | each keyword becomes `(all:k+OR+all:K)` with `K` capitalized (ASCII letters only) |
| Arxiv.UrlHasKeyword | arxiv.py:55-64 | every keyword of every label appears in the URL, as typed and capitalized |
| Arxiv.KeywordLoop | arxiv.py:59-61 | the inner loop builds the keyword clauses |
| Arxiv.LabelLoop | arxiv.py:57-62 | the outer loop builds each label's clause |
| Arxiv.SearchUrlOf | arxiv.py:55-64 | the URL is the base, the clauses joined by `+OR+`, then `start` and `max_results` as given |
| Arxiv.SortIdsSorted | arxiv.py:131 | `sorted` on the ids gives them in code-point order |
| Arxiv.SortIds | arxiv.py:131 | the sorted ids are a permutation of the ids |
| Arxiv.SortedUnique | arxiv.py:131 | a sorted arrangement of the ids is unique |
| Arxiv.PromptShowsPapers | arxiv.py:93-107 | the prompt shows every paper offered |
| Arxiv.ItemsOk | arxiv.py:114-121 | the item loop passes exactly when every item is acceptable |
| Arxiv.ResponseDataOk | arxiv.py:111-121 | the check accepts exactly a list of dicts with string `paper_id` and `reason` |
| Arxiv.InfoMap | arxiv.py:126 | the map's keys are the papers' ids and each maps to a paper with that id |
| Arxiv.Unselected | arxiv.py:131 | a round offers exactly the ids not yet selected |
| Arxiv.UnselectedSorted | arxiv.py:131 | the ids offered stay in sorted order |
| Arxiv.OfferedPapers | arxiv.py:130-131 | each round offers exactly the papers not yet selected, once each, in sorted-id order |
| Arxiv.Select | arxiv.py:129-140 | the selection only grows, stays within the papers, and the rounds are at most the unselected ids plus one |
| Arxiv.LastRound | arxiv.py:133-140 | a reply naming enough new ids ends the rounds with exactly those ids added |
| Arxiv.FilterPapers | arxiv.py:110-141 | fewer papers than the quota: returned as given with no call; otherwise the selected ids are ids of the input |
| Arxiv.FilterSelects | arxiv.py:123-141 | past the length check, the result is the rounds' selection from nothing |
| Arxiv.FilterOneRound | arxiv.py:129-141 | a first reply already naming enough papers gives exactly those |
| Arxiv.NotCapped | arxiv.py:136-141 | a quota of one may return two papers |
| Arxiv.SelectRounds | arxiv.py:128-140 | the `while` loop computes the specification's selection and stores |
| Arxiv.SelectedPapers | arxiv.py:141 | the returned papers are the selected ones, once each |
| Arxiv.FilterThePapers | arxiv.py:110-141 | `filter_the_papers` returns the input or the selected papers, all taken from the input |
| Arxiv.Fresh | arxiv.py:78-80 | the papers kept from a page are at most the page |
| Arxiv.FreshMember | arxiv.py:78-80 | a paper is kept exactly when it is on the page and its id is not known |
| Arxiv.Fetched | arxiv.py:70-80 | the paging loop only adds papers |
| Arxiv.FetchedFresh | arxiv.py:70-80 | every paper collected is from a page of the feed and not already known |
| Arxiv.FetchedRequests | arxiv.py:70-77 | requests continue while papers are missing and stop at the first empty page |
| Arxiv.FetchedStarts | arxiv.py:69-77 | the `start` of each request grows by the length of the pages before it |
| Arxiv.Capped | arxiv.py:81 | `papers[:n]` is the first `n` papers |
| Arxiv.PaperList | arxiv.py:67-81 | at most `n` papers, none with a known id, all from the feed |
| Arxiv.AppendFresh | arxiv.py:78-80 | the page loop appends the page's fresh papers in order |
| Arxiv.GetPaperInfoList | arxiv.py:67-81 | the paging loop computes the specification's list |
| Arxiv.RecommendationPaperInfoList | arxiv.py:144-152 | too few papers are returned as found; otherwise the filtered papers, all from the feed |
| Profile.Largest | user_profile.py:23-28 | a descending loop's pick fits the test and is at most the start |
| Profile.LargestSpec | user_profile.py:23-28 | nothing above the pick fits, and the loop finds nothing exactly when nothing fits |
| Profile.Descend | user_profile.py:23-28 | the `for`/`break` loop finds the specification's pick |
| Profile.DescendTo | user_profile.py:30-35 | when the empty choice fits, the loop always picks, and picks the largest that fits |
| Profile.NoTitlesFit | user_profile.py:30-35 | the empty title list has no words, so it fits |
| Profile.ChosenSummaryFits | user_profile.py:23-37 | the `ValueError` branch is never taken and the embedded summary has at most 4000 words |
| Profile.ChosenSummaryLargest | user_profile.py:23-35 | the summary is the largest mix that fits, else the largest title prefix that fits |
| Profile.MixedPrompt | user_profile.py:23-38 | when the first loop picks `i`, the prompt embeds the mix at `i` |
| Profile.FallbackPrompt | user_profile.py:29-38 | when only the fallback picks `k`, the prompt embeds the first `k` titles |
| Profile.GetUserProfilePrompt | user_profile.py:17-38 | the two loops compute the specification's prompt |
| Profile.AllStrings | user_profile.py:48 | `all(isinstance(item, str))` holds exactly when every item is a string |
| Profile.ProfileCheck | user_profile.py:41-48 | the check holds exactly for a dict with a list of strings under 领域 and a string under 描述, and never raises |
| Profile.ProfileReplyFound | user_profile.py:50-53 | `(None, None)` exactly when the retry helper finds nothing; otherwise the two validated fields |
| Profile.ProfileResponseOk | user_profile.py:49-53 | the response never raises |
| Profile.GetUserProfileResponse | user_profile.py:40-53 | the method returns the specification's reply and leaves the judge store as the retry helper does |
| Models.IsPassed | models.py:131-136 | an unscored question does not pass; a scored one passes exactly above 85 |
| Models.ChoiceScore | models.py:141-142 | a choice or true/false answer scores 100 exactly when it equals the standard answer, else 0 |
| Models.ChoicePassed | models.py:131-142 | such a question passes exactly when answered correctly |
| Models.Question.constructor | models.py:112-126 | a new question is unanswered and unscored |
| Models.Question.SetUserAnswer | models.py:138-151 | records the answer and time; choice and true/false are scored against the standard answer; blank and review are judged, review with the abstract; another type raises after the answer is recorded |
| Models.DoneCountBound | models.py:161-171 | the done count is at most the number of questions, and equal exactly when all are done |
| Models.Exam.DoneNumber | models.py:161-171 | `done_number` is at most `question_number`, with equality exactly when `done` |
| Models.Row | models.py:98-99 | numpy row indexing accepts -4 to 3 and wraps negatives |
| Models.Grades | models.py:95-97 | the snapshot has one grade per question, with its type and score |
| Models.TableSnoc | models.py:95-99 | one more question adds its score and one to its row when scored, nothing otherwise |
| Models.UnscoredChangeNothing | models.py:97 | unscored questions change neither sums nor counts |
| Models.RowBounds | models.py:93-100 | a row counts at most all questions, and for scores in 0 to 100 its sum is between 0 and 100 times its count |
| Models.Document.GetQuestionScore | models.py:93-100 | raises exactly on a scored question of a type outside the table; otherwise row `t` holds the score sum and count of scored type-`t` questions |
| Models.LabelsOf | models.py:33-35 | no text reads as no labels; a text reads as a non-empty list that joins back to it |
| Models.LabelsRoundTrip | models.py:33-39 | a non-empty list of comma-free labels reads back unchanged |
| Models.NoLabelsReadBack | models.py:35-39 | setting no labels reads back as one empty label |
| Models.User.SetLabels | models.py:37-39 | the setter stores the comma join, and comma-free non-empty labels read back |
| Models.Recommendation.Authors | models.py:195-197 | the authors are a non-empty list that joins back to the text |
| Models.Recommendation.SetAuthors | models.py:199-201 | the setter stores the same text `transform_authors_to_text` gives, which reads back as the authors when they are non-empty and comma-free |
| Models.AuthorsRoundTrip | models.py:203-205 | the text `transform_authors_to_text` gives for a non-empty comma-free author list splits back into it |

## Left out

- The language model transport, the ZhipuAI client and its semaphore are not modelled. The model is the oracle `Env.llm`, indexed by prompt and attempt.
- The thread pool in `get_problems_for_article` runs sequentially in the model. Results are read back in submission order, and each task touches only its own cache file.
- `json.loads`, `json.dumps`, `str` and dict key order are abstract functions of `Env`. JSON numbers are integers.
- `int(float(s))` is the abstract `Env.toScore`. Floats are not modelled, so a float score is an integer here.
- `get_average_score` divides floats and replaces NaN. It is not modelled.
- File reads and writes are not modelled: the cache files are the `Stores` map, and chunk files are only named (`Chunker.ChunkFileNames`). `clear_cache.py` is not modelled.
- `decode_pdf`, `parse_entry`, `parse_entries`, `get_arxiv_response`, `get_base_info_with_paper_id` and `Document_Reader` are not modelled. They are PDF, feed and network libraries.
- The arXiv feed is a finite list of pages: request `k` gets page `k`. The request URL is not an input of the feed model.
- `Arxiv.GetPaperInfoList` terminates because the feed is finite, and a request past the last page returns nothing. The source has no such bound: against a feed that keeps returning only papers already known, its `while len(papers) < search_paper_num` loop (arxiv.py:70) never ends. The model does not capture that non-termination.
- `random.sample` is a parameter: any `nums` distinct chunk indices.
- `datetime.now` is the parameter `now` of `SetUserAnswer`. `time.time` and `print` are not modelled.
- The SQLAlchemy sessions, relationships and the Flask routes in `app.py` are not modelled. `clip_model.py` is not modelled either.
- `get_summary_of_documents` and `ReadingPlan` are not modelled.
- `Arxiv.RecommendationPaperInfoList`: nothing raises inside `filter_the_papers` in the model, so the `except` fallback at arxiv.py:150-152 is not reachable.
- `PyText.Lower`, `PyText.Capitalize`, `Arxiv.KeywordQueries`, `Validate.TfAnswer`: case mapping covers the ASCII letters only. Python's `str.lower()` and `str.capitalize()` also map other letters, so `équation` capitalizes to `Équation` in the source and stays as it is in the model. The "true"/"false" tests are not affected: only ASCII letters lower-case into them.
- `PyText.ParseInt`: only ASCII digits are read. Python's `int` also accepts other Unicode decimal digits, which raise here.
- `Arxiv.SelectedPapers`: set iteration order is not modelled. The result is stated as once each of the selected papers, in some order.
- `Models.Document.GetQuestionScore`: the table is integer sums and counts, not numpy floats.
- `Models.Question.SetUserAnswer`: the stored time is an integer parameter, not a datetime.
