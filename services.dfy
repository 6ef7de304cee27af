/**
 * The configuration constants of the backend and the outside services the
 * core calls: the language model, the JSON codec and a few Python
 * conversions whose internals are not part of this model.
 */
module Services {
  import opened PyValues

  /** `MAX_ARTICLE_WORDS = int(6000 * 0.75 - 500)`. */
  const MaxArticleWords: nat := 4000
  /** `MAX_PROBLEM_GEN_TRIES`. */
  const MaxProblemGenTries: nat := 3
  /** `PROBLEM_NUM_PER_TYPE`. */
  const ProblemNumPerType: nat := 3
  /** `PASSED_SCORE`: a score strictly above it passes. */
  const PassedScore: int := 85
  /** `SEARCH_PAPER_NUM`. */
  const SearchPaperNum: nat := 20
  /** `CHOSE_PAPER_NUM`. */
  const ChosePaperNum: nat := 10

  /** The keys of `CACHE_FILE_DICT`, one response cache per problem type,
      plus the one the judging and filtering calls share. */
  datatype Kind = Choice | Tf | Blank | Sum | Review | Judge

  /**
   * The services as the core sees them.
   * - `llm(prompt, i)`: the model's reply to `prompt` on the `i`-th attempt
   *   of a retry loop, `None` when the call raises;
   * - `loads` / `loadsLenient`: `json.loads(s)` and
   *   `json.loads(s, strict=False)`, `None` for a decoding error;
   * - `dumps`: `json.dumps`;
   * - `keyOrder`: the order in which iterating a dict yields its keys;
   * - `show`: `str(v)`, as an f-string renders a value that is not a string;
   * - `toScore`: `int(float(s))` for a string, `None` when it raises;
   * - `useCache`: the `USE_CACHE` switch (False as shipped).
   */
  datatype Env = Env(
    llm: (string, nat) -> Option<string>,
    loads: string -> Option<Json>,
    loadsLenient: string -> Option<Json>,
    dumps: Json -> string,
    keyOrder: map<string, Json> -> seq<string>,
    show: Json -> string,
    toScore: string -> Option<int>,
    useCache: bool)

  /** How an f-string renders a value: strings as they are, anything else
      through `str`. */
  function Render(env: Env, v: Json): (r: string)
    ensures v.JStr? ==> r == v.s
  {
    if v.JStr? then v.s else env.show(v)
  }
}
