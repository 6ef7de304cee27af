/**
 * Paper recommendation: the arXiv search URL, the paging loop over the
 * search feed, and `filter_the_papers`, which asks the language model, in
 * rounds, to pick the papers closest to a user's research until enough
 * are picked or the model stops naming new ones.
 */
module Arxiv {
  import opened PyValues
  import opened PyText
  import opened Services
  import opened Cache
  import opened Chunker

  /** The dict `parse_entry` builds for one feed entry. */
  datatype Paper = Paper(id: string, title: string, link: string, date: string,
                         authors: seq<string>, abstractText: string)

  // ---------------------------------------------------------------------
  // the search URL

  /** One keyword, as typed or capitalized. */
  function KeywordQuery(k: string): string {
    "(all:" + k + "+OR+all:" + Capitalize(k) + ")"
  }

  function KeywordQueries(ws: seq<string>): (r: seq<string>)
    ensures |r| == |ws| && forall i :: 0 <= i < |ws| ==> r[i] == KeywordQuery(ws[i])
  {
    if ws == [] then [] else KeywordQueries(ws[..|ws| - 1]) + [KeywordQuery(ws[|ws| - 1])]
  }

  /** All the space-separated keywords of a label. */
  function LabelQuery(topic: string): string {
    Parens(Join("+AND+", KeywordQueries(Split(topic, ' '))))
  }

  function LabelQueries(labels: seq<string>): (r: seq<string>)
    ensures |r| == |labels| && forall i :: 0 <= i < |labels| ==> r[i] == LabelQuery(labels[i])
  {
    if labels == [] then [] else LabelQueries(labels[..|labels| - 1]) + [LabelQuery(labels[|labels| - 1])]
  }

  function Parens(s: string): string {
    "(" + s + ")"
  }

  /** Any one of the labels. */
  function SearchQuery(labels: seq<string>): string {
    Parens(Join("+OR+", LabelQueries(labels)))
  }

  /** `get_arxiv_search_url(labels, start, max_results)`. */
  function SearchUrl(labels: seq<string>, start: int, maxResults: int): string {
    ApiBase() + SearchQuery(labels) + Paging(start, maxResults)
  }

  function ApiBase(): string {
    "http://export.arxiv.org/api/query?search_query="
  }

  /** The window and the order requested, newest first. */
  function Paging(start: int, maxResults: int): string {
    "&start=" + IntToString(start) + "&max_results=" + IntToString(maxResults)
    + "&sortBy=submittedDate&sortOrder=descending"
  }

  /** An item of a join occurs in it. */
  lemma {:induction false} JoinHas(sep: string, xs: seq<string>, i: nat)
    requires i < |xs|
    ensures Infix(xs[i], Join(sep, xs))
    decreases |xs|
  {
    if |xs| == 1 {
      InfixAt(xs[0], Join(sep, xs), 0);
    } else if i == 0 {
      assert Join(sep, xs) == xs[0] + (sep + Join(sep, xs[1..]));
      InfixAt(xs[0], Join(sep, xs), 0);
    } else {
      JoinHas(sep, xs[1..], i - 1);
      assert xs[1..][i - 1] == xs[i];
      InfixWithin(xs[i], Join(sep, xs[1..]), xs[0] + sep, "");
      assert xs[0] + sep + Join(sep, xs[1..]) + "" == Join(sep, xs);
    }
  }

  /** An item of a comma-joined list occurs in any text around it. */
  lemma JoinWithin(a: string, xs: seq<string>, i: nat, b: string)
    requires i < |xs|
    ensures Infix(xs[i], a + Join(", ", xs) + b)
  {
    JoinHas(", ", xs, i);
    InfixWithin(xs[i], Join(", ", xs), a, b);
  }

  /** An infix of the middle part is an infix of the whole. */
  lemma InfixWithin(x: string, mid: string, a: string, b: string)
    requires Infix(x, mid)
    ensures Infix(x, a + mid + b)
  {
    var k := InfixIndex(x, mid);
    assert (a + mid + b)[|a| + k..|a| + k + |x|] == mid[k..k + |x|];
    InfixAt(x, a + mid + b, |a| + k);
  }

  /** Where an infix occurs. */
  lemma {:induction false} InfixIndex(x: string, hay: string) returns (k: nat)
    requires Infix(x, hay)
    ensures k + |x| <= |hay| && hay[k..k + |x|] == x
    decreases |hay|
  {
    if |x| <= |hay| && hay[..|x|] == x {
      k := 0;
    } else {
      var j := InfixIndex(x, hay[1..]);
      k := j + 1;
      assert hay[k..k + |x|] == hay[1..][j..j + |x|];
    }
  }

  /** Every keyword of every label is searched for, as typed and
      capitalized. */
  lemma UrlHasKeyword(labels: seq<string>, start: int, maxResults: int, i: nat, j: nat)
    requires i < |labels| && j < |Split(labels[i], ' ')|
    ensures Infix(KeywordQuery(Split(labels[i], ' ')[j]), SearchUrl(labels, start, maxResults))
  {
    var ws := KeywordQueries(Split(labels[i], ' '));
    JoinHas("+AND+", ws, j);
    InfixWithin(ws[j], Join("+AND+", ws), "(", ")");
    assert Parens(Join("+AND+", ws)) == "(" + Join("+AND+", ws) + ")";
    var ls := LabelQueries(labels);
    JoinHas("+OR+", ls, i);
    InfixWithin(ls[i], Join("+OR+", ls), "(", ")");
    assert SearchQuery(labels) == "(" + Join("+OR+", ls) + ")";
    assert Infix(ws[j], ls[i]);
    InfixTrans(ws[j], ls[i], SearchQuery(labels));
    InfixWithin(ws[j], SearchQuery(labels), ApiBase(), Paging(start, maxResults));
  }

  lemma InfixTrans(x: string, y: string, z: string)
    requires Infix(x, y) && Infix(y, z)
    ensures Infix(x, z)
  {
    var k := InfixIndex(y, z);
    InfixWithin(x, y, z[..k], z[k + |y|..]);
    assert z[..k] + y + z[k + |y|..] == z;
  }

  /** The inner loop of `get_arxiv_search_url`: the keyword clauses of
      one label. */
  method KeywordLoop(words: seq<string>) returns (labelSearch: seq<string>)
    ensures labelSearch == KeywordQueries(words)
  {
    labelSearch := [];
    for j := 0 to |words|
      invariant labelSearch == KeywordQueries(words[..j])
    {
      assert words[..j + 1] == words[..j] + [words[j]];
      labelSearch := labelSearch + [KeywordQuery(words[j])];
    }
    assert words[..|words|] == words;
  }

  /** The outer loop: the clause of each label. */
  method LabelLoop(labels: seq<string>) returns (searchQueryList: seq<string>)
    ensures searchQueryList == LabelQueries(labels)
  {
    searchQueryList := [];
    for i := 0 to |labels|
      invariant |searchQueryList| == i && forall k :: 0 <= k < i ==> searchQueryList[k] == LabelQuery(labels[k])
    {
      var labelSearch := KeywordLoop(Split(labels[i], ' '));
      searchQueryList := searchQueryList + [Parens(Join("+AND+", labelSearch))];
    }
  }

  /** `get_arxiv_search_url`. */
  method SearchUrlOf(labels: seq<string>, start: int, maxResults: int) returns (url: string)
    ensures url == SearchUrl(labels, start, maxResults)
  {
    var searchQueryList := LabelLoop(labels);
    var searchQuery := Parens(Join("+OR+", searchQueryList));
    url := ApiBase() + searchQuery + Paging(start, maxResults);
  }

  // ---------------------------------------------------------------------
  // ordering paper ids

  /** Python's `a <= b` on strings: code point by code point, a proper
      prefix first. */
  predicate StrLe(a: string, b: string)
    decreases |a|
  {
    a == [] || (b != [] && (a[0] < b[0] || (a[0] == b[0] && StrLe(a[1..], b[1..]))))
  }

  lemma {:induction false} StrLeTotal(a: string, b: string)
    ensures StrLe(a, b) || StrLe(b, a)
    decreases |a|
  {
    if a != [] && b != [] && a[0] == b[0] {
      StrLeTotal(a[1..], b[1..]);
    }
  }

  lemma {:induction false} StrLeTrans(a: string, b: string, c: string)
    requires StrLe(a, b) && StrLe(b, c)
    ensures StrLe(a, c)
    decreases |a|
  {
    if a != [] && b[0] == a[0] && c[0] == b[0] {
      StrLeTrans(a[1..], b[1..], c[1..]);
    }
  }

  lemma {:induction false} StrLeAntisymmetric(a: string, b: string)
    requires StrLe(a, b) && StrLe(b, a)
    ensures a == b
    decreases |a|
  {
    if a != [] {
      StrLeAntisymmetric(a[1..], b[1..]);
      assert a == [a[0]] + a[1..] && b == [b[0]] + b[1..];
    }
  }

  predicate Sorted(xs: seq<string>) {
    forall i, j :: 0 <= i < j < |xs| ==> StrLe(xs[i], xs[j])
  }

  /** `x` placed before the first item it does not exceed. */
  function Insert(x: string, xs: seq<string>): (r: seq<string>)
    ensures multiset(r) == multiset(xs) + multiset{x}
    ensures |r| == |xs| + 1
    ensures forall y :: y in r ==> y == x || y in xs
  {
    if xs == [] then [x]
    else if StrLe(x, xs[0]) then [x] + xs
    else
      assert xs == [xs[0]] + xs[1..];
      [xs[0]] + Insert(x, xs[1..])
  }

  lemma {:induction false} InsertSorted(x: string, xs: seq<string>)
    requires Sorted(xs)
    ensures Sorted(Insert(x, xs))
    decreases |xs|
  {
    if xs != [] {
      if StrLe(x, xs[0]) {
        forall j | 0 <= j < |xs| ensures StrLe(x, xs[j]) {
          if j > 0 {
            StrLeTrans(x, xs[0], xs[j]);
          }
        }
      } else {
        StrLeTotal(x, xs[0]);
        InsertSorted(x, xs[1..]);
        HeadLe(xs);
      }
    }
  }

  /** The head of a sorted list does not exceed the items after it. */
  lemma HeadLe(xs: seq<string>)
    requires Sorted(xs) && xs != []
    ensures forall y :: y in xs[1..] ==> StrLe(xs[0], y)
  {
    forall y | y in xs[1..] ensures StrLe(xs[0], y) {
      var k :| 0 <= k < |xs[1..]| && xs[1..][k] == y;
      assert xs[k + 1] == y;
    }
  }

  /** `sorted(ids)`, as an insertion sort. */
  function SortIds(xs: seq<string>): (r: seq<string>)
    ensures multiset(r) == multiset(xs) && |r| == |xs|
  {
    if xs == [] then []
    else
      assert xs == [xs[0]] + xs[1..];
      Insert(xs[0], SortIds(xs[1..]))
  }

  /** The ids come out sorted. */
  lemma {:induction false} SortIdsSorted(xs: seq<string>)
    ensures Sorted(SortIds(xs))
  {
    if xs != [] {
      SortIdsSorted(xs[1..]);
      InsertSorted(xs[0], SortIds(xs[1..]));
    }
  }

  /** A sorted arrangement is unique: `sorted` gives the only one. */
  lemma {:induction false} SortedUnique(xs: seq<string>, ys: seq<string>)
    requires Sorted(xs) && Sorted(ys) && multiset(xs) == multiset(ys)
    ensures xs == ys
    decreases |xs|
  {
    assert |ys| == |xs| by {
      assert |multiset(xs)| == |xs| && |multiset(ys)| == |ys|;
    }
    if xs != [] {
      SortedHeads(xs, ys);
      MultisetTail(xs, ys);
      SortedTail(xs);
      SortedTail(ys);
      SortedUnique(xs[1..], ys[1..]);
      assert xs == [xs[0]] + xs[1..] && ys == [ys[0]] + ys[1..];
    }
  }

  lemma SortedHeads(xs: seq<string>, ys: seq<string>)
    requires Sorted(xs) && Sorted(ys) && multiset(xs) == multiset(ys) && xs != [] && ys != []
    ensures xs[0] == ys[0]
  {
    assert ys[0] in multiset(ys) && xs[0] in multiset(xs);
    MinFirst(xs, ys[0]);
    MinFirst(ys, xs[0]);
    StrLeAntisymmetric(xs[0], ys[0]);
  }

  lemma MultisetTail<T>(xs: seq<T>, ys: seq<T>)
    requires xs != [] && ys != [] && xs[0] == ys[0] && multiset(xs) == multiset(ys)
    ensures multiset(xs[1..]) == multiset(ys[1..])
  {
    assert xs == [xs[0]] + xs[1..] && ys == [ys[0]] + ys[1..];
    assert multiset(xs) == multiset{xs[0]} + multiset(xs[1..]);
    assert multiset(ys) == multiset{ys[0]} + multiset(ys[1..]);
    assert multiset(xs[1..]) == multiset(xs) - multiset{xs[0]};
    assert multiset(ys[1..]) == multiset(ys) - multiset{ys[0]};
  }

  lemma SortedTail(xs: seq<string>)
    requires Sorted(xs) && xs != []
    ensures Sorted(xs[1..])
  {
    forall i, j | 0 <= i < j < |xs[1..]| ensures StrLe(xs[1..][i], xs[1..][j]) {
      assert xs[1..][i] == xs[i + 1] && xs[1..][j] == xs[j + 1];
    }
  }

  /** The head of a sorted list does not exceed any of its items. */
  lemma MinFirst(xs: seq<string>, y: string)
    requires Sorted(xs) && y in multiset(xs)
    ensures StrLe(xs[0], y)
  {
    var k :| 0 <= k < |xs| && xs[k] == y;
    if k == 0 {
      StrLeRefl(y);
    }
  }

  lemma {:induction false} StrLeRefl(a: string)
    ensures StrLe(a, a)
    decreases |a|
  {
    if a != [] {
      StrLeRefl(a[1..]);
    }
  }

  // ---------------------------------------------------------------------
  // the recommendation prompt and the reply check

  /** `paper_info_to_str`. */
  function PaperText(p: Paper): string {
    "\n{\n    " + "\"paper_id\": \"" + p.id + "\",\n    "
    + "\"paper_title\": \"" + p.title + "\",\n    "
    + "\"paper_date\": \"" + p.date + "\",\n    "
    + "\"paper_abstract\": \"" + p.abstractText + "\",\n}"
  }

  function PaperTexts(ps: seq<Paper>): (r: seq<string>)
    ensures |r| == |ps| && forall i :: 0 <= i < |ps| ==> r[i] == PaperText(ps[i])
  {
    if ps == [] then [] else PaperTexts(ps[..|ps| - 1]) + [PaperText(ps[|ps| - 1])]
  }

  /** The text before the list of papers (the fixed text is written in
      short pieces throughout). */
  function PromptHead(labels: seq<string>, description: string, n: int): string {
    "我是一名学生, " + "我最近在研究" + Join(", ", labels) + "方面的内容, "
    + "我对这个领域的" + "研究很感兴趣, " + "以下是我的" + "一些描述信息\n"
    + description
    + "\n我最近看到了" + "下面这一些论文, " + "但是论文数目太多, " + "我没有时间" + "阅读这么多, "
    + "请你根据" + "这些论文的摘要, " + "帮我筛选出" + "和我研究的内容" + "最相关的"
    + IntToString(n)
    + "篇论文. " + "注意你需要考虑到" + "论文的时效性.\n["
  }

  /** The text after the list of papers. */
  function PromptTail(): string {
    "]\n注意, " + "你应该以一个" + "python 列表的" + "格式输出你的答案, " + "列表中的每一项" + "都是一个如下的字典\n"
    + "{\n    " + "\"paper_id\": " + "\"论文的id\",\n    " + "\"reason\": " + "\"筛选这篇" + "论文的原因\"\n}\n"
    + "你输出的内容" + "需要能够被 " + "json.loads " + "函数解析, " + "注意不要输出" + "列表之外的" + "其他内容.\n"
  }

  /** `get_recommendation_prompt(papers, labels, description, n)`. */
  function RecommendationPrompt(ps: seq<Paper>, labels: seq<string>, description: string, n: int): string {
    PromptHead(labels, description, n) + Join(", ", PaperTexts(ps)) + PromptTail()
  }

  /** The prompt shows every paper offered. */
  lemma PromptShowsPapers(ps: seq<Paper>, labels: seq<string>, description: string, n: int, i: nat)
    requires i < |ps|
    ensures Infix(PaperText(ps[i]), RecommendationPrompt(ps, labels, description, n))
  {
    JoinWithin(PromptHead(labels, description, n), PaperTexts(ps), i, PromptTail());
  }

  /** One item of an acceptable reply: a dict with a string `paper_id`
      and a string `reason`. */
  predicate ItemOk(item: Json) {
    && item.JObject?
    && "paper_id" in item.fields && "reason" in item.fields
    && item.fields["paper_id"].JStr? && item.fields["reason"].JStr?
  }

  /** The loop of `check_response_data` over the items: it returns `False`
      at the first bad item. */
  function ItemsOk(items: seq<Json>): (r: bool)
    ensures r <==> forall j :: j in items ==> ItemOk(j)
  {
    if items == [] then true
    else if !ItemOk(items[0]) then false
    else ItemsOk(items[1..])
  }

  /** `check_response_data(data)`: a list of acceptable items. */
  function ResponseDataOk(data: Json): (r: bool)
    ensures r <==> data.JList? && forall i :: 0 <= i < |data.items| ==> ItemOk(data.items[i])
  {
    data.JList? && ItemsOk(data.items)
  }

  /** The check as the retry helper receives it; it never raises. */
  function ResponseCheck(): Json -> Outcome<bool> {
    d => Ok(ResponseDataOk(d))
  }

  /** `set([item['paper_id'] for item in data])` for an accepted reply. */
  function ResponseIds(data: Json): set<string> {
    if data.JList? then set j | j in data.items && ItemOk(j) :: j.fields["paper_id"].s else {}
  }

  // ---------------------------------------------------------------------
  // the selection rounds

  /** `{p['id']: p for p in papers}`: a later paper with the same id
      replaces an earlier one. */
  function InfoMap(ps: seq<Paper>): (r: map<string, Paper>)
    ensures r.Keys == set i | 0 <= i < |ps| :: ps[i].id
    ensures forall k :: k in r ==> r[k].id == k && r[k] in ps
  {
    if ps == [] then map[] else InfoMap(ps[..|ps| - 1])[ps[|ps| - 1].id := ps[|ps| - 1]]
  }

  /** `[p['id'] for p in papers]`. */
  function Ids(ps: seq<Paper>): (r: seq<string>)
    ensures |r| == |ps| && forall i :: 0 <= i < |ps| ==> r[i] == ps[i].id
  {
    if ps == [] then [] else Ids(ps[..|ps| - 1]) + [ps[|ps| - 1].id]
  }

  /** The ids of `sorted` that are not yet selected, in order. */
  function Unselected(sorted: seq<string>, selected: set<string>): (r: seq<string>)
    ensures forall x :: x in r <==> x in sorted && x !in selected
    ensures |r| <= |sorted|
  {
    if sorted == [] then []
    else if sorted[0] in selected then Unselected(sorted[1..], selected)
    else [sorted[0]] + Unselected(sorted[1..], selected)
  }

  /** A sorted list stays sorted when some ids are dropped. */
  lemma {:induction false} UnselectedSorted(sorted: seq<string>, selected: set<string>)
    requires Sorted(sorted)
    ensures Sorted(Unselected(sorted, selected))
  {
    if sorted != [] {
      SortedTail(sorted);
      UnselectedSorted(sorted[1..], selected);
      HeadLe(sorted);
    }
  }

  /** `[paper_id_to_info[i] for i in ids]`. */
  function Infos(ids: seq<string>, info: map<string, Paper>): (r: seq<Paper>)
    requires forall x :: x in ids ==> x in info
    ensures |r| == |ids| && forall i :: 0 <= i < |ids| ==> r[i] == info[ids[i]]
  {
    if ids == [] then [] else Infos(ids[..|ids| - 1], info) + [info[ids[|ids| - 1]]]
  }

  /** The outcome of the rounds from some selection on: the selection at
      the end, the cache files, and the number of rounds and model calls. */
  datatype Rounds = Rounds(selected: set<string>, stores: Stores, rounds: nat, calls: nat)

  /** The `while` loop of `filter_the_papers` from the selection
      `selected` on; `all` is the set of ids and `sorted` the sorted id
      list. */
  function Select(env: Env, st: Stores, info: map<string, Paper>, sorted: seq<string>, all: set<string>,
                  labels: seq<string>, description: string, chose: nat, selected: set<string>): (r: Rounds)
    requires all == info.Keys && (forall x :: x in sorted <==> x in all) && selected <= all
    ensures selected <= r.selected <= all
    ensures r.rounds <= |all - selected| + 1
    ensures r.calls <= MaxProblemGenTries * r.rounds
    ensures |selected| >= chose ==> r == Rounds(selected, st, 0, 0)
    decreases |all - selected|
  {
    if |selected| >= chose then Rounds(selected, st, 0, 0)
    else
      var offered := all - selected;
      var prompt := RecommendationPrompt(Infos(Unselected(sorted, selected), info), labels, description, chose - |selected|);
      var t := MaxTry(env, st, prompt, ResponseCheck(), MaxProblemGenTries, 0);
      if t.result.None? then Rounds(selected, t.stores, 1, t.calls)
      else
        var got := ResponseIds(t.result.value) * offered;
        if got == {} then Rounds(selected, t.stores, 1, t.calls)
        else
          Shrinks(all, selected, got);
          var rest := Select(env, t.stores, info, sorted, all, labels, description, chose, selected + got);
          Rounds(rest.selected, rest.stores, rest.rounds + 1, rest.calls + t.calls)
  }

  /** Selecting new ids leaves fewer unselected. */
  lemma Shrinks<T>(all: set<T>, selected: set<T>, got: set<T>)
    requires got != {} && got <= all - selected
    ensures |all - (selected + got)| < |all - selected|
  {
    var rest := all - (selected + got);
    assert all - selected == rest + got;
    assert rest * got == {};
  }

  /** The ids of the papers, as a set. */
  function IdSet(ps: seq<Paper>): set<string> {
    set i | 0 <= i < |ps| :: ps[i].id
  }

  lemma SortedIdsCover(ps: seq<Paper>)
    ensures forall x :: x in SortIds(Ids(ps)) <==> x in IdSet(ps)
  {
    var ids := Ids(ps);
    forall x ensures x in SortIds(ids) <==> x in IdSet(ps) {
      assert x in SortIds(ids) <==> x in multiset(ids);
      if x in ids {
        var i :| 0 <= i < |ids| && ids[i] == x;
        assert ps[i].id == x;
      }
    }
  }

  /** What `filter_the_papers` decides: the list as given (when it is too
      short to filter), or the selected ids; with the cache files and the
      number of model calls. */
  datatype Filtered = Filtered(asGiven: bool, ids: set<string>, stores: Stores, rounds: nat, calls: nat)

  /** `filter_the_papers(papers, labels, description, chose)`. */
  function FilterPapers(env: Env, st: Stores, ps: seq<Paper>, labels: seq<string>, description: string,
                        chose: nat): (r: Filtered)
    ensures |ps| < chose ==> r == Filtered(true, {}, st, 0, 0)
    ensures !r.asGiven ==> r.ids <= IdSet(ps)
    ensures r.rounds <= |IdSet(ps)| + 1 && r.calls <= MaxProblemGenTries * r.rounds
  {
    if |ps| < chose then Filtered(true, {}, st, 0, 0)
    else
      SortedIdsCover(ps);
      var info := InfoMap(ps);
      var r := Select(env, st, info, SortIds(Ids(ps)), info.Keys, labels, description, chose, {});
      assert info.Keys - {} == info.Keys;
      Filtered(false, r.selected, r.stores, r.rounds, r.calls)
  }

  /** Each round offers exactly the papers not yet selected, in the order
      of their sorted ids, each once per occurrence of its id. */
  lemma OfferedPapers(ps: seq<Paper>, selected: set<string>)
    ensures var offered := Unselected(SortIds(Ids(ps)), selected);
      && Sorted(offered)
      && (forall x :: x in offered <==> x in IdSet(ps) - selected)
      && (forall x :: x !in selected ==> multiset(offered)[x] == multiset(Ids(ps))[x])
  {
    SortedIdsCover(ps);
    SortIdsSorted(Ids(ps));
    UnselectedSorted(SortIds(Ids(ps)), selected);
    UnselectedCount(SortIds(Ids(ps)), selected);
  }

  lemma {:induction false} UnselectedCount(sorted: seq<string>, selected: set<string>)
    ensures forall x :: x !in selected ==> multiset(Unselected(sorted, selected))[x] == multiset(sorted)[x]
  {
    if sorted != [] {
      UnselectedCount(sorted[1..], selected);
      assert sorted == [sorted[0]] + sorted[1..];
    }
  }

  /** A reply item naming paper `id`. */
  function Pick(id: string): Json {
    JObject(map["paper_id" := JStr(id), "reason" := JStr("")])
  }

  /** One round whose reply `d` names new ids `got` that reach `chose`
      ends the selection, and every one of them is kept. */
  lemma LastRound(env: Env, st: Stores, info: map<string, Paper>, sorted: seq<string>,
                  labels: seq<string>, description: string, chose: nat, selected: set<string>, d: Json, got: set<string>)
    requires (forall x :: x in sorted <==> x in info.Keys) && selected <= info.Keys
    requires forall p :: MaxTry(env, st, p, ResponseCheck(), MaxProblemGenTries, 0).result == Some(d)
    requires got == ResponseIds(d) * (info.Keys - selected)
    requires |selected| < chose <= |selected + got|
    ensures Select(env, st, info, sorted, info.Keys, labels, description, chose, selected).selected == selected + got
  {
  }

  /** The reply naming papers "a" and "b" passes the check and names both. */
  lemma TwoPicks()
    ensures var d := JList([Pick("a"), Pick("b")]);
      ResponseCheck()(d) == Ok(true) && ResponseIds(d) == {"a", "b"}
  {
    var d := JList([Pick("a"), Pick("b")]);
    assert "paper_id" != "reason";
    assert ItemOk(Pick("a")) && ItemOk(Pick("b"));
    assert Pick("a") in d.items && Pick("b") in d.items;
    assert Pick("a").fields["paper_id"].s == "a";
    assert Pick("b").fields["paper_id"].s == "b";
  }

  lemma TwoIds(pa: Paper, pb: Paper)
    ensures IdSet([pa, pb]) == {pa.id, pb.id}
  {
    var ps := [pa, pb];
    assert ps[0].id == pa.id && ps[1].id == pb.id;
  }

  /** Past the length check, the result is the selection from no ids. */
  lemma FilterSelects(env: Env, st: Stores, ps: seq<Paper>, labels: seq<string>, description: string, chose: nat)
    requires |ps| >= chose
    ensures forall x :: x in SortIds(Ids(ps)) <==> x in InfoMap(ps).Keys
    ensures var f := FilterPapers(env, st, ps, labels, description, chose);
      var g := Select(env, st, InfoMap(ps), SortIds(Ids(ps)), InfoMap(ps).Keys, labels, description, chose, {});
      !f.asGiven && f.ids == g.selected && f.stores == g.stores
  {
    SortedIdsCover(ps);
  }

  /** A model that always answers `[]`, parsed as `d`, makes every retry
      loop return `d` at once. */
  lemma AlwaysReplies(env: Env, st: Stores, d: Json)
    requires !env.useCache && ResponseCheck()(d) == Ok(true)
    requires forall p, i :: env.llm(p, i) == Some("[]")
    requires forall t :: env.loads(t) == Some(d)
    ensures forall p :: MaxTry(env, st, p, ResponseCheck(), MaxProblemGenTries, 0).result == Some(d)
  {
    forall p ensures MaxTry(env, st, p, ResponseCheck(), MaxProblemGenTries, 0).result == Some(d) {
      FirstReplyTaken(env, st, p, ResponseCheck(), "[]", d);
    }
  }

  lemma NoneSelected(ps: seq<Paper>, got: set<string>)
    ensures var none: set<string> := {}; InfoMap(ps).Keys - none == IdSet(ps) && none + got == got
  {
  }

  /** When the first round's reply already names `chose` of the papers,
      the selection is exactly the papers it names. */
  lemma FilterOneRound(env: Env, st: Stores, ps: seq<Paper>, labels: seq<string>, description: string,
                       chose: nat, d: Json, got: set<string>)
    requires 0 < chose <= |ps|
    requires forall p :: MaxTry(env, st, p, ResponseCheck(), MaxProblemGenTries, 0).result == Some(d)
    requires got == ResponseIds(d) * IdSet(ps) && |got| >= chose
    ensures var f := FilterPapers(env, st, ps, labels, description, chose);
      !f.asGiven && f.ids == got
  {
    FilterSelects(env, st, ps, labels, description, chose);
    var none: set<string> := {};
    NoneSelected(ps, got);
    LastRound(env, st, InfoMap(ps), SortIds(Ids(ps)), labels, description, chose, none, d, got);
  }

  /** Nothing caps the selection at `chose`: one round may return more
      ids than asked for, and all of them are kept. */
  lemma NotCapped(env: Env, st: Stores, labels: seq<string>, description: string, pa: Paper, pb: Paper)
    requires !env.useCache
    requires pa.id == "a" && pb.id == "b"
    requires forall p, i :: env.llm(p, i) == Some("[]")
    requires forall t :: env.loads(t) == Some(JList([Pick("a"), Pick("b")]))
    ensures var f := FilterPapers(env, st, [pa, pb], labels, description, 1);
      !f.asGiven && f.ids == {"a", "b"}
  {
    var d := JList([Pick("a"), Pick("b")]);
    TwoPicks();
    TwoIds(pa, pb);
    AlwaysReplies(env, st, d);
    assert |{"a", "b"}| == 2;
    FilterOneRound(env, st, [pa, pb], labels, description, 1, d, {"a", "b"});
  }

  // ---------------------------------------------------------------------
  // the loops of `filter_the_papers`

  /** The `while` loop of `filter_the_papers`, on the cache object. */
  method SelectRounds(env: Env, cache: ResponseCache, info: map<string, Paper>, sorted: seq<string>,
                      labels: seq<string>, description: string, chose: nat) returns (selected: set<string>)
    requires forall x :: x in sorted <==> x in info.Keys
    modifies cache
    ensures var g := Select(env, old(cache.stores), info, sorted, info.Keys, labels, description, chose, {});
      selected == g.selected && cache.stores == g.stores
  {
    ghost var goal := Select(env, cache.stores, info, sorted, info.Keys, labels, description, chose, {});
    selected := {};
    while |selected| < chose
      invariant selected <= info.Keys
      invariant var g := Select(env, cache.stores, info, sorted, info.Keys, labels, description, chose, selected);
        g.selected == goal.selected && g.stores == goal.stores
      decreases |info.Keys - selected|
    {
      var offered := info.Keys - selected;
      var prompt := RecommendationPrompt(Infos(Unselected(sorted, selected), info), labels, description,
                                         chose - |selected|);
      var data := cache.JsonWithMaxTry(env, prompt, ResponseCheck(), MaxProblemGenTries);
      if data.None? {
        return;
      }
      var got := ResponseIds(data.value) * offered;
      if got == {} {
        return;
      }
      Shrinks(info.Keys, selected, got);
      selected := selected + got;
    }
  }

  /** `[paper_id_to_info[paper_id] for paper_id in selected_paper_ids]`:
      the set is visited in an order the model leaves open. */
  method SelectedPapers(info: map<string, Paper>, ids: set<string>) returns (r: seq<Paper>)
    requires ids <= info.Keys && forall k :: k in info ==> info[k].id == k
    ensures |r| == |ids|
    ensures forall i :: 0 <= i < |r| ==> r[i].id in ids && r[i] == info[r[i].id]
    ensures forall x :: x in ids ==> exists i :: 0 <= i < |r| && r[i].id == x
  {
    r := [];
    var rest := ids;
    while rest != {}
      invariant rest <= ids && |r| + |rest| == |ids|
      invariant forall i :: 0 <= i < |r| ==> r[i].id in ids - rest && r[i] == info[r[i].id]
      invariant forall x :: x in ids - rest ==> exists i :: 0 <= i < |r| && r[i].id == x
      decreases |rest|
    {
      var id :| id in rest;
      ghost var before, restBefore := r, rest;
      r := r + [info[id]];
      rest := rest - {id};
      forall x | x in ids - rest
        ensures exists i :: 0 <= i < |r| && r[i].id == x
      {
        if x == id {
          assert r[|r| - 1].id == x;
        } else {
          assert x in ids - restBefore;
          var i :| 0 <= i < |before| && before[i].id == x;
          assert r[i] == before[i];
        }
      }
    }
    assert ids - rest == ids;
  }

  /** `filter_the_papers(papers, labels, description, chose)`. */
  method FilterThePapers(env: Env, cache: ResponseCache, ps: seq<Paper>, labels: seq<string>, description: string,
                         chose: nat) returns (r: seq<Paper>)
    modifies cache
    ensures var f := FilterPapers(env, old(cache.stores), ps, labels, description, chose);
      && cache.stores == f.stores
      && (f.asGiven ==> r == ps)
      && (!f.asGiven ==>
            && |r| == |f.ids|
            && (forall i :: 0 <= i < |r| ==> r[i].id in f.ids && r[i] == InfoMap(ps)[r[i].id] && r[i] in ps)
            && (forall x :: x in f.ids ==> exists i :: 0 <= i < |r| && r[i].id == x))
  {
    if |ps| < chose {
      return ps;
    }
    FilterSelects(env, cache.stores, ps, labels, description, chose);
    var info := InfoMap(ps);
    var sorted := SortIds(Ids(ps));
    var selected := SelectRounds(env, cache, info, sorted, labels, description, chose);
    r := SelectedPapers(info, selected);
    forall i | 0 <= i < |r| ensures r[i] in ps {
      assert r[i] == info[r[i].id];
    }
  }

  // ---------------------------------------------------------------------
  // the paging loop of `get_paper_info_list`

  /** The feed: the k-th request gets `pages[k]`; every request past the
      end gets an empty page. */
  function PageAt(pages: seq<seq<Paper>>, k: nat): seq<Paper> {
    if k < |pages| then pages[k] else []
  }

  /** The papers of a page whose link's id is not already known, in order. */
  function Fresh(page: seq<Paper>, known: seq<string>): (r: seq<Paper>)
    ensures |r| <= |page|
  {
    if page == [] then []
    else
      var last := page[|page| - 1];
      Fresh(page[..|page| - 1], known) + (if ArxivId(last.link) in known then [] else [last])
  }

  /** A paper is kept exactly when it is on the page and its id is not known. */
  lemma {:induction false} FreshMember(page: seq<Paper>, known: seq<string>, p: Paper)
    ensures p in Fresh(page, known) <==> p in page && ArxivId(p.link) !in known
    decreases |page|
  {
    if page != [] {
      FreshMember(page[..|page| - 1], known, p);
      assert page == page[..|page| - 1] + [page[|page| - 1]];
    }
  }

  /** What the paging loop collects, and the `start` sent with each request. */
  datatype Paged = Paged(papers: seq<Paper>, starts: seq<nat>)

  /** The paging loop from the k-th request on, with `start` and the
      papers collected so far. */
  function Fetched(pages: seq<seq<Paper>>, known: seq<string>, n: nat, k: nat, start: nat,
                   papers: seq<Paper>): (r: Paged)
    requires k <= |pages|
    ensures |papers| <= |r.papers| && r.papers[..|papers|] == papers
    decreases |pages| - k
  {
    if |papers| >= n then Paged(papers, [])
    else
      var page := PageAt(pages, k);
      if page == [] then Paged(papers, [start])
      else
        var rest := Fetched(pages, known, n, k + 1, start + |page|, papers + Fresh(page, known));
        assert (papers + Fresh(page, known))[..|papers|] == papers;
        Paged(rest.papers, [start] + rest.starts)
  }

  /** Every paper collected is one collected before, or a paper of a
      later page whose id is not known. */
  lemma {:induction false} FetchedFresh(pages: seq<seq<Paper>>, known: seq<string>, n: nat, k: nat, start: nat,
                                        papers: seq<Paper>, p: Paper)
    requires k <= |pages|
    requires p in Fetched(pages, known, n, k, start, papers).papers
    ensures p in papers || (ArxivId(p.link) !in known && exists j :: k <= j < |pages| && p in pages[j])
    decreases |pages| - k
  {
    if |papers| < n && PageAt(pages, k) != [] {
      var page := pages[k];
      FetchedFresh(pages, known, n, k + 1, start + |page|, papers + Fresh(page, known), p);
      if p !in papers && p in papers + Fresh(page, known) {
        FreshMember(page, known, p);
      }
    }
  }

  /** The number of entries on the pages. */
  function Total(pages: seq<seq<Paper>>): nat {
    if pages == [] then 0 else |pages[0]| + Total(pages[1..])
  }

  /** No page is empty. */
  predicate AllNonEmpty(pages: seq<seq<Paper>>) {
    forall i :: 0 <= i < |pages| ==> pages[i] != []
  }

  /** `starts` are the `start` values of requests k, k+1, ...: each is
      `start` plus the entries of the pages before it, all of which were
      nonempty. */
  predicate Advances(pages: seq<seq<Paper>>, k: nat, start: nat, starts: seq<nat>) {
    && k + |starts| <= |pages| + 1
    && (starts != [] ==> AllNonEmpty(pages[k..k + |starts| - 1]))
    && (forall j :: 0 <= j < |starts| ==> starts[j] == start + Total(pages[k..k + j]))
  }

  /** One more nonempty page in front keeps `Advances`. */
  lemma AdvancesCons(pages: seq<seq<Paper>>, k: nat, start: nat, rest: seq<nat>)
    requires k < |pages| && pages[k] != []
    requires Advances(pages, k + 1, start + |pages[k]|, rest)
    ensures Advances(pages, k, start, [start] + rest)
  {
    var starts := [start] + rest;
    assert pages[k..k + 0] == [];
    forall j | 0 < j < |starts|
      ensures starts[j] == start + Total(pages[k..k + j])
    {
      assert starts[j] == rest[j - 1];
      assert pages[k..k + j][1..] == pages[k + 1..k + 1 + (j - 1)];
    }
    if rest != [] {
      var front := pages[k..k + |starts| - 1];
      forall i | 0 <= i < |front|
        ensures front[i] != []
      {
        if i > 0 {
          assert front[i] == pages[k + 1..k + 1 + |rest| - 1][i - 1];
        }
      }
    }
  }

  /** The requests: one at least while papers are missing, and the loop
      ending short only on an empty page. */
  lemma {:induction false} FetchedRequests(pages: seq<seq<Paper>>, known: seq<string>, n: nat, k: nat, start: nat,
                                           papers: seq<Paper>)
    requires k <= |pages|
    ensures var r := Fetched(pages, known, n, k, start, papers);
      && (|papers| >= n ==> r == Paged(papers, []))
      && (|papers| < n ==> |r.starts| > 0)
      && (|r.papers| < n ==> PageAt(pages, k + |r.starts| - 1) == [])
    decreases |pages| - k
  {
    if |papers| < n && PageAt(pages, k) != [] {
      var page := pages[k];
      var more := papers + Fresh(page, known);
      FetchedRequests(pages, known, n, k + 1, start + |page|, more);
      var rest := Fetched(pages, known, n, k + 1, start + |page|, more);
      assert Fetched(pages, known, n, k, start, papers) == Paged(rest.papers, [start] + rest.starts);
    }
  }

  /** The `start` of each request is grown by the pages before it. */
  lemma {:induction false} FetchedStarts(pages: seq<seq<Paper>>, known: seq<string>, n: nat, k: nat, start: nat,
                                         papers: seq<Paper>)
    requires k <= |pages|
    ensures Advances(pages, k, start, Fetched(pages, known, n, k, start, papers).starts)
    decreases |pages| - k
  {
    if |papers| < n {
      if PageAt(pages, k) == [] {
        assert pages[k..k + 0] == [];
      } else {
        var page := pages[k];
        FetchedStarts(pages, known, n, k + 1, start + |page|, papers + Fresh(page, known));
        FetchedStartsStep(pages, known, n, k, start, papers);
      }
    }
  }

  /** One nonempty page in front of requests that keep `Advances`. */
  lemma FetchedStartsStep(pages: seq<seq<Paper>>, known: seq<string>, n: nat, k: nat, start: nat,
                          papers: seq<Paper>)
    requires k < |pages| && pages[k] != [] && |papers| < n
    requires Advances(pages, k + 1, start + |pages[k]|,
                      Fetched(pages, known, n, k + 1, start + |pages[k]|, papers + Fresh(pages[k], known)).starts)
    ensures Advances(pages, k, start, Fetched(pages, known, n, k, start, papers).starts)
  {
    var rest := Fetched(pages, known, n, k + 1, start + |pages[k]|, papers + Fresh(pages[k], known));
    assert Fetched(pages, known, n, k, start, papers).starts == [start] + rest.starts;
    AdvancesCons(pages, k, start, rest.starts);
  }

  /** `papers[:n]`. */
  function Capped(papers: seq<Paper>, n: nat): (r: seq<Paper>)
    ensures |r| <= n && (|papers| <= n ==> r == papers)
    ensures forall i :: 0 <= i < |r| ==> r[i] == papers[i]
  {
    if |papers| > n then papers[..n] else papers
  }

  /** `get_paper_info_list(labels, known, n)` on the feed `pages`. */
  function PaperList(pages: seq<seq<Paper>>, known: seq<string>, n: nat): (r: seq<Paper>)
    ensures |r| <= n
    ensures forall p :: p in r ==> ArxivId(p.link) !in known && exists j :: 0 <= j < |pages| && p in pages[j]
  {
    var f := Fetched(pages, known, n, 0, 0, []);
    var r := Capped(f.papers, n);
    forall p | p in r
      ensures ArxivId(p.link) !in known && exists j :: 0 <= j < |pages| && p in pages[j]
    {
      FetchedFresh(pages, known, n, 0, 0, [], p);
    }
    r
  }

  lemma FreshStep(page: seq<Paper>, known: seq<string>, i: nat)
    requires i < |page|
    ensures Fresh(page[..i + 1], known)
            == Fresh(page[..i], known) + (if ArxivId(page[i].link) in known then [] else [page[i]])
  {
    assert page[..i + 1][..i] == page[..i];
  }

  /** The loop appending a page's fresh papers. */
  method AppendFresh(papers: seq<Paper>, page: seq<Paper>, known: seq<string>) returns (r: seq<Paper>)
    ensures r == papers + Fresh(page, known)
  {
    r := papers;
    for i := 0 to |page|
      invariant r == papers + Fresh(page[..i], known)
    {
      FreshStep(page, known, i);
      if ArxivId(page[i].link) !in known {
        r := r + [page[i]];
      }
    }
    assert page[..|page|] == page;
  }

  /** `get_paper_info_list`: requests pages until `n` papers are collected
      or a page comes back empty. */
  method GetPaperInfoList(pages: seq<seq<Paper>>, known: seq<string>, n: nat) returns (r: seq<Paper>)
    ensures r == PaperList(pages, known, n)
  {
    ghost var goal := Fetched(pages, known, n, 0, 0, []);
    var papers: seq<Paper> := [];
    var start: nat := 0;
    var k: nat := 0;
    while |papers| < n
      invariant k <= |pages|
      invariant Fetched(pages, known, n, k, start, papers).papers == goal.papers
      decreases |pages| - k
    {
      var page := PageAt(pages, k);
      if page == [] {
        break;
      }
      FetchedStep(pages, known, n, k, start, papers, page);
      start := start + |page|;
      papers := AppendFresh(papers, page, known);
      k := k + 1;
    }
    assert papers == goal.papers;
    r := if |papers| > n then papers[..n] else papers;
  }

  /** One request that returns a nonempty page. */
  lemma FetchedStep(pages: seq<seq<Paper>>, known: seq<string>, n: nat, k: nat, start: nat, papers: seq<Paper>,
                    page: seq<Paper>)
    requires k <= |pages| && |papers| < n && page == PageAt(pages, k) && page != []
    ensures k < |pages|
    ensures Fetched(pages, known, n, k, start, papers).papers
            == Fetched(pages, known, n, k + 1, start + |page|, papers + Fresh(page, known)).papers
  {
  }

  /** `get_recommendation_paper_info_list`: page the feed, then filter when
      there are enough papers. The filter raises nothing here, so the
      fallback of its `except` branch is never taken. */
  method RecommendationPaperInfoList(env: Env, cache: ResponseCache, pages: seq<seq<Paper>>, labels: seq<string>,
                                     description: string, known: seq<string>, searchNum: nat, chose: nat)
    returns (r: seq<Paper>)
    modifies cache
    ensures var ps := PaperList(pages, known, searchNum);
      var f := FilterPapers(env, old(cache.stores), ps, labels, description, chose);
      && cache.stores == f.stores
      && (|ps| < chose ==> r == ps)
      && (!f.asGiven ==>
            && |r| == |f.ids|
            && (forall i :: 0 <= i < |r| ==> r[i].id in f.ids && r[i] in ps)
            && (forall x :: x in f.ids ==> exists i :: 0 <= i < |r| && r[i].id == x))
  {
    var ps := GetPaperInfoList(pages, known, searchNum);
    if |ps| < chose {
      return ps;
    }
    r := FilterThePapers(env, cache, ps, labels, description, chose);
  }
}
