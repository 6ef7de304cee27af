/**
 * `check_problem_format`: the per-kind validator that turns a model reply
 * into the list of well-formed problems (or the one summary / review
 * object), raising when nothing usable remains.
 */
module Validate {
  import opened PyValues
  import opened PyText
  import opened Services
  import opened Extract

  const Question := "问题"
  const Answer := "答案"
  const ChoiceAnswer := "正确答案"
  const ChoiceKeys := [Question, "A", "B", "C", "D", ChoiceAnswer]
  const AnswerKeys := [Question, Answer]
  const ChoiceLetters := [JStr("A"), JStr("B"), JStr("C"), JStr("D")]
  const TfWords := [JStr("正确"), JStr("错误")]
  /** The longest blank answer kept. */
  const MaxBlankAnswer: nat := 20

  /** `a` is `b` with some items deleted, the rest in order. */
  predicate Subseq<T(==)>(a: seq<T>, b: seq<T>)
    decreases |b|
  {
    if b == [] then a == []
    else (a != [] && a[0] == b[0] && Subseq(a[1..], b[1..])) || Subseq(a, b[1..])
  }

  /** The items satisfying `p`, in order. */
  function Select(items: seq<Json>, p: Json -> bool): seq<Json>
    decreases |items|
  {
    if items == [] then []
    else (if p(items[0]) then [items[0]] else []) + Select(items[1..], p)
  }

  lemma {:induction false} SelectSubseq(items: seq<Json>, p: Json -> bool)
    ensures Subseq(Select(items, p), items)
    ensures forall x :: x in Select(items, p) ==> p(x)
    decreases |items|
  {
    if items != [] {
      SelectSubseq(items[1..], p);
      var rest := Select(items[1..], p);
      if p(items[0]) {
        DropHead(items[0], rest);
      } else {
        AppendEmpty(rest);
      }
    }
  }

  // ---------------------------------------------------------------------
  // choice and blank: keep or skip each item

  /** A well-formed multiple-choice problem: a dict with the question, the
      four options and a correct answer that is one of the letters. */
  predicate ChoiceValid(d: Json) {
    && d.JObject?
    && (forall k :: k in ChoiceKeys ==> k in d.fields)
    && d.fields[ChoiceAnswer] in ChoiceLetters
  }

  /** One turn of the choice loop: `Ok(true)` appends the item. */
  function ChoiceItem(d: Json): (r: Outcome<bool>)
    ensures r == Ok(true) <==> ChoiceValid(d)
    ensures r.Raise? <==>
      (d.JNull? || d.JBool? || d.JNum? || (!d.JObject? && ContainsAll(ChoiceKeys, d) == Ok(true)))
  {
    match ContainsAll(ChoiceKeys, d)
    case Raise => Raise
    case Ok(false) => Ok(false)
    case Ok(true) =>
      var v :- Index(d, ChoiceAnswer);
      Ok(v in ChoiceLetters)
  }

  /** A well-formed fill-in-the-blank problem: a dict with a question and
      an answer of length at most `MaxBlankAnswer`. */
  predicate BlankValid(d: Json) {
    && d.JObject?
    && Question in d.fields && Answer in d.fields
    && Len(d.fields[Answer]).Ok? && Len(d.fields[Answer]).value <= MaxBlankAnswer
  }

  /** One turn of the blank loop. */
  function BlankItem(d: Json): (r: Outcome<bool>)
    ensures r == Ok(true) <==> BlankValid(d)
    ensures r.Raise? <==>
      (d.JNull? || d.JBool? || d.JNum?
       || (!d.JObject? && ContainsAll(AnswerKeys, d) == Ok(true))
       || (d.JObject? && Question in d.fields && Answer in d.fields && Len(d.fields[Answer]).Raise?))
  {
    match ContainsAll(AnswerKeys, d)
    case Raise => Raise
    case Ok(false) => Ok(false)
    case Ok(true) =>
      var v :- Index(d, Answer);
      var n :- Len(v);
      Ok(n <= MaxBlankAnswer)
  }

  /** The `for d in data` loop of the choice and blank branches. */
  function Filter(items: seq<Json>, item: Json -> Outcome<bool>): Outcome<seq<Json>>
    decreases |items|
  {
    if items == [] then Ok([])
    else
      var keep :- item(items[0]);
      var rest :- Filter(items[1..], item);
      Ok((if keep then [items[0]] else []) + rest)
  }

  /** The loop either raises, when some item raises, or keeps exactly the
      items the item test accepts, in order. */
  lemma {:induction false} FilterSelects(items: seq<Json>, item: Json -> Outcome<bool>, p: Json -> bool)
    requires forall d :: item(d) == Ok(true) <==> p(d)
    ensures Filter(items, item).Raise? <==> exists i :: 0 <= i < |items| && item(items[i]).Raise?
    ensures Filter(items, item).Ok? ==> Filter(items, item).value == Select(items, p)
    decreases |items|
  {
    if items != [] {
      FilterSelects(items[1..], item, p);
      if item(items[0]).Raise? {
        assert exists i :: 0 <= i < |items| && item(items[i]).Raise? by {
          assert item(items[0]).Raise?;
        }
      } else {
        forall i | 0 <= i < |items[1..]| ensures items[1..][i] == items[i + 1] { }
        if exists i :: 0 <= i < |items| && item(items[i]).Raise? {
          var i :| 0 <= i < |items| && item(items[i]).Raise?;
          assert i > 0 && item(items[1..][i - 1]).Raise?;
        }
      }
    }
  }

  /** The choice and blank loop: append the items the test accepts. */
  method KeepItems(items: seq<Json>, item: Json -> Outcome<bool>) returns (r: Outcome<seq<Json>>)
    ensures r == Filter(items, item)
  {
    var kept: seq<Json> := [];
    DropNone(items);
    ResumeEmpty(Filter(items, item));
    for i := 0 to |items|
      invariant Filter(items, item) == Resume(kept, Filter(items[i..], item))
    {
      FilterCons(items, i, item);
      match item(items[i])
      case Raise => return Raise;
      case Ok(keep) =>
        if keep {
          ResumeSnoc(kept, items[i], Filter(items[i + 1..], item));
          kept := kept + [items[i]];
        } else {
          ResumeEmpty(Filter(items[i + 1..], item));
        }
    }
    AppendEmpty(kept);
    r := Ok(kept);
  }

  /** What the loop returns when the rest of the items give `rest`. */
  function Resume(kept: seq<Json>, rest: Outcome<seq<Json>>): Outcome<seq<Json>> {
    match rest
    case Raise => Raise
    case Ok(tail) => Ok(kept + tail)
  }

  lemma FilterCons(items: seq<Json>, i: nat, item: Json -> Outcome<bool>)
    requires i < |items|
    ensures item(items[i]).Raise? ==> Filter(items[i..], item) == Raise
    ensures item(items[i]).Ok? ==>
      Filter(items[i..], item) == Resume(if item(items[i]).value then [items[i]] else [], Filter(items[i + 1..], item))
  {
    DropFirst(items, i);
  }

  lemma ResumeEmpty(rest: Outcome<seq<Json>>)
    ensures Resume([], rest) == rest
  {
    if rest.Ok? {
      AppendEmpty(rest.value);
    }
  }

  lemma ResumeSnoc(kept: seq<Json>, x: Json, rest: Outcome<seq<Json>>)
    ensures Resume(kept, Resume([x], rest)) == Resume(kept + [x], rest)
  {
    if rest.Ok? {
      AppendAssoc(kept, [x], rest.value);
    }
  }

  // ---------------------------------------------------------------------
  // true/false: keep, normalise or skip each item

  /** The answer is a string holding `w`, after `.lower()`. */
  predicate LowerHas(v: Json, w: string) {
    v.JStr? && Infix(w, Lower(v.s))
  }

  /** The answer is a string holding `w` as it is. */
  predicate Has(v: Json, w: string) {
    v.JStr? && Infix(w, v.s)
  }

  /** The normalised answer of a true/false item, or `None` to skip it;
      an answer that is not a string raises at `.lower()`. The tests run in
      this order: already 正确/错误, "true" or "false" in the lower-cased
      text, then 对 and 错. */
  function TfAnswer(v: Json): (r: Outcome<Option<Json>>)
    ensures r.Raise? <==> (v !in TfWords && !v.JStr?)
    ensures r.Ok? && r.value.Some? ==> r.value.value in TfWords
    ensures v in TfWords ==> r == Ok(Some(v))
  {
    if v in TfWords then Ok(Some(v))
    else if !v.JStr? then Raise
    else if Infix("true", Lower(v.s)) then Ok(Some(JStr("正确")))
    else if Infix("false", Lower(v.s)) then Ok(Some(JStr("错误")))
    else if Infix("对", v.s) then Ok(Some(JStr("正确")))
    else if Infix("错", v.s) then Ok(Some(JStr("错误")))
    else Ok(None)
  }

  /** Which answer a true/false item that is not yet 正确 or 错误 gets: the
      tests for "true" and "false" in the lower-cased text, then 对 and 错,
      in that order; it is skipped exactly when none of them matches. */
  lemma TfAnswerNormalises(v: Json)
    ensures v.JStr? && v !in TfWords ==>
      TfAnswer(v) == Ok(if LowerHas(v, "true") then Some(JStr("正确"))
                        else if LowerHas(v, "false") then Some(JStr("错误"))
                        else if Has(v, "对") then Some(JStr("正确"))
                        else if Has(v, "错") then Some(JStr("错误"))
                        else None)
    ensures TfAnswer(v) == Ok(None) <==>
      (v.JStr? && v !in TfWords && !LowerHas(v, "true") && !LowerHas(v, "false") && !Has(v, "对") && !Has(v, "错"))
  {
  }

  /** One turn of the true/false loop: the item to append (with its answer
      overwritten in place), `None` to skip it. */
  function TfItem(d: Json): Outcome<Option<Json>> {
    match ContainsAll(AnswerKeys, d)
    case Raise => Raise
    case Ok(false) => Ok(None)
    case Ok(true) =>
      var v :- Index(d, Answer);
      var a :- TfAnswer(v);
      match a
      case None => Ok(None)
      case Some(w) => Ok(Some(if v == w then d else JObject(d.fields[Answer := w])))
  }

  function TfItems(items: seq<Json>): Outcome<seq<Json>>
    decreases |items|
  {
    if items == [] then Ok([])
    else
      var x :- TfItem(items[0]);
      var rest :- TfItems(items[1..]);
      Ok((if x.Some? then [x.value] else []) + rest)
  }

  /** The true/false branch iterates `range(len(data))` and indexes
      `data[i]`: a list gives its items, a string its characters (none of
      which holds the keys), a dict raises on its first integer key and
      anything else raises at `len`. */
  function TfFormat(data: Json): Outcome<seq<Json>> {
    match data
    case JList(items) => TfItems(items)
    case JStr(_) => Ok([])
    case JObject(f) => if |f| == 0 then Ok([]) else Raise
    case _ => Raise
  }

  /** A normalised true/false problem. */
  predicate TfValid(d: Json) {
    d.JObject? && Question in d.fields && Answer in d.fields && d.fields[Answer] in TfWords
  }

  /** The item with its answer left out, to compare items across the
      normalisation. */
  function Unanswered(d: Json): Json {
    if d.JObject? then JObject(d.fields - {Answer}) else d
  }

  function UnansweredAll(items: seq<Json>): (r: seq<Json>)
    ensures |r| == |items|
    decreases |items|
  {
    if items == [] then [] else [Unanswered(items[0])] + UnansweredAll(items[1..])
  }

  lemma TfItemValid(d: Json)
    ensures TfItem(d).Ok? && TfItem(d).value.Some? ==>
      TfValid(TfItem(d).value.value) && Unanswered(TfItem(d).value.value) == Unanswered(d)
  {
    if TfItem(d).Ok? && TfItem(d).value.Some? {
      var v := d.fields[Answer];
      var w := TfAnswer(v).value.value;
      if v != w {
        assert d.fields[Answer := w] - {Answer} == d.fields - {Answer};
      }
    }
  }

  /** Every true/false item returned is normalised, and apart from their
      answers the items returned are the input items, in order, some
      deleted. */
  lemma {:induction false} TfItemsValid(items: seq<Json>)
    ensures TfItems(items).Ok? ==> forall x :: x in TfItems(items).value ==> TfValid(x)
    ensures TfItems(items).Ok? ==> Subseq(UnansweredAll(TfItems(items).value), UnansweredAll(items))
    decreases |items|
  {
    if items != [] && TfItems(items).Ok? {
      TfItemsValid(items[1..]);
      TfItemValid(items[0]);
      var x := TfItem(items[0]).value;
      var rest := TfItems(items[1..]).value;
      var out := TfItems(items).value;
      assert UnansweredAll(items)[1..] == UnansweredAll(items[1..]);
      if x.Some? {
        assert out == [x.value] + rest;
        DropHead(x.value, rest);
        assert UnansweredAll(out)[1..] == UnansweredAll(rest);
      } else {
        AppendEmpty(rest);
        assert out == rest;
      }
    }
  }

  /** The true/false loop, overwriting the answers of the list in place. */
  method TfLoop(data: Json) returns (r: Outcome<seq<Json>>)
    ensures r == TfFormat(data)
  {
    if !data.JList? {
      match data
      case JStr(_) => return Ok([]);
      case JObject(f) => return if |f| == 0 then Ok([]) else Raise;
      case _ => return Raise;
    }
    var cells := data.items;
    var kept: seq<Json> := [];
    DropNone(cells);
    ResumeEmpty(TfItems(cells));
    for i := 0 to |cells|
      invariant |cells| == |data.items| && cells[i..] == data.items[i..]
      invariant TfItems(data.items) == Resume(kept, TfItems(cells[i..]))
    {
      TfCons(cells, i);
      ghost var rest := TfItems(cells[i + 1..]);
      var d := cells[i];
      match ContainsAll(AnswerKeys, d)
      case Raise => return Raise;
      case Ok(false) =>
        ResumeEmpty(rest);
      case Ok(true) =>
        if !(d.JObject? && Answer in d.fields) {
          return Raise;
        }
        var v := d.fields[Answer];
        match TfAnswer(v)
        case Raise => return Raise;
        case Ok(None) =>
          ResumeEmpty(rest);
        case Ok(Some(w)) =>
          if v != w {
            ghost var before := cells;
            cells := cells[i := JObject(d.fields[Answer := w])];
            assert cells[i + 1..] == before[i + 1..];
          }
          assert TfItem(d) == Ok(Some(cells[i]));
          ResumeSnoc(kept, cells[i], rest);
          kept := kept + [cells[i]];
    }
    AppendEmpty(kept);
    r := Ok(kept);
  }

  lemma TfCons(items: seq<Json>, i: nat)
    requires i < |items|
    ensures TfItem(items[i]).Raise? ==> TfItems(items[i..]) == Raise
    ensures TfItem(items[i]).Ok? ==>
      TfItems(items[i..]) == Resume(if TfItem(items[i]).value.Some? then [TfItem(items[i]).value.value] else [],
                                    TfItems(items[i + 1..]))
  {
    DropFirst(items, i);
  }

  // ---------------------------------------------------------------------
  // check_problem_format

  /** The choice and blank branches: iterate the parsed reply and keep
      the items the test accepts. */
  function Kept(env: Env, data: Json, item: Json -> Outcome<bool>): Outcome<Json> {
    var items :- Iterate(data, env.keyOrder);
    var out :- Filter(items, item);
    Ok(JList(out))
  }

  /** The summary and review branches: the whole reply, when it holds the
      keys; a reply that cannot be searched raises. */
  function Whole(keys: seq<string>, data: Json): Outcome<Json> {
    var has :- ContainsAll(keys, data);
    if has then Ok(data) else Raise
  }

  /** The value each branch builds before the final emptiness test. */
  function Formatted(env: Env, data: Json, kind: Kind): Outcome<Json> {
    match kind
    case Choice => Kept(env, data, ChoiceItem)
    case Tf =>
      var out :- TfFormat(data);
      Ok(JList(out))
    case Blank => Kept(env, data, BlankItem)
    case Review => Whole(["优点", "缺点"], data)
    case Sum => Whole(["总结"], data)
    case Judge => Ok(JList([]))
  }

  /** The final test: an empty result raises like every other failure. */
  function NonEmpty(out: Outcome<Json>): (r: Outcome<Json>)
    ensures r.Ok? <==> out.Ok? && Truthy(out.value)
    ensures r.Ok? ==> r == out
  {
    if out.Ok? && Truthy(out.value) then out else Raise
  }

  /** `check_problem_format(problem, kind)`: every failure, including an
      empty result, is the one `ValueError`. */
  function ProblemFormat(env: Env, problem: Json, kind: Kind): Outcome<Json> {
    var data :- ProcessJson(env, problem);
    NonEmpty(Formatted(env, data, kind))
  }

  /** The check on a reply that parses is the check on the parsed value. */
  lemma FormatOf(env: Env, problem: Json, kind: Kind, data: Json)
    requires ProcessJson(env, problem) == Ok(data)
    ensures ProblemFormat(env, problem, kind) == NonEmpty(Formatted(env, data, kind))
  {
  }

  /** `check_problem_format`, with the loops of its three list branches. */
  method CheckProblemFormat(env: Env, problem: Json, kind: Kind) returns (r: Outcome<Json>)
    ensures r == ProblemFormat(env, problem, kind)
  {
    var data: Json;
    match ProcessJson(env, problem) {
      case Raise => return Raise;
      case Ok(v) => data := v;
    }
    var out: Json;
    match kind {
      case Choice =>
        match Iterate(data, env.keyOrder) {
          case Raise => return Raise;
          case Ok(items) =>
            var kept := KeepItems(items, ChoiceItem);
            if kept.Raise? { return Raise; }
            out := JList(kept.value);
        }
      case Tf =>
        var kept := TfLoop(data);
        if kept.Raise? { return Raise; }
        out := JList(kept.value);
      case Blank =>
        match Iterate(data, env.keyOrder) {
          case Raise => return Raise;
          case Ok(items) =>
            var kept := KeepItems(items, BlankItem);
            if kept.Raise? { return Raise; }
            out := JList(kept.value);
        }
      case Review =>
        var has := ContainsAll(["优点", "缺点"], data);
        if has != Ok(true) { return Raise; }
        out := data;
      case Sum =>
        var has := ContainsAll(["总结"], data);
        if has != Ok(true) { return Raise; }
        out := data;
      case Judge =>
        out := JList([]);
    }
    if !Truthy(out) {
      return Raise;
    }
    r := Ok(out);
  }

  // ---------------------------------------------------------------------
  // properties

  /** Judging replies have no problem format: the check always raises. */
  lemma JudgeRejected(env: Env, problem: Json)
    ensures ProblemFormat(env, problem, Judge) == Raise
  {
    if ProcessJson(env, problem).Ok? {
      var data := ProcessJson(env, problem).value;
      FormatOf(env, problem, Judge, data);
      JudgeEmpty(env, data);
    }
  }

  lemma JudgeEmpty(env: Env, data: Json)
    ensures NonEmpty(Formatted(env, data, Judge)) == Raise
  {
    assert Formatted(env, data, Judge) == Ok(JList([]));
  }

  /** Whatever the check returns is non-empty. */
  lemma FormatNonEmpty(env: Env, problem: Json, kind: Kind)
    ensures ProblemFormat(env, problem, kind).Ok? ==> Truthy(ProblemFormat(env, problem, kind).value)
  {
  }

  /** A kept list is the items the test accepts, in order. */
  lemma KeptSelects(env: Env, data: Json, item: Json -> Outcome<bool>, p: Json -> bool)
    requires forall d :: item(d) == Ok(true) <==> p(d)
    ensures var r := NonEmpty(Kept(env, data, item));
      r.Ok? ==> exists items ::
        && Iterate(data, env.keyOrder) == Ok(items)
        && r.value == JList(Select(items, p))
        && Subseq(r.value.items, items)
        && (forall x :: x in r.value.items ==> p(x))
        && r.value.items != []
  {
    if NonEmpty(Kept(env, data, item)).Ok? {
      var items := Iterate(data, env.keyOrder).value;
      FilterSelects(items, item, p);
      SelectSubseq(items, p);
    }
  }

  /** One item that raises makes the whole list raise. */
  lemma KeptRaises(env: Env, data: Json, item: Json -> Outcome<bool>, p: Json -> bool, items: seq<Json>, i: nat)
    requires forall d :: item(d) == Ok(true) <==> p(d)
    requires Iterate(data, env.keyOrder) == Ok(items)
    requires i < |items| && item(items[i]).Raise?
    ensures Kept(env, data, item) == Raise
  {
    FilterSelects(items, item, p);
  }

  lemma ChoiceItems()
    ensures forall d :: ChoiceItem(d) == Ok(true) <==> ChoiceValid(d)
  {
  }

  lemma BlankItems()
    ensures forall d :: BlankItem(d) == Ok(true) <==> BlankValid(d)
  {
  }

  /** The choice result: the well-formed items of the parsed reply, in order. */
  lemma ChoiceFormat(env: Env, problem: Json)
    ensures var r := ProblemFormat(env, problem, Choice);
      r.Ok? ==> exists data, items ::
        && ProcessJson(env, problem) == Ok(data)
        && Iterate(data, env.keyOrder) == Ok(items)
        && r.value == JList(Select(items, ChoiceValid))
        && Subseq(r.value.items, items)
        && (forall x :: x in r.value.items ==> ChoiceValid(x))
        && r.value.items != []
  {
    if ProcessJson(env, problem).Ok? {
      var data := ProcessJson(env, problem).value;
      FormatOf(env, problem, Choice, data);
      ChoiceItems();
      KeptSelects(env, data, ChoiceItem, ChoiceValid);
    }
  }

  /** The blank result: the well-formed items of the parsed reply, in order. */
  lemma BlankFormat(env: Env, problem: Json)
    ensures var r := ProblemFormat(env, problem, Blank);
      r.Ok? ==> exists data, items ::
        && ProcessJson(env, problem) == Ok(data)
        && Iterate(data, env.keyOrder) == Ok(items)
        && r.value == JList(Select(items, BlankValid))
        && Subseq(r.value.items, items)
        && (forall x :: x in r.value.items ==> BlankValid(x))
        && r.value.items != []
  {
    if ProcessJson(env, problem).Ok? {
      var data := ProcessJson(env, problem).value;
      FormatOf(env, problem, Blank, data);
      BlankItems();
      KeptSelects(env, data, BlankItem, BlankValid);
    }
  }

  /** One item that raises makes the whole choice batch raise. */
  lemma ChoiceItemRaises(env: Env, problem: Json, data: Json, items: seq<Json>, i: nat)
    requires ProcessJson(env, problem) == Ok(data) && Iterate(data, env.keyOrder) == Ok(items)
    requires i < |items| && ChoiceItem(items[i]).Raise?
    ensures ProblemFormat(env, problem, Choice) == Raise
  {
    FormatOf(env, problem, Choice, data);
    ChoiceItems();
    KeptRaises(env, data, ChoiceItem, ChoiceValid, items, i);
    assert Formatted(env, data, Choice) == Raise;
  }

  /** One item whose answer has no length makes the whole blank batch raise. */
  lemma BlankItemRaises(env: Env, problem: Json, data: Json, items: seq<Json>, i: nat)
    requires ProcessJson(env, problem) == Ok(data) && Iterate(data, env.keyOrder) == Ok(items)
    requires i < |items| && BlankItem(items[i]).Raise?
    ensures ProblemFormat(env, problem, Blank) == Raise
  {
    FormatOf(env, problem, Blank, data);
    BlankItems();
    KeptRaises(env, data, BlankItem, BlankValid, items, i);
    assert Formatted(env, data, Blank) == Raise;
  }

  /** The true/false result: normalised items, which apart from their
      answers are the parsed items in order, some deleted. */
  lemma TfFormatValid(env: Env, problem: Json)
    ensures var r := ProblemFormat(env, problem, Tf);
      r.Ok? ==> exists data ::
        && ProcessJson(env, problem) == Ok(data)
        && data.JList? && r.value.JList?
        && Subseq(UnansweredAll(r.value.items), UnansweredAll(data.items))
        && (forall x :: x in r.value.items ==> TfValid(x))
        && r.value.items != []
  {
    if ProcessJson(env, problem).Ok? {
      var data := ProcessJson(env, problem).value;
      FormatOf(env, problem, Tf, data);
      if NonEmpty(Formatted(env, data, Tf)).Ok? {
        TfNonEmpty(data);
        TfItemsValid(data.items);
      }
    }
  }

  /** Only a list reply can give true/false problems. */
  lemma TfNonEmpty(data: Json)
    ensures var f := TfFormat(data);
      f.Ok? && f.value != [] ==> data.JList? && f == TfItems(data.items)
  {
  }

  /** Summary and review replies are returned whole, and only when they
      hold their keys. */
  lemma ObjectFormat(env: Env, problem: Json, kind: Kind)
    requires kind == Sum || kind == Review
    ensures var r := ProblemFormat(env, problem, kind);
      r.Ok? ==> (ProcessJson(env, problem) == r && Truthy(r.value)
        && (r.value.JObject? ==>
              if kind == Sum then "总结" in r.value.fields
              else "优点" in r.value.fields && "缺点" in r.value.fields))
  {
    if ProcessJson(env, problem).Ok? {
      var data := ProcessJson(env, problem).value;
      FormatOf(env, problem, kind, data);
      if kind == Sum {
        WholeKeys(["总结"], data);
      } else {
        WholeKeys(["优点", "缺点"], data);
      }
    }
  }

  /** A whole reply passes only with every key. */
  lemma WholeKeys(keys: seq<string>, data: Json)
    ensures Whole(keys, data).Ok? ==>
      Whole(keys, data) == Ok(data) && (data.JObject? ==> forall k :: k in keys ==> k in data.fields)
  {
  }
}
