/**
 * `get_problems_for_article`: the three problem distributions and the
 * summary distribution, the review asked of the joined summaries, and the
 * flat list of question records with their chunk indices.
 */
module Assemble {
  import opened PyValues
  import opened PyText
  import opened Services
  import opened Cache
  import opened Prompts
  import opened Validate
  import opened Generate
  import opened Distribute

  /** One entry of `questions`: `question_content`, `standard_answer` and
      `question_type` (0 choice, 1 true/false, 2 blank, 3 review). */
  datatype Record = Record(content: Json, answer: Json, qtype: nat)

  function Min(a: nat, b: nat): nat {
    if a <= b then a else b
  }

  // ---------------------------------------------------------------------
  // the summary

  /** `data["总结"]`, which `+=` on a string accepts only as a string. */
  function SumText(d: Json): Outcome<string> {
    var v :- Index(d, "总结");
    if v.JStr? then Ok(v.s) else Raise
  }

  /** `summarization` after the first `n` summary items. */
  function Summary(items: seq<Json>, n: nat): (r: Outcome<string>)
    requires n <= |items|
  {
    if n == 0 then Ok("")
    else
      var pre :- Summary(items, n - 1);
      var s :- SumText(items[n - 1]);
      Ok(pre + s)
  }

  /** An item that raises ends the loop. */
  lemma {:induction false} SummaryRaised(items: seq<Json>, i: nat, n: nat)
    requires i <= n <= |items| && Summary(items, i).Raise?
    ensures Summary(items, n).Raise?
    decreases n - i
  {
    if i < n {
      SummaryRaised(items, i, n - 1);
    }
  }

  /** When every summary item holds its 总结 text, the summary is their
      concatenation, in order. */
  lemma {:induction false} SummaryConcat(items: seq<Json>, texts: seq<string>, n: nat)
    requires n <= |items| == |texts|
    requires forall k :: 0 <= k < |items| ==> SumText(items[k]) == Ok(texts[k])
    ensures Summary(items, n) == Ok(Join("", texts[..n]))
    decreases n
  {
    if n > 0 {
      SummaryConcat(items, texts, n - 1);
      if n > 1 {
        assert texts[..n] == texts[..n - 1] + [texts[n - 1]];
        JoinSnoc("", texts[..n - 1], texts[n - 1]);
        assert Join("", texts[..n - 1]) + "" == Join("", texts[..n - 1]);
      } else {
        assert texts[..n] == [texts[0]];
        assert "" + texts[0] == texts[0];
      }
    }
  }

  /** The text the review is asked of: the summaries, or the first chunk
      when they are empty (an `IndexError` when there is none). */
  function ReviewText(items: seq<Json>, chunks: seq<string>): (r: Outcome<string>)
    ensures r.Ok? ==> r.value != "" || (chunks != [] && r.value == chunks[0])
    ensures r.Ok? ==> chunks != [] || items != []
  {
    var s :- Summary(items, |items|);
    if s != "" then Ok(s)
    else if chunks == [] then Raise
    else Ok(chunks[0])
  }

  /** The review is asked of the summaries when they are not empty, of the
      first chunk when they are, and a raising summary item raises. */
  lemma ReviewTextOf(items: seq<Json>, chunks: seq<string>)
    ensures var s := Summary(items, |items|);
      && (s.Raise? ==> ReviewText(items, chunks).Raise?)
      && (s.Ok? && s.value != "" ==> ReviewText(items, chunks) == s)
      && (s == Ok("") ==> ReviewText(items, chunks) == if chunks == [] then Raise else Ok(chunks[0]))
  {
  }

  // ---------------------------------------------------------------------
  // the question records

  /** A choice record: the question followed by its four options, each
      rendered by the f-string; `+` needs the question to be a string. */
  function ChoiceRecord(env: Env, d: Json): (r: Outcome<Record>)
    ensures r.Ok? ==> r.value.qtype == 0
  {
    var q :- Index(d, Question);
    var a :- Index(d, "A");
    var b :- Index(d, "B");
    var c :- Index(d, "C");
    var e :- Index(d, "D");
    if !q.JStr? then Raise
    else
      var answer :- Index(d, ChoiceAnswer);
      Ok(Record(JStr(q.s + "\nA. " + Render(env, a) + "\nB. " + Render(env, b)
                     + "\nC. " + Render(env, c) + "\nD. " + Render(env, e)), answer, 0))
  }

  /** A true/false or blank record: the question and the answer as they are. */
  function PlainRecord(d: Json, t: nat): (r: Outcome<Record>)
    ensures r.Ok? ==> r.value.qtype == t
  {
    var q :- Index(d, Question);
    var answer :- Index(d, Answer);
    Ok(Record(q, answer, t))
  }

  /** The record of a problem of type `t` (0, 1 or 2). */
  function Entry(env: Env, t: nat, d: Json): (r: Outcome<Record>)
    ensures r.Ok? ==> r.value.qtype == t
  {
    if t == 0 then ChoiceRecord(env, d) else PlainRecord(d, t)
  }

  /** The records and indices from the first `n` pairs of
      `zip(problems, chunk_index_list)`. */
  function Zipped(env: Env, t: nat, ps: seq<Json>, ix: seq<int>, n: nat): (r: Outcome<(seq<Record>, seq<int>)>)
    requires n <= |ps| && n <= |ix|
    ensures r.Ok? ==> |r.value.0| == n && r.value.1 == ix[..n]
    ensures r.Ok? ==> forall i :: 0 <= i < n ==> r.value.0[i].qtype == t
  {
    if n == 0 then Ok(([], []))
    else
      var pre :- Zipped(env, t, ps, ix, n - 1);
      var rec :- Entry(env, t, ps[n - 1]);
      assert ix[..n] == ix[..n - 1] + [ix[n - 1]];
      Ok((pre.0 + [rec], pre.1 + [ix[n - 1]]))
  }

  lemma {:induction false} ZippedRaised(env: Env, t: nat, ps: seq<Json>, ix: seq<int>, i: nat, n: nat)
    requires i <= n <= |ps| && n <= |ix| && Zipped(env, t, ps, ix, i).Raise?
    ensures Zipped(env, t, ps, ix, n).Raise?
    decreases n - i
  {
    if i < n {
      ZippedRaised(env, t, ps, ix, i, n - 1);
    }
  }

  /** The strings of the items; `join` raises on any other item. */
  function Strings(items: seq<Json>): (r: Outcome<seq<string>>)
    ensures r.Ok? <==> forall j :: j in items ==> j.JStr?
    ensures r.Ok? ==> |r.value| == |items| && forall i :: 0 <= i < |items| ==> items[i] == JStr(r.value[i])
  {
    if items == [] then Ok([])
    else if !items[0].JStr? then Raise
    else
      var rest :- Strings(items[1..]);
      Ok([items[0].s] + rest)
  }

  /** `'；'.join(v)`: every item iterated must be a string. */
  function Joined(env: Env, v: Json): Outcome<string> {
    var items :- Iterate(v, env.keyOrder);
    var strs :- Strings(items);
    Ok(Join("；", strs))
  }

  /** The review record: the fixed question and the joined strengths and
      weaknesses. */
  function ReviewRecord(env: Env, d: Json): (r: Outcome<Record>)
    ensures r.Ok? ==> r.value.qtype == 3
  {
    var pros :- Index(d, "优点");
    var p :- Joined(env, pros);
    var cons :- Index(d, "缺点");
    var c :- Joined(env, cons);
    Ok(Record(JStr(ReviewQuestion), JStr("优点: " + p + "\n缺点: " + c), 3))
  }

  /** The review records of the first `n` review items, each with index -1. */
  function Reviews(env: Env, rs: seq<Json>, n: nat): (r: Outcome<(seq<Record>, seq<int>)>)
    requires n <= |rs|
    ensures r.Ok? ==> |r.value.0| == n && |r.value.1| == n
    ensures r.Ok? ==> forall i :: 0 <= i < n ==> r.value.0[i].qtype == 3 && r.value.1[i] == -1
  {
    if n == 0 then Ok(([], []))
    else
      var pre :- Reviews(env, rs, n - 1);
      var rec :- ReviewRecord(env, rs[n - 1]);
      Ok((pre.0 + [rec], pre.1 + [-1]))
  }

  lemma {:induction false} ReviewsRaised(env: Env, rs: seq<Json>, i: nat, n: nat)
    requires i <= n <= |rs| && Reviews(env, rs, i).Raise?
    ensures Reviews(env, rs, n).Raise?
    decreases n - i
  {
    if i < n {
      ReviewsRaised(env, rs, i, n - 1);
    }
  }

  /** The records of one problem type: the whole zip. */
  function TypeRecords(env: Env, t: nat, d: (seq<Json>, seq<int>)): Outcome<(seq<Record>, seq<int>)> {
    Zipped(env, t, d.0, d.1, Min(|d.0|, |d.1|))
  }

  /** `questions` and `chunk_index_list`, in the order choice, true/false,
      blank, review. */
  function Questions(env: Env, c: (seq<Json>, seq<int>), tf: (seq<Json>, seq<int>), b: (seq<Json>, seq<int>),
                     rs: seq<Json>): Outcome<(seq<Record>, seq<int>)> {
    var zc :- TypeRecords(env, 0, c);
    var zt :- TypeRecords(env, 1, tf);
    var zb :- TypeRecords(env, 2, b);
    var zr :- Reviews(env, rs, |rs|);
    Ok((zc.0 + zt.0 + zb.0 + zr.0, zc.1 + zt.1 + zb.1 + zr.1))
  }

  /** The type of the `i`-th record when the blocks of the three problem
      types have `nc`, `nt` and `nb` records. */
  function TypeAt(i: nat, nc: nat, nt: nat, nb: nat): nat {
    if i < nc then 0 else if i < nc + nt then 1 else if i < nc + nt + nb then 2 else 3
  }

  /** The records come in four blocks, one per type, of the given sizes;
      the indices of the review block are -1 and the others are the zipped
      chunk indices. */
  lemma QuestionsShape(env: Env, c: (seq<Json>, seq<int>), tf: (seq<Json>, seq<int>), b: (seq<Json>, seq<int>),
                       rs: seq<Json>)
    ensures var q := Questions(env, c, tf, b, rs);
      var nc, nt, nb := Min(|c.0|, |c.1|), Min(|tf.0|, |tf.1|), Min(|b.0|, |b.1|);
      q.Ok? ==>
        && |q.value.0| == |q.value.1| == nc + nt + nb + |rs|
        && (forall i :: 0 <= i < |q.value.0| ==> q.value.0[i].qtype == TypeAt(i, nc, nt, nb))
        && q.value.1 == c.1[..nc] + tf.1[..nt] + b.1[..nb] + q.value.1[nc + nt + nb..]
        && (forall i :: nc + nt + nb <= i < |q.value.1| ==> q.value.1[i] == -1)
  {
    var q := Questions(env, c, tf, b, rs);
    if q.Ok? {
      var nc, nt, nb := Min(|c.0|, |c.1|), Min(|tf.0|, |tf.1|), Min(|b.0|, |b.1|);
      var zc, zt, zb := TypeRecords(env, 0, c).value, TypeRecords(env, 1, tf).value, TypeRecords(env, 2, b).value;
      var zr := Reviews(env, rs, |rs|).value;
      BlockTypes(zc.0, zt.0, zb.0, zr.0, nc, nt, nb);
      BlockIndices(zc.1, zt.1, zb.1, zr.1);
    }
  }

  lemma BlockTypes(a: seq<Record>, b: seq<Record>, c: seq<Record>, d: seq<Record>, na: nat, nb: nat, nc: nat)
    requires |a| == na && |b| == nb && |c| == nc
    requires forall i :: 0 <= i < |a| ==> a[i].qtype == 0
    requires forall i :: 0 <= i < |b| ==> b[i].qtype == 1
    requires forall i :: 0 <= i < |c| ==> c[i].qtype == 2
    requires forall i :: 0 <= i < |d| ==> d[i].qtype == 3
    ensures forall i :: 0 <= i < |a + b + c + d| ==> (a + b + c + d)[i].qtype == TypeAt(i, na, nb, nc)
  {
  }

  lemma BlockIndices(a: seq<int>, b: seq<int>, c: seq<int>, d: seq<int>)
    ensures (a + b + c + d)[|a| + |b| + |c|..] == d
    ensures a + b + c + d == a + b + c + (a + b + c + d)[|a| + |b| + |c|..]
  {
    assert (a + b + c) + d == a + b + c + d;
  }

  /** `questions_list.count(t)` over the record types. */
  function TypeCount(recs: seq<Record>, t: nat): nat {
    if recs == [] then 0 else (if recs[0].qtype == t then 1 else 0) + TypeCount(recs[1..], t)
  }

  lemma {:induction false} TypeCountConcat(a: seq<Record>, b: seq<Record>, t: nat)
    ensures TypeCount(a + b, t) == TypeCount(a, t) + TypeCount(b, t)
  {
    if a == [] {
      assert a + b == b;
    } else {
      assert (a + b)[1..] == a[1..] + b;
      TypeCountConcat(a[1..], b, t);
    }
  }

  /** A block of one type counts its length for that type, and nothing for
      the others. */
  lemma {:induction false} TypeCountBlock(a: seq<Record>, u: nat, t: nat)
    requires forall i :: 0 <= i < |a| ==> a[i].qtype == u
    ensures TypeCount(a, t) == if u == t then |a| else 0
  {
    if a != [] {
      TypeCountBlock(a[1..], u, t);
    }
  }

  /** Each type contributes its block of the zip. */
  lemma QuestionsCounts(env: Env, c: (seq<Json>, seq<int>), tf: (seq<Json>, seq<int>), b: (seq<Json>, seq<int>),
                        rs: seq<Json>, t: nat)
    ensures var q := Questions(env, c, tf, b, rs);
      var nc, nt, nb := Min(|c.0|, |c.1|), Min(|tf.0|, |tf.1|), Min(|b.0|, |b.1|);
      q.Ok? ==> TypeCount(q.value.0, t) == if t == 0 then nc else if t == 1 then nt else if t == 2 then nb
                                           else if t == 3 then |rs| else 0
  {
    var q := Questions(env, c, tf, b, rs);
    if q.Ok? {
      var zc, zt, zb := TypeRecords(env, 0, c).value, TypeRecords(env, 1, tf).value, TypeRecords(env, 2, b).value;
      var zr := Reviews(env, rs, |rs|).value;
      TypeCountConcat(zc.0 + zt.0 + zb.0, zr.0, t);
      TypeCountConcat(zc.0 + zt.0, zb.0, t);
      TypeCountConcat(zc.0, zt.0, t);
      TypeCountBlock(zc.0, 0, t);
      TypeCountBlock(zt.0, 1, t);
      TypeCountBlock(zb.0, 2, t);
      TypeCountBlock(zr.0, 3, t);
    }
  }

  /** The problem records carry the indices the distributions recorded. */
  lemma QuestionsBelow(env: Env, c: (seq<Json>, seq<int>), tf: (seq<Json>, seq<int>), b: (seq<Json>, seq<int>),
                       rs: seq<Json>, n: nat)
    requires forall k :: 0 <= k < |c.1| ==> 0 <= c.1[k] < n
    requires forall k :: 0 <= k < |tf.1| ==> 0 <= tf.1[k] < n
    requires forall k :: 0 <= k < |b.1| ==> 0 <= b.1[k] < n
    ensures var q := Questions(env, c, tf, b, rs);
      q.Ok? ==> forall i :: 0 <= i < |q.value.0| && q.value.0[i].qtype < 3 ==> 0 <= q.value.1[i] < n
  {
    var q := Questions(env, c, tf, b, rs);
    if q.Ok? {
      QuestionsShape(env, c, tf, b, rs);
      var nc, nt, nb := Min(|c.0|, |c.1|), Min(|tf.0|, |tf.1|), Min(|b.0|, |b.1|);
      var head := c.1[..nc] + tf.1[..nt] + b.1[..nb];
      assert forall k :: 0 <= k < |head| ==> 0 <= head[k] < n;
    }
  }

  // ---------------------------------------------------------------------
  // the whole article

  /** The outcome of `get_problems_for_article`, and the cache files
      afterwards. */
  datatype Assembly = Assembly(out: Outcome<(seq<Record>, seq<int>)>, stores: Stores)

  /**
   * `get_problems_for_article(chunks)` with the samples `pc`, `pt` and `pb`
   * of the three problem types. All four distributions run to the end;
   * reading their results back in submission order re-raises the first
   * exception. Each of them reads and writes only its own cache file, so
   * they are taken one after another.
   */
  function Assembled(env: Env, gen: Producer, st: Stores, chunks: seq<string>,
                     pc: seq<nat>, pt: seq<nat>, pb: seq<nat>): Assembly
    requires CanSample(pc, |chunks|, ProblemNumPerType)
    requires CanSample(pt, |chunks|, ProblemNumPerType)
    requires CanSample(pb, |chunks|, ProblemNumPerType)
  {
    var dc := Distributed(gen, Choice, st, chunks, ProblemNumPerType, pc);
    var dt := Distributed(gen, Tf, dc.stores, chunks, ProblemNumPerType, pt);
    var db := Distributed(gen, Blank, dt.stores, chunks, ProblemNumPerType, pb);
    var ds := Distributed(gen, Sum, db.stores, chunks, |chunks|, []);
    if dc.out.Raise? || dt.out.Raise? || db.out.Raise? || ds.out.Raise? then Assembly(Raise, ds.stores)
    else
      match ReviewText(ds.out.value.0, chunks)
      case Raise => Assembly(Raise, ds.stores)
      case Ok(text) =>
        var gr := gen(Review, ds.stores, text, 1);
        if gr.out.Raise? then Assembly(Raise, gr.stores)
        else Assembly(Questions(env, dc.out.value, dt.out.value, db.out.value, gr.out.value), gr.stores)
  }

  /** The records are ordered by type: choice, true/false, blank, review;
      the review, if any, is the last record and has index -1. */
  lemma AssembledOrder(env: Env, gen: Producer, st: Stores, chunks: seq<string>,
                       pc: seq<nat>, pt: seq<nat>, pb: seq<nat>)
    requires Bounded(gen)
    requires CanSample(pc, |chunks|, ProblemNumPerType)
    requires CanSample(pt, |chunks|, ProblemNumPerType)
    requires CanSample(pb, |chunks|, ProblemNumPerType)
    ensures var a := Assembled(env, gen, st, chunks, pc, pt, pb);
      a.out.Ok? ==>
        var recs, idx := a.out.value.0, a.out.value.1;
        && |recs| == |idx|
        && (forall i, j :: 0 <= i <= j < |recs| ==> recs[i].qtype <= recs[j].qtype <= 3)
        && (forall i :: 0 <= i < |recs| && recs[i].qtype == 3 ==> i == |recs| - 1 && idx[i] == -1)
  {
    var a := Assembled(env, gen, st, chunks, pc, pt, pb);
    if a.out.Ok? {
      var dc := Distributed(gen, Choice, st, chunks, ProblemNumPerType, pc);
      var dt := Distributed(gen, Tf, dc.stores, chunks, ProblemNumPerType, pt);
      var db := Distributed(gen, Blank, dt.stores, chunks, ProblemNumPerType, pb);
      var ds := Distributed(gen, Sum, db.stores, chunks, |chunks|, []);
      var gr := gen(Review, ds.stores, ReviewText(ds.out.value.0, chunks).value, 1);
      QuestionsShape(env, dc.out.value, dt.out.value, db.out.value, gr.out.value);
    }
  }

  /** At most `PROBLEM_NUM_PER_TYPE` records of each problem type and one
      review, so at most ten records in all. */
  lemma AssembledCounts(env: Env, gen: Producer, st: Stores, chunks: seq<string>,
                        pc: seq<nat>, pt: seq<nat>, pb: seq<nat>)
    requires Bounded(gen)
    requires CanSample(pc, |chunks|, ProblemNumPerType)
    requires CanSample(pt, |chunks|, ProblemNumPerType)
    requires CanSample(pb, |chunks|, ProblemNumPerType)
    ensures var a := Assembled(env, gen, st, chunks, pc, pt, pb);
      a.out.Ok? ==>
        var recs := a.out.value.0;
        && TypeCount(recs, 0) <= ProblemNumPerType
        && TypeCount(recs, 1) <= ProblemNumPerType
        && TypeCount(recs, 2) <= ProblemNumPerType
        && TypeCount(recs, 3) <= 1
        && |recs| <= 3 * ProblemNumPerType + 1
  {
    var a := Assembled(env, gen, st, chunks, pc, pt, pb);
    if a.out.Ok? {
      var dc := Distributed(gen, Choice, st, chunks, ProblemNumPerType, pc);
      var dt := Distributed(gen, Tf, dc.stores, chunks, ProblemNumPerType, pt);
      var db := Distributed(gen, Blank, dt.stores, chunks, ProblemNumPerType, pb);
      var ds := Distributed(gen, Sum, db.stores, chunks, |chunks|, []);
      var gr := gen(Review, ds.stores, ReviewText(ds.out.value.0, chunks).value, 1);
      DistributedLength(gen, Choice, st, chunks, ProblemNumPerType, pc);
      DistributedLength(gen, Tf, dc.stores, chunks, ProblemNumPerType, pt);
      DistributedLength(gen, Blank, dt.stores, chunks, ProblemNumPerType, pb);
      QuestionsShape(env, dc.out.value, dt.out.value, db.out.value, gr.out.value);
      QuestionsCounts(env, dc.out.value, dt.out.value, db.out.value, gr.out.value, 0);
      QuestionsCounts(env, dc.out.value, dt.out.value, db.out.value, gr.out.value, 1);
      QuestionsCounts(env, dc.out.value, dt.out.value, db.out.value, gr.out.value, 2);
      QuestionsCounts(env, dc.out.value, dt.out.value, db.out.value, gr.out.value, 3);
    }
  }

  /** Every problem record points at a chunk of the article. */
  lemma AssembledIndices(env: Env, gen: Producer, st: Stores, chunks: seq<string>,
                         pc: seq<nat>, pt: seq<nat>, pb: seq<nat>)
    requires Bounded(gen)
    requires CanSample(pc, |chunks|, ProblemNumPerType)
    requires CanSample(pt, |chunks|, ProblemNumPerType)
    requires CanSample(pb, |chunks|, ProblemNumPerType)
    ensures var a := Assembled(env, gen, st, chunks, pc, pt, pb);
      a.out.Ok? ==>
        forall i :: 0 <= i < |a.out.value.0| && a.out.value.0[i].qtype < 3 ==> 0 <= a.out.value.1[i] < |chunks|
  {
    var a := Assembled(env, gen, st, chunks, pc, pt, pb);
    if a.out.Ok? {
      var dc := Distributed(gen, Choice, st, chunks, ProblemNumPerType, pc);
      var dt := Distributed(gen, Tf, dc.stores, chunks, ProblemNumPerType, pt);
      var db := Distributed(gen, Blank, dt.stores, chunks, ProblemNumPerType, pb);
      var ds := Distributed(gen, Sum, db.stores, chunks, |chunks|, []);
      var gr := gen(Review, ds.stores, ReviewText(ds.out.value.0, chunks).value, 1);
      DistributedBelow(gen, Choice, st, chunks, ProblemNumPerType, pc);
      DistributedBelow(gen, Tf, dc.stores, chunks, ProblemNumPerType, pt);
      DistributedBelow(gen, Blank, dt.stores, chunks, ProblemNumPerType, pb);
      QuestionsBelow(env, dc.out.value, dt.out.value, db.out.value, gr.out.value, |chunks|);
    }
  }

  /** An article without chunks has nothing to review: `chunks[0]` raises. */
  lemma EmptyArticleRaises(env: Env, gen: Producer, st: Stores)
    ensures Assembled(env, gen, st, [], [], [], []).out.Raise?
  {
    DistNone(gen, Choice, st, [], 0, 0);
    DistNone(gen, Tf, st, [], 0, 0);
    DistNone(gen, Blank, st, [], 0, 0);
    DistNone(gen, Sum, st, [], 0, 0);
  }

  // ---------------------------------------------------------------------
  // the imperative code

  /** The `summarization += data["总结"]` loop. */
  method SummaryLoop(items: seq<Json>) returns (r: Outcome<string>)
    ensures r == Summary(items, |items|)
  {
    var summarization := "";
    for i := 0 to |items|
      invariant Summary(items, i) == Ok(summarization)
    {
      var s := SumText(items[i]);
      if s.Raise? {
        SummaryRaised(items, i + 1, |items|);
        return Raise;
      }
      summarization := summarization + s.value;
    }
    return Ok(summarization);
  }

  /** The loop over `zip(*problems[key])` for one problem type. */
  method ZipLoop(env: Env, t: nat, ps: seq<Json>, ix: seq<int>) returns (r: Outcome<(seq<Record>, seq<int>)>)
    ensures r == TypeRecords(env, t, (ps, ix))
  {
    var n := Min(|ps|, |ix|);
    var questions: seq<Record> := [];
    var index: seq<int> := [];
    for i := 0 to n
      invariant Zipped(env, t, ps, ix, i) == Ok((questions, index))
    {
      var rec := Entry(env, t, ps[i]);
      if rec.Raise? {
        ZippedRaised(env, t, ps, ix, i + 1, n);
        return Raise;
      }
      questions := questions + [rec.value];
      index := index + [ix[i]];
    }
    return Ok((questions, index));
  }

  /** The loop over `problems["review"]`. */
  method ReviewLoop(env: Env, rs: seq<Json>) returns (r: Outcome<(seq<Record>, seq<int>)>)
    ensures r == Reviews(env, rs, |rs|)
  {
    var questions: seq<Record> := [];
    var index: seq<int> := [];
    for i := 0 to |rs|
      invariant Reviews(env, rs, i) == Ok((questions, index))
    {
      var rec := ReviewRecord(env, rs[i]);
      if rec.Raise? {
        ReviewsRaised(env, rs, i + 1, |rs|);
        return Raise;
      }
      questions := questions + [rec.value];
      index := index + [-1];
    }
    return Ok((questions, index));
  }

  /** The summaries joined, or the first chunk when they are empty. */
  method SummarizeOrFirst(items: seq<Json>, chunks: seq<string>) returns (r: Outcome<string>)
    ensures r == ReviewText(items, chunks)
  {
    r := SummaryLoop(items);
    if r == Ok("") {
      if chunks == [] {
        return Raise;
      }
      r := Ok(chunks[0]);
    }
  }

  /** The records and indices, block by block. */
  method QuestionList(env: Env, c: (seq<Json>, seq<int>), tf: (seq<Json>, seq<int>), b: (seq<Json>, seq<int>),
                      rs: seq<Json>) returns (r: Outcome<(seq<Record>, seq<int>)>)
    ensures r == Questions(env, c, tf, b, rs)
  {
    var zc := ZipLoop(env, 0, c.0, c.1);
    if zc.Raise? {
      return Raise;
    }
    var zt := ZipLoop(env, 1, tf.0, tf.1);
    if zt.Raise? {
      return Raise;
    }
    var zb := ZipLoop(env, 2, b.0, b.1);
    if zb.Raise? {
      return Raise;
    }
    var zr := ReviewLoop(env, rs);
    if zr.Raise? {
      return Raise;
    }
    return Ok((zc.value.0 + zt.value.0 + zb.value.0 + zr.value.0, zc.value.1 + zt.value.1 + zb.value.1 + zr.value.1));
  }

  /** The four distributions of `get_problems_for_article`, one after
      another on the cache object. */
  method DistributeAll(env: Env, cache: ResponseCache, chunks: seq<string>,
                       pc: seq<nat>, pt: seq<nat>, pb: seq<nat>)
    returns (c: Outcome<(seq<Json>, seq<int>)>, tf: Outcome<(seq<Json>, seq<int>)>,
             b: Outcome<(seq<Json>, seq<int>)>, sum: Outcome<(seq<Json>, seq<int>)>)
    requires CanSample(pc, |chunks|, ProblemNumPerType)
    requires CanSample(pt, |chunks|, ProblemNumPerType)
    requires CanSample(pb, |chunks|, ProblemNumPerType)
    modifies cache
    ensures var gen := Generator(env);
      var dc := Distributed(gen, Choice, old(cache.stores), chunks, ProblemNumPerType, pc);
      var dt := Distributed(gen, Tf, dc.stores, chunks, ProblemNumPerType, pt);
      var db := Distributed(gen, Blank, dt.stores, chunks, ProblemNumPerType, pb);
      var ds := Distributed(gen, Sum, db.stores, chunks, |chunks|, []);
      c == dc.out && tf == dt.out && b == db.out && sum == ds.out && cache.stores == ds.stores
  {
    c := DistributeProblems(env, cache, chunks, Choice, ProblemNumPerType, pc);
    tf := DistributeProblems(env, cache, chunks, Tf, ProblemNumPerType, pt);
    b := DistributeProblems(env, cache, chunks, Blank, ProblemNumPerType, pb);
    sum := DistributeProblems(env, cache, chunks, Sum, |chunks|, []);
  }

  /** `get_problems_for_article`, run on the cache object. */
  method ProblemsForArticle(env: Env, cache: ResponseCache, chunks: seq<string>,
                            pc: seq<nat>, pt: seq<nat>, pb: seq<nat>)
    returns (r: Outcome<(seq<Record>, seq<int>)>)
    requires CanSample(pc, |chunks|, ProblemNumPerType)
    requires CanSample(pt, |chunks|, ProblemNumPerType)
    requires CanSample(pb, |chunks|, ProblemNumPerType)
    modifies cache
    ensures var a := Assembled(env, Generator(env), old(cache.stores), chunks, pc, pt, pb);
      r == a.out && cache.stores == a.stores
  {
    var c, tf, b, sum := DistributeAll(env, cache, chunks, pc, pt, pb);
    if c.Raise? || tf.Raise? || b.Raise? || sum.Raise? {
      return Raise;
    }
    var text := SummarizeOrFirst(sum.value.0, chunks);
    if text.Raise? {
      return Raise;
    }
    var review := GetProblems(env, cache, text.value, Review, 1);
    if review.Raise? {
      return Raise;
    }
    r := QuestionList(env, c.value, tf.value, b.value, review.value);
  }
}
