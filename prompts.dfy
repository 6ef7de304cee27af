/**
 * The prompts the generation pipeline sends: one template per problem
 * kind (the `PROBLEM_PROMPT_FUNC` table, which has no entry for the judge
 * store), the judging prompt and the fixed review question.
 */
module Prompts {
  import opened PyValues
  import opened PyText
  import opened Services

  /** The request shared by the three question templates; the number of
      questions follows it. */
  const Asking: string := "以上是一篇arxiv论文，你是一位博士生导师，请向你的博士生提出"

  /** `REVIEW_QUESTION`, the text of every review question. */
  const ReviewQuestion: string := "在通读文章后，请你指出该论文的优点和缺点。"

  const JudgeOpening: string := "你是一个博士生导师, "
  const JudgeKnowledge: string := "你的学生在阅读了一篇论文后写下了他对这个论文的一个总结, 这篇论文的摘要为"
  const JudgeUser: string := "你的学生的回答如下: "
  const JudgeStandard: string := "\n一个标准的回答是："
  const JudgeAsk: string := "请你给出对你的学生回答内容的评价, 注意你应该模拟面对面与学生交谈的口吻回答, 并且注意标准答案实际上是你阅读完论文后的回答, 请不要生硬的在评价中提及,【严格采用json格式】：\n{'评分': **, '评价': **}, "
  const JudgePassing: string := "注意你的评分应该是一个0-100的整数。并且如果你的评分大于"
  const JudgeClosing: string := "，那么我会认为你大致认可你的学生的回答。"

  /** The kinds whose template states how many questions to ask. */
  predicate Counted(kind: Kind) {
    kind == Choice || kind == Tf || kind == Blank
  }

  /** The template text after the count, or after the article for the
      summary and review templates, which take no number. */
  function Tail(kind: Kind): string {
    match kind
    case Choice => "道四选一选择题，考察他对论文的掌握程度，并给出答案。考察对论文宏观的理解把握，不要考察能简单根据图表回答的问题。你的问题应该有足够的多样性。你的问题格式应该【严格采用json格式】，不要有多余的字眼：\n[{'问题': **, 'A': *, 'B', *, 'C': *, 'D': *, '正确答案': *}, ...]"
    case Tf => "道判断题，考察他对论文的掌握程度，并给出答案（用正确/错误表示）。考察对论文宏观的理解把握，不要考察能简单根据图表回答的问题。你的问题应该有足够的多样性，问题应该是一个【陈述句】。你的问题格式应该【严格采用json格式】，不要有多余的字眼：\n[{'问题': **, '答案': *}, ...]"
    case Blank => "道填空题，其中每一道题只能有一个空，用下划线表示，考察他对论文的掌握程度，并给出答案。考察对论文宏观的理解把握，不要考察能简单根据图表回答的问题。你的问题应该有足够的多样性，问题的【答案长度不超过20】。你的问题格式应该【严格采用json格式】，不要有多余的字眼：\n[{'问题': **, '答案': *}, ...]"
    case Sum => "以上是一篇arxiv论文的一部分，请你详细介绍该部分的内容，你的回复不少于300字。你的回复格式应该【严格采用json格式】，不要有多余的字眼：\n{'总结': **}"
    case Review => "以上是一篇arxiv论文的简要总结，你是一位该领域的审稿人，请你指出该论文的优点和缺点。注意，在分析缺点时，由于只给出了总结，你应该考虑总结中内容的缺点，而不要考虑总结中缺失或者未详细说明的内容。你的回复格式应该【严格采用json格式】，不要有多余的字眼：\n{'优点': [**, **, ...], '缺点': [**, **, ...]}"
    case Judge => ""
  }

  /** What a template appends to the article. */
  function Request(kind: Kind, num: nat): string {
    RequestWith(Counted(kind), num, Tail(kind))
  }

  /** A request with the given tail, counted or not. */
  function RequestWith(counted: bool, num: nat, tail: string): string {
    if counted then Asking + NatToString(num) + tail else tail
  }

  /** `PROBLEM_PROMPT_FUNC[kind](text, num)`; the judge store has no
      template, so the lookup raises. */
  function ProblemPrompt(kind: Kind, text: string, num: nat): (r: Outcome<string>)
    ensures r.Raise? <==> kind == Judge
    ensures r.Ok? ==> StartsWith(r.value, Strip(text) + "\n\n")
  {
    if kind == Judge then Raise
    else
      var head := Strip(text) + "\n\n";
      assert (head + Request(kind, num))[..|head|] == head;
      Ok(head + Request(kind, num))
  }

  lemma SuffixCancel<T>(a: seq<T>, b: seq<T>, t: seq<T>)
    requires a + t == b + t
    ensures a == b
  {
    assert a == (a + t)[..|a|];
    assert b == (b + t)[..|b|];
  }

  /** A digit run after a text that does not end in a digit is cut off
      at the same place. */
  lemma DigitsCancel(p1: string, d1: string, p2: string, d2: string)
    requires p1 + d1 == p2 + d2
    requires |p1| > 0 && !IsDigit(p1[|p1| - 1]) && |p2| > 0 && !IsDigit(p2[|p2| - 1])
    requires forall i :: 0 <= i < |d1| ==> IsDigit(d1[i])
    requires forall i :: 0 <= i < |d2| ==> IsDigit(d2[i])
    ensures p1 == p2 && d1 == d2
  {
    var x := p1 + d1;
    assert p1 == x[..|p1|] && p2 == x[..|p2|];
    assert d1 == x[|p1|..] && d2 == x[|p2|..];
  }

  lemma NatToStringInjective(n: nat, m: nat)
    requires NatToString(n) == NatToString(m)
    ensures n == m
  {
    NatToStringValue(n);
    NatToStringValue(m);
  }

  /** A counted template: its request ends in a character that is not a
      digit, so the count and the text can be read back. */
  lemma CountedKey(s1: string, n: nat, s2: string, m: nat, ask: string, tail: string)
    requires |ask| > 0 && !IsDigit(ask[|ask| - 1])
    requires s1 + "\n\n" + (ask + NatToString(n) + tail) == s2 + "\n\n" + (ask + NatToString(m) + tail)
    ensures s1 == s2 && n == m
  {
    var p1, p2 := s1 + "\n\n" + ask, s2 + "\n\n" + ask;
    assert p1 + NatToString(n) + tail == s1 + "\n\n" + (ask + NatToString(n) + tail);
    assert p2 + NatToString(m) + tail == s2 + "\n\n" + (ask + NatToString(m) + tail);
    SuffixCancel(p1 + NatToString(n), p2 + NatToString(m), tail);
    assert p1[|p1| - 1] == ask[|ask| - 1] == p2[|p2| - 1];
    DigitsCancel(p1, NatToString(n), p2, NatToString(m));
    NatToStringInjective(n, m);
    SuffixCancel(s1 + "\n\n", s2 + "\n\n", ask);
    SuffixCancel(s1, s2, "\n\n");
  }

  /** An uncounted template. */
  lemma PlainKey(s1: string, s2: string, tail: string)
    requires s1 + "\n\n" + tail == s2 + "\n\n" + tail
    ensures s1 == s2
  {
    SuffixCancel(s1 + "\n\n", s2 + "\n\n", tail);
    SuffixCancel(s1, s2, "\n\n");
  }

  lemma AskingEnd()
    ensures |Asking| > 0 && !IsDigit(Asking[|Asking| - 1])
  {
    assert Asking[|Asking| - 1] == '出';
  }

  /** Requests of one template under one stripped text tell the text
      and, when counted, the count. */
  lemma RequestKey(counted: bool, tail: string, s1: string, n: nat, s2: string, m: nat)
    requires s1 + "\n\n" + RequestWith(counted, n, tail) == s2 + "\n\n" + RequestWith(counted, m, tail)
    ensures s1 == s2 && (counted ==> n == m)
  {
    if counted {
      AskingEnd();
      CountedKey(s1, n, s2, m, Asking, tail);
    } else {
      PlainKey(s1, s2, tail);
    }
  }

  /** Prompts are cache keys: two requests of one kind share a key only
      when their stripped texts agree and, for the counted kinds, so do the
      numbers of questions asked... */
  lemma PromptKeyTells(kind: Kind, a: string, n: nat, b: string, m: nat)
    requires kind != Judge
    requires ProblemPrompt(kind, a, n) == ProblemPrompt(kind, b, m)
    ensures Strip(a) == Strip(b) && (Counted(kind) ==> n == m)
  {
    RequestKey(Counted(kind), Tail(kind), Strip(a), n, Strip(b), m);
  }

  /** ... and such requests do share a key. */
  lemma PromptKeySame(kind: Kind, a: string, n: nat, b: string, m: nat)
    requires kind != Judge
    requires Strip(a) == Strip(b) && (Counted(kind) ==> n == m)
    ensures ProblemPrompt(kind, a, n) == ProblemPrompt(kind, b, m)
  {
    RequestSame(Counted(kind), Tail(kind), n, m);
  }

  /** Only a counted request depends on the count. */
  lemma RequestSame(counted: bool, tail: string, n: nat, m: nat)
    requires counted ==> n == m
    ensures RequestWith(counted, n, tail) == RequestWith(counted, m, tail)
  {
  }



  /** The optional abstract sentence of the judging prompt. */
  function Knowledge(prior: Option<string>): string {
    match prior
    case None => ""
    case Some(k) => JudgeKnowledge + k + ". "
  }

  /** The fixed end of the judging prompt, with the passing score. */
  const JudgeRest: string := "\n" + JudgeAsk + JudgePassing + IntToString(PassedScore) + JudgeClosing

  /** `JUDGE_ANSWER_PROMPT(user_answer, standard_answer, prior_knowledge)`. */
  function JudgePrompt(user: string, standard: string, prior: Option<string>): string {
    JudgeOpening + Knowledge(prior) + JudgeUser + user + JudgeStandard + standard + JudgeRest
  }

  lemma InfixMiddle(a: string, x: string, b: string)
    ensures Infix(x, a + x + b)
  {
    assert (a + x + b)[|a|..|a| + |x|] == x;
    InfixAt(x, a + x + b, |a|);
  }

  /** The judging prompt's shape, with its fixed parts as parameters. */
  lemma AnswersShape(a: string, x: string, b: string, y: string, c: string)
    ensures Infix(x, a + x + b + y + c) && Infix(y, a + x + b + y + c)
  {
    assert a + x + b + y + c == a + x + (b + y + c);
    InfixMiddle(a, x, b + y + c);
    InfixMiddle(a + x + b, y, c);
  }

  lemma KnowledgeShape(o: string, kk: string, v: string, dot: string, rest: seq<string>, r: string)
    requires |rest| == 5 && r == o + (kk + v + dot) + rest[0] + rest[1] + rest[2] + rest[3] + rest[4]
    ensures Infix(v, r)
  {
    var tail := dot + rest[0] + rest[1] + rest[2] + rest[3] + rest[4];
    assert r == o + kk + v + tail;
    InfixMiddle(o + kk, v, tail);
  }

  /** The judging prompt quotes both answers, and the abstract when one is
      given. */
  lemma JudgePromptMentions(user: string, standard: string, prior: Option<string>)
    ensures var r := JudgePrompt(user, standard, prior);
      Infix(user, r) && Infix(standard, r) && (prior.Some? ==> Infix(prior.value, r))
  {
    var k := Knowledge(prior);
    AnswersShape(JudgeOpening + k + JudgeUser, user, JudgeStandard, standard, JudgeRest);
    if prior.Some? {
      KnowledgeShape(JudgeOpening, JudgeKnowledge, prior.value, ". ",
        [JudgeUser, user, JudgeStandard, standard, JudgeRest], JudgePrompt(user, standard, prior));
    }
  }
}
