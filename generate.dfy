/**
 * Problem generation for one text: `get_problems`, the retry loop that asks
 * the model up to `MAX_PROBLEM_GEN_TRIES` times and accumulates the items
 * that pass the format check.
 */
module Generate {
  import opened PyValues
  import opened PyText
  import opened Services
  import opened Extract
  import opened Validate
  import opened Cache
  import opened Prompts

  /** The accumulated problems after one successful attempt: a list result
      is spliced in, anything else appended. */
  function Added(acc: seq<Json>, data: Json): (r: seq<Json>)
    ensures |r| > |acc| || (data.JList? && data.items == [])
    ensures |r| >= |acc| && r[..|acc|] == acc
  {
    if data.JList? then acc + data.items else acc + [data]
  }

  /** The problems one checked reply contributes: the items of a list, or
      the reply itself. */
  function Spliced(data: Json): seq<Json> {
    if data.JList? then data.items else [data]
  }

  /** A checked reply is spliced in by `extend` when it is a list, and
      appended whole otherwise. */
  lemma AddedSpliced(acc: seq<Json>, data: Json)
    ensures Added(acc, data) == acc + Spliced(data)
  {
  }

  /** The format check `get_problems` applies to a reply of its kind. */
  function Formatter(env: Env, kind: Kind): Json -> Outcome<Json> {
    j => ProblemFormat(env, j, kind)
  }

  /** A format check whose every result is non-empty, as
      `check_problem_format` guarantees. */
  ghost predicate NonEmptyResults(fmt: Json -> Outcome<Json>) {
    forall j :: fmt(j).Ok? ==> Truthy(fmt(j).value)
  }

  lemma FormatterNonEmpty(env: Env, kind: Kind)
    ensures NonEmptyResults(Formatter(env, kind))
  {
    forall j | Formatter(env, kind)(j).Ok? ensures Truthy(Formatter(env, kind)(j).value) {
      FormatNonEmpty(env, j, kind);
    }
  }

  /** The checked problems of an attempt: the reply's format check, or the
      exception `get_response` raised. */
  function AttemptFormat(reply: Outcome<Json>, fmt: Json -> Outcome<Json>): Outcome<Json> {
    if reply.Raise? then Raise else fmt(reply.value)
  }

  /** The outcome of one attempt: the accumulated problems, the cache files,
      the model calls made and whether the attempt raised. */
  datatype Step = Step(acc: seq<Json>, stores: Stores, calls: nat, raised: bool)

  /** Attempt `i` of the loop of `get_problems`: ask (the cache may serve
      attempt 0 only), check the format, accumulate. */
  function Attempt(env: Env, st: Stores, prompt: string, kind: Kind, fmt: Json -> Outcome<Json>,
                   i: nat, acc: seq<Json>): (s: Step)
    ensures s.calls <= 1
    ensures i > 0 || !env.useCache ==> s.calls == 1
    ensures !env.useCache ==> s.stores == st
    ensures acc <= s.acc
    ensures s.raised ==> s.acc == acc
  {
    var rep := Respond(env, st, prompt, kind, env.useCache && i == 0, i);
    match AttemptFormat(rep.out, fmt)
    case Raise => Step(acc, rep.stores, rep.calls, true)
    case Ok(data) => Step(Added(acc, data), rep.stores, rep.calls, false)
  }

  /** An attempt whose format check passes adds at least one problem. */
  lemma AttemptGrows(env: Env, st: Stores, prompt: string, kind: Kind, fmt: Json -> Outcome<Json>,
                     i: nat, acc: seq<Json>)
    requires NonEmptyResults(fmt)
    ensures var s := Attempt(env, st, prompt, kind, fmt, i, acc);
      !s.raised ==> |s.acc| > |acc|
  {
    var rep := Respond(env, st, prompt, kind, env.useCache && i == 0, i);
    var f := AttemptFormat(rep.out, fmt);
    if f.Ok? {
      assert Truthy(fmt(rep.out.value).value);
    }
  }

  /** Whether the loop stops after this attempt. */
  predicate Enough(s: Step, num: nat) {
    !s.raised && |s.acc| >= num
  }

  /** The state after the retry loop: the accumulated problems, the cache
      files, the model calls made and the attempts made. */
  datatype Gen = Gen(problems: seq<Json>, stores: Stores, calls: nat, tries: nat)

  /** The retry loop of `get_problems` from attempt `i`, with `acc`
      accumulated so far and `fmt` the format check. */
  function Attempts(env: Env, st: Stores, prompt: string, kind: Kind, fmt: Json -> Outcome<Json>,
                    num: nat, i: nat, acc: seq<Json>): (g: Gen)
    requires i <= MaxProblemGenTries
    ensures |acc| <= |g.problems|
    ensures forall k :: 0 <= k < |acc| ==> g.problems[k] == acc[k]
    ensures g.tries <= MaxProblemGenTries - i
    ensures g.calls <= g.tries <= g.calls + 1
    ensures i > 0 || !env.useCache ==> g.calls == g.tries
    ensures !env.useCache ==> g.stores == st
    decreases MaxProblemGenTries - i
  {
    if i == MaxProblemGenTries then Gen(acc, st, 0, 0)
    else
      var s := Attempt(env, st, prompt, kind, fmt, i, acc);
      if Enough(s, num) then Gen(s.acc, s.stores, s.calls, 1)
      else
        var g := Attempts(env, s.stores, prompt, kind, fmt, num, i + 1, s.acc);
        Gen(g.problems, g.stores, s.calls + g.calls, g.tries + 1)
  }

  /** One attempt of the loop, unfolded. */
  lemma AttemptsStep(env: Env, st: Stores, prompt: string, kind: Kind, fmt: Json -> Outcome<Json>,
                     num: nat, i: nat, acc: seq<Json>)
    requires i < MaxProblemGenTries
    ensures var s := Attempt(env, st, prompt, kind, fmt, i, acc);
      var g := Attempts(env, st, prompt, kind, fmt, num, i, acc);
      var rest := Attempts(env, s.stores, prompt, kind, fmt, num, i + 1, s.acc);
      g == if Enough(s, num) then Gen(s.acc, s.stores, s.calls, 1)
           else Gen(rest.problems, rest.stores, s.calls + rest.calls, rest.tries + 1)
  {
  }

  /** After the last attempt nothing more is asked. */
  lemma AttemptsDone(env: Env, st: Stores, prompt: string, kind: Kind, fmt: Json -> Outcome<Json>,
                     num: nat, acc: seq<Json>)
    ensures Attempts(env, st, prompt, kind, fmt, num, MaxProblemGenTries, acc) == Gen(acc, st, 0, 0)
    ensures AllRaised(env, st, prompt, kind, fmt, MaxProblemGenTries)
  {
  }

  /** ... and stops before its last attempt only once it has `num`
      problems. */
  lemma {:induction false} AttemptsFull(env: Env, st: Stores, prompt: string, kind: Kind,
      fmt: Json -> Outcome<Json>, num: nat, i: nat, acc: seq<Json>)
    requires i <= MaxProblemGenTries
    ensures var g := Attempts(env, st, prompt, kind, fmt, num, i, acc);
      i + g.tries < MaxProblemGenTries ==> |g.problems| >= num
    decreases MaxProblemGenTries - i
  {
    if i < MaxProblemGenTries {
      var s := Attempt(env, st, prompt, kind, fmt, i, acc);
      AttemptsStep(env, st, prompt, kind, fmt, num, i, acc);
      if !Enough(s, num) {
        AttemptsFull(env, s.stores, prompt, kind, fmt, num, i + 1, s.acc);
      }
    }
  }

  /** An attempt that passes the format check and brings the problems up
      to `num` ends the loop there: its problems and cache files are the
      loop's, with no further attempt or model call. */
  lemma AttemptsStop(env: Env, st: Stores, prompt: string, kind: Kind, fmt: Json -> Outcome<Json>,
                     num: nat, i: nat, acc: seq<Json>)
    requires i < MaxProblemGenTries
    requires var s := Attempt(env, st, prompt, kind, fmt, i, acc); !s.raised && |s.acc| >= num
    ensures var s := Attempt(env, st, prompt, kind, fmt, i, acc);
      var g := Attempts(env, st, prompt, kind, fmt, num, i, acc);
      g.problems == s.acc && g.stores == s.stores && g.tries == 1 && g.calls == s.calls
  {
    AttemptsStep(env, st, prompt, kind, fmt, num, i, acc);
  }

  /** `x` is one of the problems that some attempt from `i` on contributed:
      an item of a reply that passed the format check. */
  ghost predicate Contributed(env: Env, st: Stores, prompt: string, kind: Kind, fmt: Json -> Outcome<Json>,
                              i: nat, x: Json)
    requires i <= MaxProblemGenTries
    decreases MaxProblemGenTries - i
  {
    i < MaxProblemGenTries &&
      (var rep := Respond(env, st, prompt, kind, env.useCache && i == 0, i);
       var f := AttemptFormat(rep.out, fmt);
       (f.Ok? && x in Spliced(f.value)) || Contributed(env, rep.stores, prompt, kind, fmt, i + 1, x))
  }

  /** Every problem the loop accumulates was in hand already or came from
      an attempt's checked reply. */
  lemma {:induction false} AttemptsContributed(env: Env, st: Stores, prompt: string, kind: Kind,
      fmt: Json -> Outcome<Json>, num: nat, i: nat, acc: seq<Json>)
    requires i <= MaxProblemGenTries
    ensures forall x :: x in Attempts(env, st, prompt, kind, fmt, num, i, acc).problems ==>
      x in acc || Contributed(env, st, prompt, kind, fmt, i, x)
    decreases MaxProblemGenTries - i
  {
    if i < MaxProblemGenTries {
      var s := Attempt(env, st, prompt, kind, fmt, i, acc);
      AttemptsStep(env, st, prompt, kind, fmt, num, i, acc);
      AttemptContributes(env, st, prompt, kind, fmt, i, acc);
      AttemptsContributed(env, s.stores, prompt, kind, fmt, num, i + 1, s.acc);
    }
  }

  /** One attempt adds only items of its checked reply. */
  lemma AttemptContributes(env: Env, st: Stores, prompt: string, kind: Kind, fmt: Json -> Outcome<Json>,
                           i: nat, acc: seq<Json>)
    requires i < MaxProblemGenTries
    ensures var s := Attempt(env, st, prompt, kind, fmt, i, acc);
      && s.stores == Respond(env, st, prompt, kind, env.useCache && i == 0, i).stores
      && forall x :: x in s.acc ==> x in acc || Contributed(env, st, prompt, kind, fmt, i, x)
  {
    var rep := Respond(env, st, prompt, kind, env.useCache && i == 0, i);
    var f := AttemptFormat(rep.out, fmt);
    if f.Ok? {
      AddedSpliced(acc, f.value);
    }
  }

  /** Every attempt from `i` on raised. */
  predicate AllRaised(env: Env, st: Stores, prompt: string, kind: Kind, fmt: Json -> Outcome<Json>, i: nat)
    requires i <= MaxProblemGenTries
    decreases MaxProblemGenTries - i
  {
    i == MaxProblemGenTries ||
      (var s := Attempt(env, st, prompt, kind, fmt, i, []);
       s.raised && AllRaised(env, s.stores, prompt, kind, fmt, i + 1))
  }

  /** An attempt that raised leaves nothing accumulated: the loop goes on
      from the next attempt with nothing in hand. */
  lemma RaisedStep(env: Env, st: Stores, prompt: string, kind: Kind, fmt: Json -> Outcome<Json>,
                   num: nat, i: nat)
    requires num >= 1 && i < MaxProblemGenTries
    requires Attempt(env, st, prompt, kind, fmt, i, []).raised
    ensures var s := Attempt(env, st, prompt, kind, fmt, i, []);
      && Attempts(env, st, prompt, kind, fmt, num, i, []).problems
         == Attempts(env, s.stores, prompt, kind, fmt, num, i + 1, []).problems
      && (AllRaised(env, st, prompt, kind, fmt, i) <==> AllRaised(env, s.stores, prompt, kind, fmt, i + 1))
  {
    AttemptsStep(env, st, prompt, kind, fmt, num, i, []);
  }

  /** An attempt whose format check passed leaves the loop with problems. */
  lemma GrownStep(env: Env, st: Stores, prompt: string, kind: Kind, fmt: Json -> Outcome<Json>,
                  num: nat, i: nat)
    requires i < MaxProblemGenTries && NonEmptyResults(fmt)
    requires !Attempt(env, st, prompt, kind, fmt, i, []).raised
    ensures Attempts(env, st, prompt, kind, fmt, num, i, []).problems != []
    ensures !AllRaised(env, st, prompt, kind, fmt, i)
  {
    var s := Attempt(env, st, prompt, kind, fmt, i, []);
    AttemptsStep(env, st, prompt, kind, fmt, num, i, []);
    AttemptGrows(env, st, prompt, kind, fmt, i, []);
    if !Enough(s, num) {
      var rest := Attempts(env, s.stores, prompt, kind, fmt, num, i + 1, s.acc);
      assert |rest.problems| >= |s.acc| > 0;
    }
  }

  /** If every attempt raised, nothing was accumulated. */
  lemma {:induction false} RaisedEmpty(env: Env, st: Stores, prompt: string, kind: Kind,
                                       fmt: Json -> Outcome<Json>, num: nat, i: nat)
    requires num >= 1 && i <= MaxProblemGenTries
    requires AllRaised(env, st, prompt, kind, fmt, i)
    ensures Attempts(env, st, prompt, kind, fmt, num, i, []).problems == []
    decreases MaxProblemGenTries - i
  {
    if i == MaxProblemGenTries {
      AttemptsDone(env, st, prompt, kind, fmt, num, []);
    } else {
      var s := Attempt(env, st, prompt, kind, fmt, i, []);
      RaisedStep(env, st, prompt, kind, fmt, num, i);
      RaisedEmpty(env, s.stores, prompt, kind, fmt, num, i + 1);
    }
  }

  /** Unless every attempt raised, something was accumulated. */
  lemma {:induction false} GrownUnlessRaised(env: Env, st: Stores, prompt: string, kind: Kind,
                                             fmt: Json -> Outcome<Json>, num: nat, i: nat)
    requires num >= 1 && i <= MaxProblemGenTries && NonEmptyResults(fmt)
    requires !AllRaised(env, st, prompt, kind, fmt, i)
    ensures Attempts(env, st, prompt, kind, fmt, num, i, []).problems != []
    decreases MaxProblemGenTries - i
  {
    var s := Attempt(env, st, prompt, kind, fmt, i, []);
    if s.raised {
      RaisedStep(env, st, prompt, kind, fmt, num, i);
      GrownUnlessRaised(env, s.stores, prompt, kind, fmt, num, i + 1);
    } else {
      GrownStep(env, st, prompt, kind, fmt, num, i);
    }
  }

  /** Asking for at least one problem, the loop comes back empty exactly
      when every attempt raised. */
  lemma EmptyIffAllRaised(env: Env, st: Stores, prompt: string, kind: Kind,
                          fmt: Json -> Outcome<Json>, num: nat, i: nat)
    requires num >= 1 && i <= MaxProblemGenTries && NonEmptyResults(fmt)
    ensures Attempts(env, st, prompt, kind, fmt, num, i, []).problems == [] <==> AllRaised(env, st, prompt, kind, fmt, i)
  {
    if AllRaised(env, st, prompt, kind, fmt, i) {
      RaisedEmpty(env, st, prompt, kind, fmt, num, i);
    }
    else {
      GrownUnlessRaised(env, st, prompt, kind, fmt, num, i);
    }
  }

  /** What `get_problems` leaves behind: its outcome, the cache files and
      the model calls made. */
  datatype Generated = Generated(out: Outcome<seq<Json>>, stores: Stores, calls: nat)

  /** `problems[:num]`. */
  function Take(xs: seq<Json>, num: nat): (r: seq<Json>)
    ensures |r| <= num && |r| <= |xs| && r == xs[..|r|]
    ensures |xs| >= num ==> |r| == num
    ensures |xs| <= num ==> r == xs
  {
    if |xs| <= num then xs else xs[..num]
  }

  /** What `get_problems` does after its loop: with the cache on, store
      every accumulated problem; then return the first `num`. */
  function Finished(env: Env, st: Stores, prompt: string, kind: Kind, num: nat, problems: seq<Json>): (r: Generated)
    ensures r.out.Ok? ==> r.out.value == Take(problems, num)
    ensures r.out.Raise? <==> env.useCache && Updated(env, st, prompt, kind, JList(problems)).Raise?
    ensures r.stores == (if env.useCache && r.out.Ok? then Updated(env, st, prompt, kind, JList(problems)).value else st)
  {
    if env.useCache then
      match Updated(env, st, prompt, kind, JList(problems))
      case Raise => Generated(Raise, st, 0)
      case Ok(st') => Generated(Ok(Take(problems, num)), st', 0)
    else Generated(Ok(Take(problems, num)), st, 0)
  }

  /** `get_problems` once the prompt is rendered. */
  function ProblemsFor(env: Env, st: Stores, prompt: string, kind: Kind, num: nat): (r: Generated)
    ensures r.out.Ok? ==> |r.out.value| <= num
    ensures r.calls <= MaxProblemGenTries
    ensures !env.useCache ==> r.stores == st && r.out.Ok?
  {
    var g := Attempts(env, st, prompt, kind, Formatter(env, kind), num, 0, []);
    var f := Finished(env, g.stores, prompt, kind, num, g.problems);
    Generated(f.out, f.stores, g.calls)
  }

  /** `get_problems(text, kind, num)`: a kind without a template raises
      before anything is asked. */
  function Problems(env: Env, st: Stores, text: string, kind: Kind, num: nat): (r: Generated)
    ensures r.out.Ok? ==> |r.out.value| <= num
    ensures r.calls <= MaxProblemGenTries
    ensures kind == Judge ==> r == Generated(Raise, st, 0)
    ensures !env.useCache ==> r.stores == st
    ensures !env.useCache && kind != Judge ==> r.out.Ok?
  {
    match ProblemPrompt(kind, text, num)
    case Raise => Generated(Raise, st, 0)
    case Ok(prompt) => ProblemsFor(env, st, prompt, kind, num)
  }

  /** The problems returned are the first ones the loop accumulated, and
      the loop stopped early only once it had `num` of them. */
  lemma ProblemsPrefix(env: Env, st: Stores, prompt: string, kind: Kind, num: nat)
    ensures var g := Attempts(env, st, prompt, kind, Formatter(env, kind), num, 0, []);
      var r := ProblemsFor(env, st, prompt, kind, num);
      r.out.Ok? ==>
        && r.out.value == Take(g.problems, num)
        && (g.tries < MaxProblemGenTries ==> |r.out.value| == num)
  {
    AttemptsFull(env, st, prompt, kind, Formatter(env, kind), num, 0, []);
  }

  /** Every problem `get_problems` returns is an item of the output of
      `check_problem_format` on one of the attempts' replies. */
  lemma ProblemsContributed(env: Env, st: Stores, prompt: string, kind: Kind, num: nat)
    ensures var r := ProblemsFor(env, st, prompt, kind, num);
      r.out.Ok? ==> forall x :: x in r.out.value ==> Contributed(env, st, prompt, kind, Formatter(env, kind), 0, x)
  {
    var g := Attempts(env, st, prompt, kind, Formatter(env, kind), num, 0, []);
    AttemptsContributed(env, st, prompt, kind, Formatter(env, kind), num, 0, []);
    var r := ProblemsFor(env, st, prompt, kind, num);
    if r.out.Ok? {
      forall x | x in r.out.value ensures Contributed(env, st, prompt, kind, Formatter(env, kind), 0, x) {
        var k :| 0 <= k < |r.out.value| && r.out.value[k] == x;
        assert x == g.problems[k];
      }
    }
  }

  /** For at least one problem and the cache off, `get_problems` comes back
      empty exactly when all three attempts raised. */
  lemma ProblemsEmpty(env: Env, st: Stores, prompt: string, kind: Kind, num: nat)
    requires num >= 1 && !env.useCache
    ensures ProblemsFor(env, st, prompt, kind, num).out == Ok([]) <==>
      AllRaised(env, st, prompt, kind, Formatter(env, kind), 0)
  {
    FormatterNonEmpty(env, kind);
    EmptyIffAllRaised(env, st, prompt, kind, Formatter(env, kind), num, 0);
    var g := Attempts(env, st, prompt, kind, Formatter(env, kind), num, 0, []);
    if g.problems != [] {
      assert |Take(g.problems, num)| > 0;
    }
  }

  /** With the cache on, `update_cache` stores every accumulated problem,
      not only the `num` returned. */
  lemma CachedUntruncated(env: Env, st: Stores, prompt: string, kind: Kind, num: nat)
    requires Counted(kind) && env.useCache
    ensures var g := Attempts(env, st, prompt, kind, Formatter(env, kind), num, 0, []);
      var r := ProblemsFor(env, st, prompt, kind, num);
      r.out.Ok? ==> r.stores[kind][prompt] == JStr(env.dumps(JList(g.problems)))
  {
  }

  /** `get_problems`, run on the cache object. */
  method GetProblems(env: Env, cache: ResponseCache, text: string, kind: Kind, num: nat)
    returns (r: Outcome<seq<Json>>)
    modifies cache
    ensures var spec := Problems(env, old(cache.stores), text, kind, num);
      r == spec.out && cache.stores == spec.stores
  {
    var prompt: string;
    match ProblemPrompt(kind, text, num) {
      case Raise => return Raise;
      case Ok(p) => prompt := p;
    }
    r := AskProblems(env, cache, prompt, kind, num);
  }

  /** One attempt of the loop: ask, check, accumulate. */
  method AttemptProblems(env: Env, cache: ResponseCache, prompt: string, kind: Kind, num: nat, i: nat,
                         problems: seq<Json>)
    returns (next: seq<Json>, done: bool)
    modifies cache
    ensures var s := Attempt(env, old(cache.stores), prompt, kind, Formatter(env, kind), i, problems);
      cache.stores == s.stores && next == s.acc && done == Enough(s, num)
  {
    var response := cache.GetResponse(env, prompt, kind, env.useCache && i == 0, i);
    next, done := problems, false;
    if response.Ok? {
      var data := CheckProblemFormat(env, response.value, kind);
      if data.Ok? {
        next := Added(problems, data.value);
        done := |next| >= num;
      }
    }
  }

  /** The tail of `get_problems`: the cache update and the truncation. */
  method FinishProblems(env: Env, cache: ResponseCache, prompt: string, kind: Kind, num: nat, problems: seq<Json>)
    returns (r: Outcome<seq<Json>>)
    modifies cache
    ensures var f := Finished(env, old(cache.stores), prompt, kind, num, problems);
      r == f.out && cache.stores == f.stores
  {
    if env.useCache {
      var ok := cache.UpdateCache(env, prompt, kind, JList(problems));
      if !ok {
        return Raise;
      }
    }
    return Ok(Take(problems, num));
  }

  /** One pass of the loop of `get_problems`, against the rest of the
      loop: after a stopping attempt the loop ends here, otherwise it goes
      on from the next attempt. */
  method Advance(env: Env, cache: ResponseCache, prompt: string, kind: Kind, num: nat, i: nat,
                 problems: seq<Json>)
    returns (next: seq<Json>, done: bool)
    requires i < MaxProblemGenTries
    modifies cache
    ensures var g := Attempts(env, old(cache.stores), prompt, kind, Formatter(env, kind), num, i, problems);
      && (done ==> g.problems == next && g.stores == cache.stores)
      && (!done ==>
            && g.problems == Attempts(env, cache.stores, prompt, kind, Formatter(env, kind), num, i + 1, next).problems
            && g.stores == Attempts(env, cache.stores, prompt, kind, Formatter(env, kind), num, i + 1, next).stores)
  {
    AttemptsStep(env, cache.stores, prompt, kind, Formatter(env, kind), num, i, problems);
    next, done := AttemptProblems(env, cache, prompt, kind, num, i, problems);
  }

  /** The loop of `get_problems` for a rendered prompt. */
  method AskProblems(env: Env, cache: ResponseCache, prompt: string, kind: Kind, num: nat)
    returns (r: Outcome<seq<Json>>)
    modifies cache
    ensures var spec := ProblemsFor(env, old(cache.stores), prompt, kind, num);
      r == spec.out && cache.stores == spec.stores
  {
    ghost var fmt := Formatter(env, kind);
    ghost var goal := Attempts(env, cache.stores, prompt, kind, fmt, num, 0, []);
    var problems: seq<Json> := [];
    for i := 0 to MaxProblemGenTries
      invariant goal.problems == Attempts(env, cache.stores, prompt, kind, fmt, num, i, problems).problems
      invariant goal.stores == Attempts(env, cache.stores, prompt, kind, fmt, num, i, problems).stores
    {
      var done;
      problems, done := Advance(env, cache, prompt, kind, num, i, problems);
      if done {
        r := FinishProblems(env, cache, prompt, kind, num, problems);
        return;
      }
    }
    AttemptsDone(env, cache.stores, prompt, kind, fmt, num, problems);
    r := FinishProblems(env, cache, prompt, kind, num, problems);
  }
}
