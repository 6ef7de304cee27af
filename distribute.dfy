/**
 * Spreading the problems of one type over the chunks of an article:
 * `get_problem_for_each_article_per_type`. At most `nums` chunks are
 * used (a random sample when there are more); the first chunk used asks
 * for `nums // M + nums % M` problems and every other one for `nums // M`,
 * where `M` is the number of chunks used, and each chunk's index is
 * recorded once per problem asked for, not per problem delivered.
 */
module Distribute {
  import opened PyValues
  import opened Services
  import opened Cache
  import opened Generate

  /** A problem source: `get_problems` for a kind, a cache state, a text
      and a count. */
  type Producer = (Kind, Stores, string, nat) -> Generated

  /** `get_problems` itself as a problem source. */
  function Generator(env: Env): Producer {
    (k: Kind, st: Stores, t: string, n: nat) => Problems(env, st, t, k, n)
  }

  /** A source that never delivers more than it is asked for. */
  ghost predicate Bounded(gen: Producer) {
    forall k, st, t, n :: gen(k, st, t, n).out.Ok? ==> |gen(k, st, t, n).out.value| <= n
  }

  lemma GeneratorBounded(env: Env)
    ensures Bounded(Generator(env))
  {
    forall k, st, t, n | Generator(env)(k, st, t, n).out.Ok?
      ensures |Generator(env)(k, st, t, n).out.value| <= n
    {
      var r := Problems(env, st, t, k, n);
    }
  }

  predicate Distinct(xs: seq<nat>) {
    forall i, j :: 0 <= i < j < |xs| ==> xs[i] != xs[j]
  }

  /** What `random.sample(range(n), nums)` may return: `nums` distinct
      indices below `n`, in any order. */
  predicate Sample(pick: seq<nat>, n: nat, nums: nat) {
    |pick| == nums && Distinct(pick) && forall i :: 0 <= i < |pick| ==> pick[i] < n
  }

  /** The sample is only drawn when there are more chunks than problems. */
  predicate CanSample(pick: seq<nat>, n: nat, nums: nat) {
    n <= nums || Sample(pick, n, nums)
  }

  /** `range(n)`. */
  function Range(n: nat): (r: seq<nat>)
    ensures |r| == n && forall i :: 0 <= i < n ==> r[i] == i
  {
    if n == 0 then [] else Range(n - 1) + [n - 1]
  }

  /** The indices of the chunks used: all of them, or the sample. */
  function Chosen(n: nat, nums: nat, pick: seq<nat>): seq<nat> {
    if n <= nums then Range(n) else pick
  }

  /** The number of problems asked of the `i`-th chunk used, when each
      gets `q` and the first also the remainder `rem`. */
  function Share(q: nat, rem: nat, i: nat): nat {
    q + (if i == 0 then rem else 0)
  }

  /** `nums // M` and `nums % M` for `M` chunks used (nothing is asked
      when none is used). */
  function Quota(nums: nat, m: nat): (nat, nat) {
    if m == 0 then (0, 0) else (nums / m, nums % m)
  }

  /** `[x] * k`. */
  function Repeat(x: int, k: nat): (r: seq<int>)
    ensures |r| == k
  {
    if k == 0 then [] else Repeat(x, k - 1) + [x]
  }

  /** The outcome of the distribution: the problems and chunk indices, and
      the cache files afterwards. */
  datatype Dist = Dist(out: Outcome<(seq<Json>, seq<int>)>, stores: Stores)

  /** The loop from the `i`-th chunk used on, with `ps` and `idx` gathered
      so far; an exception from `get_problems` ends it. */
  function DistFrom(gen: Producer, kind: Kind, st: Stores, chunks: seq<string>, q: nat, rem: nat,
                    chosen: seq<nat>, i: nat, ps: seq<Json>, idx: seq<int>): Dist
    requires i <= |chosen| && forall j :: 0 <= j < |chosen| ==> chosen[j] < |chunks|
    decreases |chosen| - i
  {
    if i == |chosen| then Dist(Ok((ps, idx)), st)
    else
      var num := Share(q, rem, i);
      var g := gen(kind, st, chunks[chosen[i]], num);
      match g.out
      case Raise => Dist(Raise, g.stores)
      case Ok(got) => DistFrom(gen, kind, g.stores, chunks, q, rem, chosen, i + 1, ps + got, idx + Repeat(chosen[i], num))
  }

  /** `get_problem_for_each_article_per_type(chunks, kind, nums)`, with the
      sample `pick`. */
  function Distributed(gen: Producer, kind: Kind, st: Stores, chunks: seq<string>, nums: nat,
                       pick: seq<nat>): Dist
    requires CanSample(pick, |chunks|, nums)
  {
    RangeBelow(|chunks|);
    var c := Chosen(|chunks|, nums, pick);
    var (q, rem) := Quota(nums, |c|);
    DistFrom(gen, kind, st, chunks, q, rem, c, 0, [], [])
  }

  lemma RangeBelow(n: nat)
    ensures forall j :: 0 <= j < |Range(n)| ==> Range(n)[j] < n
  {
  }

  /** The chunk indices a run records, chunk by chunk from the `i`-th. */
  function Spread(chosen: seq<nat>, q: nat, rem: nat, i: nat): seq<int>
    requires i <= |chosen|
    decreases |chosen| - i
  {
    if i == |chosen| then [] else Repeat(chosen[i], Share(q, rem, i)) + Spread(chosen, q, rem, i + 1)
  }

  // ---------------------------------------------------------------------
  // properties

  /** The chunks used are distinct chunks of the article, as many as the
      smaller of the chunk count and `nums`. */
  lemma ChosenDistinct(n: nat, nums: nat, pick: seq<nat>)
    requires CanSample(pick, n, nums)
    ensures var c := Chosen(n, nums, pick);
      && Distinct(c)
      && (forall j :: 0 <= j < |c| ==> c[j] < n)
      && |c| == (if n <= nums then n else nums)
  {
  }

  /** A run that ends normally has recorded exactly the indices of
      `Spread`, whatever the source delivered. */
  lemma {:induction false} DistIndex(gen: Producer, kind: Kind, st: Stores, chunks: seq<string>, q: nat, rem: nat,
                                     chosen: seq<nat>, i: nat, ps: seq<Json>, idx: seq<int>)
    requires i <= |chosen| && forall j :: 0 <= j < |chosen| ==> chosen[j] < |chunks|
    ensures var d := DistFrom(gen, kind, st, chunks, q, rem, chosen, i, ps, idx);
      d.out.Ok? ==> d.out.value.1 == idx + Spread(chosen, q, rem, i)
    decreases |chosen| - i
  {
    if i < |chosen| {
      var num := Share(q, rem, i);
      var g := gen(kind, st, chunks[chosen[i]], num);
      if g.out.Ok? {
        var idx' := idx + Repeat(chosen[i], num);
        DistIndex(gen, kind, g.stores, chunks, q, rem, chosen, i + 1, ps + g.out.value, idx');
        assert idx' + Spread(chosen, q, rem, i + 1) == idx + Spread(chosen, q, rem, i);
      }
    }
  }

  /** A bounded source delivers no more problems than indices are
      recorded. */
  lemma {:induction false} DistDelivered(gen: Producer, kind: Kind, st: Stores, chunks: seq<string>, q: nat, rem: nat,
                                         chosen: seq<nat>, i: nat, ps: seq<Json>, idx: seq<int>)
    requires Bounded(gen)
    requires i <= |chosen| && forall j :: 0 <= j < |chosen| ==> chosen[j] < |chunks|
    ensures var d := DistFrom(gen, kind, st, chunks, q, rem, chosen, i, ps, idx);
      d.out.Ok? ==> |d.out.value.0| <= |ps| + |Spread(chosen, q, rem, i)|
    decreases |chosen| - i
  {
    if i < |chosen| {
      var num := Share(q, rem, i);
      var g := gen(kind, st, chunks[chosen[i]], num);
      if g.out.Ok? {
        DistDelivered(gen, kind, g.stores, chunks, q, rem, chosen, i + 1, ps + g.out.value, idx + Repeat(chosen[i], num));
      }
    }
  }

  /** Without chunks nothing is asked and nothing changes. */
  lemma DistNone(gen: Producer, kind: Kind, st: Stores, chunks: seq<string>, q: nat, rem: nat)
    requires chunks == []
    ensures DistFrom(gen, kind, st, chunks, q, rem, [], 0, [], []) == Dist(Ok(([], [])), st)
  {
  }

  /** The shares from the `i`-th chunk on: `q` each, plus the remainder
      when the first is among them. */
  lemma {:induction false} SpreadLength(chosen: seq<nat>, q: nat, rem: nat, i: nat)
    requires i <= |chosen|
    ensures |Spread(chosen, q, rem, i)| == (|chosen| - i) * q + (if i == 0 < |chosen| then rem else 0)
    decreases |chosen| - i
  {
    if i < |chosen| {
      SpreadLength(chosen, q, rem, i + 1);
      var m := |chosen| - i;
      assert (m - 1) * q + q == m * q;
    }
  }

  /** How often `x` is recorded from the `i`-th chunk on: its share there,
      if it is that chunk, plus what follows. */
  lemma SpreadSplit(chosen: seq<nat>, q: nat, rem: nat, i: nat, x: int)
    requires i < |chosen|
    ensures Count(Spread(chosen, q, rem, i), x)
         == (if chosen[i] == x then Share(q, rem, i) else 0) + Count(Spread(chosen, q, rem, i + 1), x)
  {
    var here, rest := Repeat(chosen[i], Share(q, rem, i)), Spread(chosen, q, rem, i + 1);
    assert Spread(chosen, q, rem, i) == here + rest;
    CountConcat(here, rest, x);
    RepeatCount(chosen[i], Share(q, rem, i), x);
  }

  /** No index outside the chunks from the `i`-th on is recorded. */
  lemma {:induction false} SpreadFrom(chosen: seq<nat>, q: nat, rem: nat, i: nat, x: int)
    requires i <= |chosen|
    requires forall j :: i <= j < |chosen| ==> chosen[j] != x
    ensures Count(Spread(chosen, q, rem, i), x) == 0
    decreases |chosen| - i
  {
    if i < |chosen| {
      SpreadSplit(chosen, q, rem, i, x);
      SpreadFrom(chosen, q, rem, i + 1, x);
    }
  }

  lemma {:induction false} RepeatCount(x: int, k: nat, y: int)
    ensures Count(Repeat(x, k), y) == if x == y then k else 0
    decreases k
  {
    if k > 0 {
      RepeatCount(x, k - 1, y);
      CountConcat(Repeat(x, k - 1), [x], y);
    }
  }

  /** `xs.count(x)`. */
  function Count(xs: seq<int>, x: int): nat {
    if xs == [] then 0 else Count(xs[..|xs| - 1], x) + (if xs[|xs| - 1] == x then 1 else 0)
  }

  lemma {:induction false} CountConcat(xs: seq<int>, ys: seq<int>, x: int)
    ensures Count(xs + ys, x) == Count(xs, x) + Count(ys, x)
    decreases |ys|
  {
    if ys != [] {
      var zs := ys[..|ys| - 1];
      assert (xs + ys)[..|xs + ys| - 1] == xs + zs;
      CountConcat(xs, zs, x);
    } else {
      assert xs + ys == xs;
    }
  }

  /** A chunk used once from the `i`-th on is recorded exactly as many
      times as problems were asked of it. */
  lemma {:induction false} SpreadCount(chosen: seq<nat>, q: nat, rem: nat, i: nat, j: nat)
    requires i <= j < |chosen|
    requires forall k :: i <= k < |chosen| && k != j ==> chosen[k] != chosen[j]
    ensures Count(Spread(chosen, q, rem, i), chosen[j]) == Share(q, rem, j)
    decreases |chosen| - i
  {
    var x := chosen[j];
    SpreadSplit(chosen, q, rem, i, x);
    if i == j {
      SpreadFrom(chosen, q, rem, i + 1, x);
    } else {
      assert chosen[i] != x;
      SpreadCount(chosen, q, rem, i + 1, j);
    }
  }

  /** The recorded indices of a run as a whole, in terms of `Spread`. */
  lemma DistributedIndex(gen: Producer, kind: Kind, st: Stores, chunks: seq<string>, nums: nat, pick: seq<nat>)
    requires Bounded(gen) && CanSample(pick, |chunks|, nums)
    ensures var d := Distributed(gen, kind, st, chunks, nums, pick);
      var c := Chosen(|chunks|, nums, pick);
      var (q, rem) := Quota(nums, |c|);
      d.out.Ok? ==> d.out.value.1 == Spread(c, q, rem, 0) && |d.out.value.0| <= |d.out.value.1|
  {
    var c := Chosen(|chunks|, nums, pick);
    RangeBelow(|chunks|);
    var (q, rem) := Quota(nums, |c|);
    DistIndex(gen, kind, st, chunks, q, rem, c, 0, [], []);
    DistDelivered(gen, kind, st, chunks, q, rem, c, 0, [], []);
  }

  /** With at least one chunk, exactly `nums` indices are recorded, so a
      bounded source delivers at most `nums` problems. */
  lemma DistributedLength(gen: Producer, kind: Kind, st: Stores, chunks: seq<string>, nums: nat, pick: seq<nat>)
    requires Bounded(gen) && CanSample(pick, |chunks|, nums)
    ensures var d := Distributed(gen, kind, st, chunks, nums, pick);
      d.out.Ok? ==>
        && (chunks != [] ==> |d.out.value.1| == nums)
        && |d.out.value.0| <= |d.out.value.1| <= nums
  {
    var c := Chosen(|chunks|, nums, pick);
    ChosenDistinct(|chunks|, nums, pick);
    DistributedIndex(gen, kind, st, chunks, nums, pick);
    SpreadTotal(c, nums);
  }

  /** Shared out over the chunks used, the quota adds up to `nums`. */
  lemma SpreadTotal(chosen: seq<nat>, nums: nat)
    ensures var (q, rem) := Quota(nums, |chosen|);
      |Spread(chosen, q, rem, 0)| == if chosen == [] then 0 else nums
  {
    var (q, rem) := Quota(nums, |chosen|);
    SpreadLength(chosen, q, rem, 0);
    if chosen != [] {
      assert |chosen| * q + rem == nums;
    }
  }

  /** The first chunk used is recorded `nums // M + nums % M` times, every
      other one `nums // M` times, and no other index appears. */
  lemma DistributedCounts(gen: Producer, kind: Kind, st: Stores, chunks: seq<string>, nums: nat, pick: seq<nat>)
    requires Bounded(gen) && CanSample(pick, |chunks|, nums)
    ensures var d := Distributed(gen, kind, st, chunks, nums, pick);
      var c := Chosen(|chunks|, nums, pick);
      d.out.Ok? ==>
        && (forall x :: x !in c ==> Count(d.out.value.1, x) == 0)
        && (|c| > 0 ==> Count(d.out.value.1, c[0]) == nums / |c| + nums % |c|)
        && (forall j :: 0 < j < |c| ==> Count(d.out.value.1, c[j]) == nums / |c|)
  {
    var c := Chosen(|chunks|, nums, pick);
    ChosenDistinct(|chunks|, nums, pick);
    DistributedIndex(gen, kind, st, chunks, nums, pick);
    var (q, rem) := Quota(nums, |c|);
    forall x | x !in c ensures Count(Spread(c, q, rem, 0), x) == 0 {
      SpreadFrom(c, q, rem, 0, x);
    }
    if |c| > 0 {
      forall j | 0 <= j < |c| ensures Count(Spread(c, q, rem, 0), c[j]) == Share(q, rem, j) {
        assert forall k :: 0 <= k < |c| && k != j ==> c[k] != c[j];
        SpreadCount(c, q, rem, 0, j);
      }
    }
  }

  /** Every recorded index is the index of a chunk of the article. */
  lemma DistributedBelow(gen: Producer, kind: Kind, st: Stores, chunks: seq<string>, nums: nat, pick: seq<nat>)
    requires Bounded(gen) && CanSample(pick, |chunks|, nums)
    ensures var d := Distributed(gen, kind, st, chunks, nums, pick);
      d.out.Ok? ==> forall k :: 0 <= k < |d.out.value.1| ==> 0 <= d.out.value.1[k] < |chunks|
  {
    var d := Distributed(gen, kind, st, chunks, nums, pick);
    if d.out.Ok? {
      var c := Chosen(|chunks|, nums, pick);
      ChosenDistinct(|chunks|, nums, pick);
      DistributedCounts(gen, kind, st, chunks, nums, pick);
      forall k | 0 <= k < |d.out.value.1| ensures 0 <= d.out.value.1[k] < |chunks| {
        CountMember(d.out.value.1, k);
      }
    }
  }

  /** An item of a list is counted in it. */
  lemma {:induction false} CountMember(xs: seq<int>, k: nat)
    requires k < |xs|
    ensures Count(xs, xs[k]) > 0
    decreases |xs|
  {
    if k < |xs| - 1 {
      var ys := xs[..|xs| - 1];
      assert ys[k] == xs[k];
      CountMember(ys, k);
    }
  }

  /** The index list counts problems asked for, not problems delivered:
      when the first of two chunks delivers one problem instead of two,
      the second chunk's problem is paired with the first chunk's index. */
  lemma ZipMisattributes(st: Stores)
    ensures var gen: Producer := (k: Kind, s: Stores, t: string, n: nat) =>
              Generated(Ok([JStr(t)]), s, 1);
      var d := Distributed(gen, Choice, st, ["a", "b"], 3, []);
      d.out == Ok(([JStr("a"), JStr("b")], [0, 0, 1]))
  {
    var gen: Producer := (k: Kind, s: Stores, t: string, n: nat) => Generated(Ok([JStr(t)]), s, 1);
    var chunks := ["a", "b"];
    var c := Chosen(2, 3, []);
    assert c == [0, 1];
    assert Quota(3, 2) == (1, 1);
    var two := [JStr("a"), JStr("b")];
    assert [JStr("a")] + [JStr("b")] == two;
    assert [0, 0] + Repeat(1, 1) == [0, 0, 1];
    assert [] + [JStr("a")] == [JStr("a")];
    assert [] + Repeat(0, 2) == [0, 0];
    DistFromStep(gen, Choice, st, chunks, 1, 1, c, 1, [JStr("a")], [0, 0]);
    DistFromStep(gen, Choice, st, chunks, 1, 1, c, 0, [], []);
    DistFromDone(gen, Choice, st, chunks, 1, 1, c, two, [0, 0, 1]);
  }

  /** One turn of the loop, for any source. */
  lemma DistFromStep(gen: Producer, kind: Kind, st: Stores, chunks: seq<string>, q: nat, rem: nat,
                     chosen: seq<nat>, i: nat, ps: seq<Json>, idx: seq<int>)
    requires i < |chosen| && forall j :: 0 <= j < |chosen| ==> chosen[j] < |chunks|
    ensures var num := Share(q, rem, i);
      var g := gen(kind, st, chunks[chosen[i]], num);
      DistFrom(gen, kind, st, chunks, q, rem, chosen, i, ps, idx)
        == if g.out.Raise? then Dist(Raise, g.stores)
           else DistFrom(gen, kind, g.stores, chunks, q, rem, chosen, i + 1, ps + g.out.value, idx + Repeat(chosen[i], num))
  {
  }

  /** One turn of the distribution loop. */
  method DistStep(env: Env, ghost gen: Producer, cache: ResponseCache, chunks: seq<string>, kind: Kind, q: nat, rem: nat,
                  chosen: seq<nat>, i: nat, problems: seq<Json>, index: seq<int>)
    returns (raised: bool, problems': seq<Json>, index': seq<int>)
    requires gen == Generator(env)
    requires i < |chosen| && forall j :: 0 <= j < |chosen| ==> chosen[j] < |chunks|
    modifies cache
    ensures var d := DistFrom(gen, kind, old(cache.stores), chunks, q, rem, chosen, i, problems, index);
      && (raised ==> d == Dist(Raise, cache.stores))
      && (!raised ==> d == DistFrom(gen, kind, cache.stores, chunks, q, rem, chosen, i + 1, problems', index'))
  {
    var num := q;
    if i == 0 {
      num := num + rem;
    }
    assert num == Share(q, rem, i);
    DistFromStep(gen, kind, cache.stores, chunks, q, rem, chosen, i, problems, index);
    ghost var g := gen(kind, cache.stores, chunks[chosen[i]], num);
    assert g == Problems(env, cache.stores, chunks[chosen[i]], kind, num);
    var got := GetProblems(env, cache, chunks[chosen[i]], kind, num);
    assert got == g.out && cache.stores == g.stores;
    if got.Raise? {
      return true, problems, index;
    }
    return false, problems + got.value, index + Repeat(chosen[i], num);
  }

  /** The loop of `get_problem_for_each_article_per_type` over the chunks
      used. */
  method DistLoop(env: Env, ghost gen: Producer, cache: ResponseCache, chunks: seq<string>, kind: Kind,
                  q: nat, rem: nat, chosen: seq<nat>)
    returns (r: Outcome<(seq<Json>, seq<int>)>)
    requires gen == Generator(env)
    requires forall j :: 0 <= j < |chosen| ==> chosen[j] < |chunks|
    modifies cache
    ensures var d := DistFrom(gen, kind, old(cache.stores), chunks, q, rem, chosen, 0, [], []);
      r == d.out && cache.stores == d.stores
  {
    ghost var goal := DistFrom(gen, kind, cache.stores, chunks, q, rem, chosen, 0, [], []);
    var problems: seq<Json> := [];
    var index: seq<int> := [];
    for i := 0 to |chosen|
      invariant DistFrom(gen, kind, cache.stores, chunks, q, rem, chosen, i, problems, index) == goal
    {
      var raised;
      raised, problems, index := DistStep(env, gen, cache, chunks, kind, q, rem, chosen, i, problems, index);
      if raised {
        return Raise;
      }
    }
    DistFromDone(gen, kind, cache.stores, chunks, q, rem, chosen, problems, index);
    return Ok((problems, index));
  }

  /** `get_problem_for_each_article_per_type`, run on the cache object. */
  method DistributeProblems(env: Env, cache: ResponseCache, chunks: seq<string>, kind: Kind, nums: nat,
                            pick: seq<nat>)
    returns (r: Outcome<(seq<Json>, seq<int>)>)
    requires CanSample(pick, |chunks|, nums)
    modifies cache
    ensures var d := Distributed(Generator(env), kind, old(cache.stores), chunks, nums, pick);
      r == d.out && cache.stores == d.stores
  {
    var chosen := if |chunks| <= nums then Range(|chunks|) else pick;
    ChosenDistinct(|chunks|, nums, pick);
    var q, rem := 0, 0;
    if |chosen| > 0 {
      q, rem := nums / |chosen|, nums % |chosen|;
    }
    assert (q, rem) == Quota(nums, |chosen|);
    r := DistLoop(env, Generator(env), cache, chunks, kind, q, rem, chosen);
  }

  /** A loop past the last chunk delivers what it has gathered. */
  lemma DistFromDone(gen: Producer, kind: Kind, st: Stores, chunks: seq<string>, q: nat, rem: nat,
                     chosen: seq<nat>, ps: seq<Json>, idx: seq<int>)
    requires forall j :: 0 <= j < |chosen| ==> chosen[j] < |chunks|
    ensures DistFrom(gen, kind, st, chunks, q, rem, chosen, |chosen|, ps, idx) == Dist(Ok((ps, idx)), st)
  {
  }
}
