/**
 * The response cache of `get_response` / `update_cache` and the retry
 * helper `get_json_response_with_max_try`. Each problem kind has its own
 * cache file, a JSON object from prompts to stored replies; a kind that is
 * not in the map has no file yet.
 */
module Cache {
  import opened PyValues
  import opened Services
  import opened Extract

  type Store = map<string, Json>
  type Stores = map<Kind, Store>

  /** The cache `get_response` reads: the file's contents, or `{}`. */
  function Load(st: Stores, kind: Kind): Store {
    if kind in st then st[kind] else map[]
  }

  /** The model's reply as a value; `Raise` when the call fails. */
  function Lift(reply: Option<string>): (r: Outcome<Json>)
    ensures reply.Some? <==> r.Ok?
    ensures reply.Some? ==> r == Ok(JStr(reply.value))
  {
    match reply
    case Some(t) => Ok(JStr(t))
    case None => Raise
  }

  /** The outcome of one `get_response` call: the reply, the cache files
      afterwards and the number of model calls made (0 or 1). */
  datatype Reply = Reply(out: Outcome<Json>, stores: Stores, calls: nat)

  /** `get_response(prompt, kind, use_cache)` on attempt `attempt`. */
  function Respond(env: Env, st: Stores, prompt: string, kind: Kind, useCache: bool, attempt: nat): (r: Reply)
    ensures r.calls <= 1
    ensures !useCache ==> r == Reply(Lift(env.llm(prompt, attempt)), st, 1)
    ensures useCache && prompt in Load(st, kind) ==> r == Reply(Ok(Load(st, kind)[prompt]), st, 0)
    ensures useCache && prompt !in Load(st, kind) ==>
      r.calls == 1 && r.out == Lift(env.llm(prompt, attempt))
      && r.stores == (if r.out.Ok? then st[kind := Load(st, kind)[prompt := r.out.value]] else st)
  {
    if !useCache then Reply(Lift(env.llm(prompt, attempt)), st, 1)
    else
      var cache := Load(st, kind);
      if prompt in cache then Reply(Ok(cache[prompt]), st, 0)
      else
        match Lift(env.llm(prompt, attempt))
        case Raise => Reply(Raise, st, 1)
        case Ok(v) => Reply(Ok(v), st[kind := cache[prompt := v]], 1)
  }

  /** A call touches no other kind's cache file. */
  lemma RespondFrame(env: Env, st: Stores, prompt: string, kind: Kind, useCache: bool, attempt: nat)
    ensures var r := Respond(env, st, prompt, kind, useCache, attempt);
      && (forall k :: k != kind ==> (k in r.stores <==> k in st))
      && (forall k :: k in st && k != kind ==> r.stores[k] == st[k])
  {
  }

  /** Whether `update_cache` keeps an entry for this content: a list for
      the problem kinds, a one-item list for summaries and reviews, anything
      for the judge store. */
  predicate KeepsEntry(kind: Kind, content: Json) {
    match kind
    case Sum => content.JList? && |content.items| == 1
    case Review => content.JList? && |content.items| == 1
    case Judge => true
    case _ => content.JList?
  }

  /** The entry `update_cache` writes when it keeps one. */
  function Entry(env: Env, kind: Kind, content: Json): Json
    requires KeepsEntry(kind, content)
  {
    match kind
    case Sum => JStr(env.dumps(content.items[0]))
    case Review => JStr(env.dumps(content.items[0]))
    case Judge => content
    case _ => JStr(env.dumps(content))
  }

  /** `update_cache(prompt, kind, content)`: the file must exist; the entry
      is rewritten, or popped (a `KeyError` when there is none). */
  function Updated(env: Env, st: Stores, prompt: string, kind: Kind, content: Json): (r: Outcome<Stores>)
    ensures r.Raise? <==> kind !in st || (!KeepsEntry(kind, content) && prompt !in st[kind])
    ensures r.Ok? ==> r.value.Keys == st.Keys && forall k :: k in st && k != kind ==> r.value[k] == st[k]
    ensures r.Ok? ==> forall p :: p != prompt ==>
      (p in r.value[kind] <==> p in st[kind]) && (p in st[kind] ==> r.value[kind][p] == st[kind][p])
    ensures r.Ok? && KeepsEntry(kind, content) ==>
      prompt in r.value[kind] && r.value[kind][prompt] == Entry(env, kind, content)
    ensures r.Ok? && !KeepsEntry(kind, content) ==> prompt !in r.value[kind]
  {
    if kind !in st then Raise
    else
      var cache := st[kind];
      if KeepsEntry(kind, content) then Ok(st[kind := cache[prompt := Entry(env, kind, content)]])
      else if prompt in cache then Ok(st[kind := cache - {prompt}])
      else Raise
  }

  /** The outcome of the retry helper from attempt `i` on. */
  datatype Tried = Tried(result: Option<Json>, stores: Stores, calls: nat)

  /** What one attempt decodes and accepts, if anything: the reply must be
      a string, decode, and pass the check (a check that raises or answers
      false moves on to the next attempt). */
  function Accepted(env: Env, reply: Outcome<Json>, check: Json -> Outcome<bool>): (r: Option<Json>)
    ensures r.Some? ==> check(r.value) == Ok(true)
  {
    if reply.Ok? && reply.value.JStr? then
      match Jsonfy(env, reply.value.s)
      case Ok(d) => if check(d) == Ok(true) then Some(d) else None
      case Raise => None
    else None
  }

  /** `get_json_response_with_max_try` from attempt `i`: always the judge
      store, the cache consulted on attempt 0 only. */
  function MaxTry(env: Env, st: Stores, prompt: string, check: Json -> Outcome<bool>, maxTry: nat, i: nat): (r: Tried)
    requires i <= maxTry
    ensures r.result.Some? ==> check(r.result.value) == Ok(true)
    ensures r.calls <= maxTry - i
    ensures r.result.None? && i < maxTry && !env.useCache ==> r.calls == maxTry - i
    ensures forall k :: k != Judge ==> (k in r.stores <==> k in st) && (k in st ==> r.stores[k] == st[k])
    ensures !env.useCache ==> r.stores == st
    decreases maxTry - i
  {
    if i == maxTry then Tried(None, st, 0)
    else
      var rep := Respond(env, st, prompt, Judge, env.useCache && i == 0, i);
      RespondFrame(env, st, prompt, Judge, env.useCache && i == 0, i);
      var found := Accepted(env, rep.out, check);
      if found.Some? then Tried(found, rep.stores, rep.calls)
      else
        var rest := MaxTry(env, rep.stores, prompt, check, maxTry, i + 1);
        Tried(rest.result, rest.stores, rep.calls + rest.calls)
  }

  /** One attempt of the retry helper, unfolded. */
  lemma MaxTryStep(env: Env, st: Stores, prompt: string, check: Json -> Outcome<bool>, maxTry: nat, i: nat)
    requires i < maxTry
    ensures var rep := Respond(env, st, prompt, Judge, env.useCache && i == 0, i);
      var found := Accepted(env, rep.out, check);
      var t := MaxTry(env, st, prompt, check, maxTry, i);
      var rest := MaxTry(env, rep.stores, prompt, check, maxTry, i + 1);
      (found.Some? ==> t.result == found && t.stores == rep.stores)
      && (found.None? ==> t.result == rest.result && t.stores == rest.stores)
  {
  }

  /** What each attempt accepts with the cache off, by attempt number. */
  function Attempted(env: Env, prompt: string, check: Json -> Outcome<bool>): nat -> Option<Json> {
    (j: nat) => Accepted(env, Lift(env.llm(prompt, j)), check)
  }

  /** The first of `found(i)`, ..., `found(n - 1)` that holds a value. */
  function FirstFound(found: nat -> Option<Json>, n: nat, i: nat): Option<Json>
    requires i <= n
    decreases n - i
  {
    if i == n then None
    else if found(i).Some? then found(i)
    else FirstFound(found, n, i + 1)
  }

  lemma {:induction false} FirstFoundNone(found: nat -> Option<Json>, n: nat, i: nat)
    requires i <= n
    ensures FirstFound(found, n, i).None? <==> forall j :: i <= j < n ==> found(j).None?
    decreases n - i
  {
    if i < n {
      FirstFoundNone(found, n, i + 1);
    }
  }

  /** `found(j)` is the first value from `i` on. */
  ghost predicate FirstAt(found: nat -> Option<Json>, i: nat, j: nat) {
    i <= j && found(j).Some? && forall k :: i <= k < j ==> found(k).None?
  }

  lemma {:induction false} FirstFoundFirst(found: nat -> Option<Json>, n: nat, i: nat)
    requires i <= n
    ensures var r := FirstFound(found, n, i);
      r.Some? ==> exists j: nat :: j < n && FirstAt(found, i, j) && r == found(j)
    decreases n - i
  {
    if i < n {
      if found(i).Some? {
        assert FirstAt(found, i, i);
      } else if FirstFound(found, n, i).Some? {
        FirstFoundFirst(found, n, i + 1);
        var j: nat :| j < n && FirstAt(found, i + 1, j) && FirstFound(found, n, i + 1) == found(j);
        assert FirstAt(found, i, j);
      }
    }
  }

  /** With the cache off, attempt `i` either accepts, and that reply is
      returned, or the helper goes on as from attempt `i + 1`. */
  lemma MaxTryAt(env: Env, st: Stores, prompt: string, check: Json -> Outcome<bool>, maxTry: nat, i: nat)
    requires i < maxTry && !env.useCache
    ensures var r := MaxTry(env, st, prompt, check, maxTry, i).result;
      var found := Attempted(env, prompt, check);
      r == if found(i).Some? then found(i) else MaxTry(env, st, prompt, check, maxTry, i + 1).result
  {
    MaxTryStep(env, st, prompt, check, maxTry, i);
  }

  /** With the cache off, the helper returns the first reply, from attempt
      `i` on, that decodes and passes the check. */
  lemma {:induction false} MaxTryFound(env: Env, st: Stores, prompt: string, check: Json -> Outcome<bool>, maxTry: nat, i: nat)
    requires i <= maxTry && !env.useCache
    ensures MaxTry(env, st, prompt, check, maxTry, i).result == FirstFound(Attempted(env, prompt, check), maxTry, i)
    decreases maxTry - i
  {
    if i < maxTry {
      MaxTryAt(env, st, prompt, check, maxTry, i);
      MaxTryFound(env, st, prompt, check, maxTry, i + 1);
    }
  }

  /** With the cache off, the helper finds nothing exactly when no attempt
      from `i` on gives a reply that decodes and passes the check. */
  lemma MaxTryNone(env: Env, st: Stores, prompt: string, check: Json -> Outcome<bool>, maxTry: nat, i: nat)
    requires i <= maxTry && !env.useCache
    ensures MaxTry(env, st, prompt, check, maxTry, i).result.None? <==>
      forall j :: i <= j < maxTry ==> Attempted(env, prompt, check)(j).None?
  {
    MaxTryFound(env, st, prompt, check, maxTry, i);
    FirstFoundNone(Attempted(env, prompt, check), maxTry, i);
  }

  /** With the cache off, a reply the helper returns is the one of the
      first attempt from `i` on that decodes and passes the check. */
  lemma MaxTryFirst(env: Env, st: Stores, prompt: string, check: Json -> Outcome<bool>, maxTry: nat, i: nat)
    requires i <= maxTry && !env.useCache
    ensures var r := MaxTry(env, st, prompt, check, maxTry, i).result;
      r.Some? ==> exists j: nat :: j < maxTry && FirstAt(Attempted(env, prompt, check), i, j) && r == Attempted(env, prompt, check)(j)
  {
    MaxTryFound(env, st, prompt, check, maxTry, i);
    FirstFoundFirst(Attempted(env, prompt, check), maxTry, i);
  }

  /** A first answer that decodes to a reply the check accepts is taken. */
  lemma FirstReplyTaken(env: Env, st: Stores, prompt: string, check: Json -> Outcome<bool>, reply: string, d: Json)
    requires !env.useCache && check(d) == Ok(true)
    requires env.llm(prompt, 0) == Some(reply)
    requires env.loads(JsonText(reply)) == Some(d)
    ensures MaxTry(env, st, prompt, check, MaxProblemGenTries, 0).result == Some(d)
  {
    MaxTryFound(env, st, prompt, check, MaxProblemGenTries, 0);
    AcceptedReply(env, reply, check, d);
    assert Attempted(env, prompt, check)(0) == Some(d);
  }

  /** A reply that decodes to a value the check accepts is accepted. */
  lemma AcceptedReply(env: Env, reply: string, check: Json -> Outcome<bool>, d: Json)
    requires env.loads(JsonText(reply)) == Some(d) && check(d) == Ok(true)
    ensures Accepted(env, Lift(Some(reply)), check) == Some(d)
  {
    assert Jsonfy(env, reply) == Ok(d);
  }

  /** The cache files, updated in place. */
  class ResponseCache {
    var stores: Stores

    constructor(files: Stores)
      ensures stores == files
    {
      stores := files;
    }

    /** `get_response`. */
    method GetResponse(env: Env, prompt: string, kind: Kind, useCache: bool, attempt: nat) returns (r: Outcome<Json>)
      modifies this
      ensures var rep := Respond(env, old(stores), prompt, kind, useCache, attempt);
        r == rep.out && stores == rep.stores
    {
      if !useCache {
        return Lift(env.llm(prompt, attempt));
      }
      var cache := Load(stores, kind);
      if prompt in cache {
        return Ok(cache[prompt]);
      }
      var reply := Lift(env.llm(prompt, attempt));
      if reply.Raise? {
        return Raise;
      }
      cache := cache[prompt := reply.value];
      stores := stores[kind := cache];
      return reply;
    }

    /** `update_cache`; `false` for the exception it raises. */
    method UpdateCache(env: Env, prompt: string, kind: Kind, content: Json) returns (ok: bool)
      modifies this
      ensures var u := Updated(env, old(stores), prompt, kind, content);
        ok == u.Ok? && stores == (if u.Ok? then u.value else old(stores))
    {
      if kind !in stores {
        return false;
      }
      var cache := stores[kind];
      if KeepsEntry(kind, content) {
        cache := cache[prompt := Entry(env, kind, content)];
      } else if prompt in cache {
        cache := cache - {prompt};
      } else {
        return false;
      }
      stores := stores[kind := cache];
      return true;
    }

    /** One pass of the retry loop: ask, decode, check. */
    method TryOnce(env: Env, prompt: string, check: Json -> Outcome<bool>, i: nat) returns (found: Option<Json>)
      modifies this
      ensures var rep := Respond(env, old(stores), prompt, Judge, env.useCache && i == 0, i);
        found == Accepted(env, rep.out, check) && stores == rep.stores
    {
      var response := GetResponse(env, prompt, Judge, env.useCache && i == 0, i);
      if response.Ok? && response.value.JStr? {
        var data := JsonfyResponse(env, response.value.s);
        if data.Ok? && check(data.value) == Ok(true) {
          return Some(data.value);
        }
      }
      return None;
    }

    /** `get_json_response_with_max_try`. */
    method JsonWithMaxTry(env: Env, prompt: string, check: Json -> Outcome<bool>, maxTry: nat) returns (r: Option<Json>)
      modifies this
      ensures var t := MaxTry(env, old(stores), prompt, check, maxTry, 0);
        r == t.result && stores == t.stores
    {
      ghost var goal := MaxTry(env, stores, prompt, check, maxTry, 0);
      for i := 0 to maxTry
        invariant goal.result == MaxTry(env, stores, prompt, check, maxTry, i).result
        invariant goal.stores == MaxTry(env, stores, prompt, check, maxTry, i).stores
      {
        MaxTryStep(env, stores, prompt, check, maxTry, i);
        var found := TryOnce(env, prompt, check, i);
        if found.Some? {
          return found;
        }
      }
      return None;
    }
  }
}
