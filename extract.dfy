/**
 * Tolerant extraction of JSON from a model reply: `jsonfy_response`, used
 * by the judging, filtering and profiling calls, and `process_json`, used
 * by the problem validators. Both clean the text and then hand it to the
 * JSON decoder, which stays abstract.
 */
module Extract {
  import opened PyValues
  import opened PyText
  import opened Services

  predicate IsOpen(c: char) { c == '[' || c == '{' }
  predicate IsClose(c: char) { c == ']' || c == '}' }

  /** Where `jsonfy_response` starts its slice: the earliest `[` or `{`,
      or 0 when the reply has neither. */
  function BeginIndex(s: string): (b: nat)
    ensures b <= |s|
    ensures '[' !in s[..b] && '{' !in s[..b]
    ensures ('[' in s || '{' in s) ==> b < |s| && IsOpen(s[b])
    ensures ('[' !in s && '{' !in s) ==> b == 0
  {
    var b1, b2 := Find(s, '['), Find(s, '{');
    var b := if b1 == -1 || b2 == -1 then (if b1 < b2 then b2 else b1)
             else (if b1 < b2 then b1 else b2);
    if b < 0 then 0 else b
  }

  /** Where it ends its slice: just past the last `]` or `}`, or the end
      of the reply when it has neither. */
  function EndIndex(s: string): (e: nat)
    ensures e <= |s|
    ensures (']' in s || '}' in s) ==> 0 < e && IsClose(s[e - 1]) && ']' !in s[e..] && '}' !in s[e..]
    ensures (']' !in s && '}' !in s) ==> e == |s|
  {
    var e1, e2 := RFind(s, ']'), RFind(s, '}');
    if e1 == -1 && e2 == -1 then |s|
    else if e1 < e2 then
      assert s[e2 + 1..] == s[e1 + 1..][e2 - e1..];
      e2 + 1
    else
      assert e2 == -1 || s[e1 + 1..] == s[e2 + 1..][e1 - e2..];
      e1 + 1
  }

  /** Python's `s[b:e]` for bounds inside the string. */
  function PySlice(s: string, b: nat, e: nat): (r: string)
    requires b <= |s| && e <= |s|
    ensures b < e ==> r == s[b..e]
    ensures b >= e ==> r == ""
  {
    if b < e then s[b..e] else ""
  }

  /** The bracketed part of a reply. */
  function Bracketed(s: string): string {
    PySlice(s, BeginIndex(s), EndIndex(s))
  }

  /** A line `jsonfy_response` drops: after stripping it starts with `//`
      or `...`. */
  predicate IsCommentLine(line: string) {
    StartsWith(Strip(line), "//") || StartsWith(Strip(line), "...")
  }

  /** Such a line is never empty. */
  lemma CommentLineNonEmpty(line: string)
    requires IsCommentLine(line)
    ensures |line| >= 2
  {
    var r := Strip(line);
    assert StartsWith(r, "//") || StartsWith(r, "...");
  }

  /** The text with every occurrence of a comment line deleted; other
      lines leave it alone. */
  function Dropped(text: string, line: string): string {
    if IsCommentLine(line) then
      CommentLineNonEmpty(line);
      Replace(text, line, "")
    else text
  }

  /** The comment-removal loop: for each line of the original split, in
      order, every occurrence of a comment line is deleted from the text. */
  function DropComments(text: string, lines: seq<string>): string
    decreases |lines|
  {
    if lines == [] then text else DropComments(Dropped(text, lines[0]), lines[1..])
  }

  /** `True`/`False` written as JSON literals. */
  function Literals(text: string): string {
    Replace(Replace(text, "True", "true"), "False", "false")
  }

  /** The text `jsonfy_response` gives `json.loads`. */
  function JsonText(s: string): string {
    var lit := Literals(Bracketed(s));
    Replace(DropComments(lit, Split(lit, '\n')), "'", "\"")
  }

  /** `jsonfy_response(s)` for a string reply; `Raise` for a decoding error. */
  function Jsonfy(env: Env, s: string): Outcome<Json> {
    match env.loads(JsonText(s))
    case Some(j) => Ok(j)
    case None => Raise
  }

  /** The comment-removal loop of `jsonfy_response`. */
  method RemoveComments(text: string, lines: seq<string>) returns (r: string)
    ensures r == DropComments(text, lines)
  {
    r := text;
    for i := 0 to |lines|
      invariant DropComments(r, lines[i..]) == DropComments(text, lines)
    {
      DropFirst(lines, i);
      if IsCommentLine(lines[i]) {
        CommentLineNonEmpty(lines[i]);
        r := Replace(r, lines[i], "");
      }
    }
  }

  /** `jsonfy_response`. */
  method JsonfyResponse(env: Env, response: string) returns (r: Outcome<Json>)
    ensures r == Jsonfy(env, response)
  {
    var text := PySlice(response, BeginIndex(response), EndIndex(response));
    text := Replace(Replace(text, "True", "true"), "False", "false");
    assert text == Literals(Bracketed(response));
    text := RemoveComments(text, Split(text, '\n'));
    match env.loads(Replace(text, "'", "\""))
    case Some(j) => r := Ok(j);
    case None => r := Raise;
  }

  /** The decoded text is cut out of the reply: the bracketed part is a
      substring of it. */
  lemma BracketedInfix(s: string)
    ensures Infix(Bracketed(s), s)
  {
    var b, e := BeginIndex(s), EndIndex(s);
    if b < e {
      InfixAt(s[b..e], s, b);
    }
  }

  /** Every single quote becomes a double quote. */
  lemma NoSingleQuotes(s: string)
    ensures '\'' !in JsonText(s)
  {
    var lit := Literals(Bracketed(s));
    ReplaceRemoves(DropComments(lit, Split(lit, '\n')), '\'', "\"");
  }

  lemma BeginWrapped(p: string, r: string)
    requires |r| > 0 && IsOpen(r[0]) && '[' !in p && '{' !in p
    ensures BeginIndex(p + r) == |p|
  {
    FindSkip(p, r, '[');
    FindSkip(p, r, '{');
    if r[0] == '[' {
      assert Find(r, '[') == 0;
    } else {
      assert Find(r, '{') == 0;
    }
  }

  lemma EndWrapped(a: string, q: string)
    requires |a| > 0 && IsClose(a[|a| - 1]) && ']' !in q && '}' !in q
    ensures EndIndex(a + q) == |a|
  {
    RFindSkip(a, q, ']');
    RFindSkip(a, q, '}');
    if a[|a| - 1] == ']' {
      assert RFind(a, ']') == |a| - 1;
    } else {
      assert RFind(a, '}') == |a| - 1;
    }
  }

  /** Chatter before and after a bracketed body is cut away: the prefix
      has no opening bracket and the suffix no closing one. */
  lemma BracketedWrapped(p: string, body: string, q: string)
    requires |body| > 0 && IsOpen(body[0]) && IsClose(body[|body| - 1])
    requires '[' !in p && '{' !in p && ']' !in q && '}' !in q
    ensures Bracketed(p + body + q) == body
  {
    var s := p + body + q;
    assert s == p + (body + q);
    assert (body + q)[0] == body[0];
    BeginWrapped(p, body + q);
    assert (p + body)[|p + body| - 1] == body[|body| - 1];
    EndWrapped(p + body, q);
    assert s[|p|..|p| + |body|] == body;
  }

  /** Lines without comment markers are never removed. */
  lemma {:induction false} NoComments(text: string, lines: seq<string>)
    requires forall i :: 0 <= i < |lines| ==> !IsCommentLine(lines[i])
    ensures DropComments(text, lines) == text
    decreases |lines|
  {
    if lines != [] {
      assert !IsCommentLine(lines[0]);
      assert forall i :: 0 <= i < |lines[1..]| ==> lines[1..][i] == lines[i + 1];
      NoComments(text, lines[1..]);
    }
  }

  /** A clean JSON text wrapped in chatter decodes as that text. */
  lemma JsonTextWrapped(p: string, body: string, q: string)
    requires |body| > 0 && IsOpen(body[0]) && IsClose(body[|body| - 1])
    requires '[' !in p && '{' !in p && ']' !in q && '}' !in q
    requires !Infix("True", body) && !Infix("False", body) && '\'' !in body
    requires forall i :: 0 <= i < |Split(body, '\n')| ==> !IsCommentLine(Split(body, '\n')[i])
    ensures JsonText(p + body + q) == body
  {
    BracketedWrapped(p, body, q);
    ReplaceNotInfix(body, "True", "true");
    ReplaceNotInfix(body, "False", "false");
    assert Literals(body) == body;
    NoComments(body, Split(body, '\n'));
    ReplaceAbsent(body, "'", "\"");
  }

  // ---------------------------------------------------------------------
  // process_json

  /** `s.replace("'", '"').strip()`. */
  function Quoted(s: string): string {
    Strip(Replace(s, "'", "\""))
  }

  /** The fallback text of `process_json`: the Markdown fences removed. */
  function Unfenced(s: string): string {
    Strip(Replace(Replace(s, "```json", ""), "```", ""))
  }

  /** `process_json(problem)`: decode leniently; on failure remove the
      fences and decode again. A reply that is not a string raises. */
  function ProcessJson(env: Env, problem: Json): (r: Outcome<Json>)
    ensures !problem.JStr? ==> r == Raise
    ensures problem.JStr? && env.loadsLenient(Quoted(problem.s)).Some? ==>
      r == Ok(env.loadsLenient(Quoted(problem.s)).value)
    ensures problem.JStr? && env.loadsLenient(Quoted(problem.s)).None? ==>
      r == (match env.loadsLenient(Quoted(Unfenced(problem.s)))
            case Some(j) => Ok(j)
            case None => Raise)
  {
    if !problem.JStr? then Raise
    else
      match env.loadsLenient(Quoted(problem.s))
      case Some(j) => Ok(j)
      case None =>
        match env.loadsLenient(Quoted(Unfenced(problem.s)))
        case Some(j) => Ok(j)
        case None => Raise
  }

  /** A body fenced as a Markdown JSON block comes out of the fallback
      without its fences. */
  lemma UnfencedBlock(body: string)
    requires '`' !in body
    ensures Unfenced("```json" + body + "```") == Strip(body)
  {
    var fence := "```";
    var s := "```json" + body + fence;
    assert s == "```json" + (body + fence);
    ReplaceFront("```json", body + fence, "");
    ReplaceSkip(body, fence, "```json", "");
    assert Replace(fence, "```json", "") == fence;
    assert Replace(s, "```json", "") == body + fence;
    ReplaceSkip(body, fence, "```", "");
    assert fence == fence + [];
    ReplaceFront(fence, [], "");
    assert Replace(body + fence, "```", "") == body;
  }

  /** So the fallback decodes the body of a fenced reply. */
  lemma ProcessFenced(env: Env, body: string)
    requires '`' !in body
    requires env.loadsLenient(Quoted("```json" + body + "```")).None?
    ensures ProcessJson(env, JStr("```json" + body + "```")) ==
      (match env.loadsLenient(Quoted(Strip(body)))
       case Some(j) => Ok(j)
       case None => Raise)
  {
    UnfencedBlock(body);
  }
}
