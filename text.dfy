/**
 * The Python string operations the core relies on: whitespace splitting
 * and stripping, `find`/`rfind`, `replace`, `split`/`join` on one
 * separator, `lower`/`capitalize`, `str(int)` and `int(str)`.
 */
module PyText {
  import opened PyValues

  /** `str.isspace()` for one character: the characters `str.split()` and
      `str.strip()` with no argument treat as whitespace. */
  predicate IsSpace(c: char) {
    c == ' ' || ('\t' <= c <= '\r') || ('\U{1c}' <= c <= '\U{1f}')
    || c == '\U{85}' || c == '\U{a0}' || c == '\U{1680}'
    || ('\U{2000}' <= c <= '\U{200a}') || c == '\U{2028}' || c == '\U{2029}'
    || c == '\U{202f}' || c == '\U{205f}' || c == '\U{3000}'
  }

  predicate AllSpace(s: string) {
    forall i :: 0 <= i < |s| ==> IsSpace(s[i])
  }

  /** A token of `str.split()`: non-empty, without whitespace. */
  predicate IsWord(w: string) {
    |w| > 0 && forall i :: 0 <= i < |w| ==> !IsSpace(w[i])
  }

  /** `s` with its leading whitespace removed. */
  function DropSpace(s: string): (r: string)
    ensures |r| <= |s| && r == s[|s| - |r|..]
    ensures r == [] || !IsSpace(r[0])
  {
    if s != [] && IsSpace(s[0]) then DropSpace(s[1..]) else s
  }

  lemma {:induction false} DropSpacePrefix(s: string)
    ensures AllSpace(s[..|s| - |DropSpace(s)|])
    decreases |s|
  {
    if s != [] && IsSpace(s[0]) {
      DropSpacePrefix(s[1..]);
      var r := DropSpace(s);
      assert s[..|s| - |r|] == [s[0]] + s[1..][..|s| - 1 - |r|];
    }
  }

  /** `s` with its trailing whitespace removed. */
  function DropSpaceEnd(s: string): (r: string)
    ensures |r| <= |s| && r == s[..|r|]
    ensures r == [] || !IsSpace(r[|r| - 1])
  {
    if s != [] && IsSpace(s[|s| - 1]) then DropSpaceEnd(s[..|s| - 1]) else s
  }

  lemma {:induction false} DropSpaceEndSuffix(s: string)
    ensures AllSpace(s[|DropSpaceEnd(s)|..])
    decreases |s|
  {
    if s != [] && IsSpace(s[|s| - 1]) {
      DropSpaceEndSuffix(s[..|s| - 1]);
      var r := DropSpaceEnd(s);
      assert s[|r|..] == s[..|s| - 1][|r|..] + [s[|s| - 1]];
    }
  }

  /** The longest prefix of `s` without whitespace. */
  function TakeWord(s: string): (w: string)
    ensures |w| <= |s| && w == s[..|w|]
    ensures |w| < |s| ==> IsSpace(s[|w|])
  {
    if s == [] || IsSpace(s[0]) then [] else [s[0]] + TakeWord(s[1..])
  }

  lemma {:induction false} TakeWordNoSpace(s: string)
    ensures forall i :: 0 <= i < |TakeWord(s)| ==> !IsSpace(s[i])
    decreases |s|
  {
    if s != [] && !IsSpace(s[0]) {
      TakeWordNoSpace(s[1..]);
    }
  }

  /** Python's `s.strip()`. */
  function Strip(s: string): (r: string)
    ensures r == [] || (!IsSpace(r[0]) && !IsSpace(r[|r| - 1]))
    ensures |r| <= |s|
  {
    DropSpaceEnd(DropSpace(s))
  }

  /** Python's `s.split()`: the maximal runs of non-whitespace. */
  function Words(s: string): seq<string>
    decreases |s|
  {
    var t := DropSpace(s);
    if t == [] then []
    else
      var w := TakeWord(t);
      [w] + Words(t[|w|..])
  }

  /** Every token of `s.split()` is a word. */
  lemma {:induction false} WordsAreWords(s: string)
    ensures forall w :: w in Words(s) ==> IsWord(w)
    decreases |s|
  {
    var t := DropSpace(s);
    if t != [] {
      var w := TakeWord(t);
      TakeWordNoSpace(t);
      assert IsWord(w) by {
        assert t[0] == w[0];
      }
      WordsAreWords(t[|w|..]);
      assert Words(s) == [w] + Words(t[|w|..]);
    }
  }

  /** `len(s.split())`. */
  function WordCount(s: string): nat {
    |Words(s)|
  }

  /** `sep.join(xs)`. */
  function Join(sep: string, xs: seq<string>): string
    decreases |xs|
  {
    if xs == [] then ""
    else if |xs| == 1 then xs[0]
    else xs[0] + sep + Join(sep, xs[1..])
  }

  /** `" ".join(ws)`. */
  function JoinSpace(ws: seq<string>): string {
    Join(" ", ws)
  }

  lemma {:induction false} JoinSnoc(sep: string, xs: seq<string>, y: string)
    requires xs != []
    ensures Join(sep, xs + [y]) == Join(sep, xs) + sep + y
    decreases |xs|
  {
    if |xs| == 1 {
      assert xs + [y] == [xs[0], y];
    } else {
      assert (xs + [y])[1..] == xs[1..] + [y];
      JoinSnoc(sep, xs[1..], y);
    }
  }

  lemma AllSpaceConcat(s: string, u: string)
    requires AllSpace(s) && AllSpace(u)
    ensures AllSpace(s + u)
  {
    forall i | 0 <= i < |s + u| ensures IsSpace((s + u)[i]) {
      if i < |s| { assert (s + u)[i] == s[i]; } else { assert (s + u)[i] == u[i - |s|]; }
    }
  }

  lemma {:induction false} AllSpaceDrop(s: string)
    requires AllSpace(s)
    ensures DropSpace(s) == []
    decreases |s|
  {
    if s != [] {
      assert IsSpace(s[0]);
      AllSpaceDrop(s[1..]);
    }
  }

  lemma {:induction false} DropSpaceAppend(s: string, u: string)
    requires DropSpace(s) != []
    ensures DropSpace(s + u) == DropSpace(s) + u
    decreases |s|
  {
    assert (s + u)[0] == s[0];
    if IsSpace(s[0]) {
      assert (s + u)[1..] == s[1..] + u;
      DropSpaceAppend(s[1..], u);
    }
  }

  lemma {:induction false} DropSpaceAllSpace(s: string, u: string)
    requires AllSpace(s)
    ensures DropSpace(s + u) == DropSpace(u)
    decreases |s|
  {
    if s == [] {
      assert s + u == u;
    } else {
      assert (s + u)[0] == s[0];
      assert (s + u)[1..] == s[1..] + u;
      DropSpaceAllSpace(s[1..], u);
    }
  }

  lemma {:induction false} TakeWordAppend(t: string, u: string)
    requires u == [] || IsSpace(u[0]) || |TakeWord(t)| < |t|
    ensures TakeWord(t + u) == TakeWord(t)
    decreases |t|
  {
    if t != [] {
      assert (t + u)[0] == t[0];
      if !IsSpace(t[0]) {
        assert (t + u)[1..] == t[1..] + u;
        TakeWordAppend(t[1..], u);
      }
    } else {
      assert t + u == u;
    }
  }

  lemma AllSpaceNoWords(s: string)
    requires AllSpace(s)
    ensures Words(s) == []
  {
    AllSpaceDrop(s);
  }

  /** Trailing whitespace does not change the words. */
  lemma {:induction false} WordsTrailingSpace(s: string, u: string)
    requires AllSpace(u)
    ensures Words(s + u) == Words(s)
    decreases |s|
  {
    var t := DropSpace(s);
    if t == [] {
      DropSpacePrefix(s);
      assert s[..|s|] == s;
      AllSpaceConcat(s, u);
      AllSpaceNoWords(s + u);
    } else {
      DropSpaceAppend(s, u);
      var w := TakeWord(t);
      TakeWordAppend(t, u);
      SliceAppend(t, u, |w|);
      WordsTrailingSpace(t[|w|..], u);
      assert Words(s + u) == [w] + Words(t[|w|..] + u);
    }
  }

  lemma SliceAppend(t: string, u: string, k: nat)
    requires k <= |t|
    ensures (t + u)[k..] == t[k..] + u
  {
  }

  /** Leading whitespace does not change the words. */
  lemma WordsLeadingSpace(s: string, u: string)
    requires AllSpace(s)
    ensures Words(s + u) == Words(u)
  {
    DropSpaceAllSpace(s, u);
  }

  lemma SplitAt(s: string, k: nat)
    requires k <= |s|
    ensures s == s[..k] + s[k..]
  {
  }

  /** Stripping never changes the words of a string. */
  lemma WordsStrip(s: string)
    ensures Words(Strip(s)) == Words(s)
  {
    var d := DropSpace(s);
    var k := |s| - |d|;
    DropSpacePrefix(s);
    SplitAt(s, k);
    WordsLeadingSpace(s[..k], d);
    var e := DropSpaceEnd(d);
    DropSpaceEndSuffix(d);
    SplitAt(d, |e|);
    WordsTrailingSpace(e, d[|e|..]);
  }

  /** A word followed by a space and more text contributes exactly itself. */
  lemma WordsCons(w: string, rest: string)
    requires IsWord(w)
    ensures Words(w + " " + rest) == [w] + Words(" " + rest)
  {
    var s := w + " " + rest;
    assert s[0] == w[0];
    assert DropSpace(s) == s;
    assert s == w + (" " + rest);
    assert TakeWord(w) == w by {
      WordNoSpaceTake(w);
    }
    TakeWordAppend(w, " " + rest);
    assert s[|w|..] == " " + rest;
  }

  lemma {:induction false} WordNoSpaceTake(w: string)
    requires forall i :: 0 <= i < |w| ==> !IsSpace(w[i])
    ensures TakeWord(w) == w
    decreases |w|
  {
    if w != [] {
      assert !IsSpace(w[0]);
      WordNoSpaceTake(w[1..]);
    }
  }

  lemma WordsSingle(w: string)
    requires IsWord(w)
    ensures Words(w) == [w]
  {
    assert !IsSpace(w[0]);
    assert DropSpace(w) == w;
    WordNoSpaceTake(w);
    assert w[|w|..] == [];
    assert Words(w) == [w] + Words([]);
  }

  lemma WordsConsSpace(w: string, rest: string)
    requires IsWord(w)
    ensures Words(w + " " + rest) == [w] + Words(rest)
  {
    WordsCons(w, rest);
    assert AllSpace(" ");
    WordsLeadingSpace(" ", rest);
  }

  /** `" ".join` of words splits back into the same words. */
  lemma {:induction false} WordsJoinSpace(ws: seq<string>)
    requires forall w :: w in ws ==> IsWord(w)
    ensures Words(JoinSpace(ws)) == ws
    decreases |ws|
  {
    if ws == [] {
    } else if |ws| == 1 {
      WordsSingle(ws[0]);
    } else {
      var rest := ws[1..];
      assert JoinSpace(ws) == ws[0] + " " + JoinSpace(rest);
      WordsConsSpace(ws[0], JoinSpace(rest));
      assert forall w :: w in rest ==> w in ws;
      WordsJoinSpace(rest);
      HeadTail(ws);
    }
  }

  lemma AppendAssoc<T>(a: seq<T>, b: seq<T>, c: seq<T>)
    ensures a + (b + c) == (a + b) + c
  {
  }

  lemma AppendEmpty<T>(a: seq<T>)
    ensures [] + a == a && a + [] == a
  {
  }

  lemma DropFirst<T>(xs: seq<T>, i: nat)
    requires i < |xs|
    ensures xs[i..][0] == xs[i] && xs[i..][1..] == xs[i + 1..]
  {
  }

  lemma DropNone<T>(xs: seq<T>)
    ensures xs[0..] == xs
  {
  }

  lemma HeadTail<T>(xs: seq<T>)
    requires |xs| > 0
    ensures [xs[0]] + xs[1..] == xs
  {
  }

  /** `" ".join(s.split()[:n])` has exactly `n` words. */
  lemma WordCountTake(s: string, n: nat)
    requires n <= |Words(s)|
    ensures WordCount(JoinSpace(Words(s)[..n])) == n
  {
    WordsAreWords(s);
    var ws := Words(s)[..n];
    assert forall w :: w in ws ==> w in Words(s);
    WordsJoinSpace(ws);
  }

  /** `" ".join(s.split()[n:])` has the remaining words. */
  lemma WordCountDrop(s: string, n: nat)
    requires n <= |Words(s)|
    ensures WordCount(JoinSpace(Words(s)[n..])) == |Words(s)| - n
  {
    WordsAreWords(s);
    var ws := Words(s)[n..];
    assert forall w :: w in ws ==> w in Words(s);
    WordsJoinSpace(ws);
  }

  // ---------------------------------------------------------------------
  // find, rfind, startswith, replace

  /** Python's `s.find(c)` for one character. */
  function Find(s: string, c: char): (r: int)
    ensures -1 <= r < |s|
    ensures r == -1 <==> c !in s
    ensures r >= 0 ==> s[r] == c && c !in s[..r]
  {
    if s == [] then -1
    else if s[0] == c then 0
    else
      var k := Find(s[1..], c);
      if k == -1 then -1
      else
        assert s[..k + 1] == [s[0]] + s[1..][..k];
        k + 1
  }

  /** Python's `s.rfind(c)` for one character. */
  function RFind(s: string, c: char): (r: int)
    ensures -1 <= r < |s|
    ensures r == -1 <==> c !in s
    ensures r >= 0 ==> s[r] == c && c !in s[r + 1..]
  {
    if s == [] then -1
    else if s[|s| - 1] == c then |s| - 1
    else
      var init := s[..|s| - 1];
      var k := RFind(init, c);
      assert s == init + [s[|s| - 1]];
      if k == -1 then -1
      else
        assert s[k + 1..] == init[k + 1..] + [s[|s| - 1]];
        k
  }

  predicate StartsWith(s: string, p: string) {
    |p| <= |s| && s[..|p|] == p
  }

  /** Python's `s.replace(old, new)` for a non-empty `old`: every
      occurrence, left to right, without overlap. */
  function Replace(s: string, pat: string, rep: string): string
    requires pat != []
    decreases |s|
  {
    if StartsWith(s, pat) then rep + Replace(s[|pat|..], pat, rep)
    else if s == [] then []
    else [s[0]] + Replace(s[1..], pat, rep)
  }

  /** Replacing by the empty string never lengthens the text. */
  lemma {:induction false} ReplaceShrinks(s: string, pat: string)
    requires pat != []
    ensures |Replace(s, pat, "")| <= |s|
    decreases |s|
  {
    if StartsWith(s, pat) {
      ReplaceShrinks(s[|pat|..], pat);
    } else if s != [] {
      ReplaceShrinks(s[1..], pat);
    }
  }

  /** Text lacking the first character of `old` is left alone. */
  lemma {:induction false} ReplaceAbsent(s: string, pat: string, rep: string)
    requires pat != [] && pat[0] !in s
    ensures Replace(s, pat, rep) == s
    decreases |s|
  {
    if s != [] {
      assert s[0] != pat[0];
      assert s[1..] == s[1..];
      ReplaceAbsent(s[1..], pat, rep);
    }
  }

  /** Replacing one character by text that lacks it removes it entirely. */
  lemma {:induction false} ReplaceRemoves(s: string, c: char, rep: string)
    requires c !in rep
    ensures c !in Replace(s, [c], rep)
    decreases |s|
  {
    if StartsWith(s, [c]) {
      ReplaceRemoves(s[1..], c, rep);
    } else if s != [] {
      ReplaceRemoves(s[1..], c, rep);
    }
  }

  /** Text in which `old` does not occur is left alone. */
  lemma {:induction false} ReplaceNotInfix(s: string, pat: string, rep: string)
    requires pat != [] && !Infix(pat, s)
    ensures Replace(s, pat, rep) == s
    decreases |s|
  {
    if s != [] {
      assert !StartsWith(s, pat);
      ReplaceNotInfix(s[1..], pat, rep);
      HeadTail(s);
    }
  }

  /** A prefix lacking the first character of `old` passes through. */
  lemma {:induction false} ReplaceSkip(a: string, b: string, pat: string, rep: string)
    requires pat != [] && pat[0] !in a
    ensures Replace(a + b, pat, rep) == a + Replace(b, pat, rep)
    decreases |a|
  {
    if a == [] {
      assert a + b == b;
    } else {
      assert (a + b)[0] == a[0];
      assert (a + b)[1..] == a[1..] + b;
      ReplaceSkip(a[1..], b, pat, rep);
      assert a + Replace(b, pat, rep) == [a[0]] + (a[1..] + Replace(b, pat, rep));
    }
  }

  /** An occurrence of `old` at the front is replaced. */
  lemma ReplaceFront(pat: string, b: string, rep: string)
    requires pat != []
    ensures Replace(pat + b, pat, rep) == rep + Replace(b, pat, rep)
  {
    assert (pat + b)[..|pat|] == pat;
    assert (pat + b)[|pat|..] == b;
  }

  /** Stripping twice is stripping once. */
  lemma StripStrip(s: string)
    ensures Strip(Strip(s)) == Strip(s)
  {
    var r := Strip(s);
    if r != [] {
      assert DropSpace(r) == r;
      assert DropSpaceEnd(r) == r;
    }
  }

  /** `find` past a prefix that lacks the character. */
  lemma {:induction false} FindSkip(p: string, a: string, c: char)
    requires c !in p
    ensures Find(p + a, c) == if Find(a, c) < 0 then -1 else |p| + Find(a, c)
    decreases |p|
  {
    if p == [] {
      assert p + a == a;
    } else {
      assert (p + a)[0] == p[0];
      assert (p + a)[1..] == p[1..] + a;
      FindSkip(p[1..], a, c);
    }
  }

  /** `rfind` before a suffix that lacks the character. */
  lemma {:induction false} RFindSkip(a: string, q: string, c: char)
    requires c !in q
    ensures RFind(a + q, c) == RFind(a, c)
    decreases |q|
  {
    if q == [] {
      assert a + q == a;
    } else {
      var s := a + q;
      assert s[|s| - 1] == q[|q| - 1];
      assert s[..|s| - 1] == a + q[..|q| - 1];
      RFindSkip(a, q[..|q| - 1], c);
    }
  }

  // ---------------------------------------------------------------------
  // split and join on one separator

  /** Python's `s.split(c)` for a one-character separator. */
  function Split(s: string, c: char): (r: seq<string>)
    ensures |r| >= 1
    ensures forall p :: p in r ==> c !in p
    decreases |s|
  {
    if s == [] then [""]
    else if s[0] == c then [""] + Split(s[1..], c)
    else
      var rest := Split(s[1..], c);
      [[s[0]] + rest[0]] + rest[1..]
  }

  /** Joining the pieces of a split with the separator gives the text back. */
  lemma {:induction false} JoinSplit(s: string, c: char)
    ensures Join([c], Split(s, c)) == s
    decreases |s|
  {
    if s == [] {
    } else if s[0] == c {
      JoinSplit(s[1..], c);
    } else {
      var rest := Split(s[1..], c);
      JoinSplit(s[1..], c);
      if |rest| == 1 {
      } else {
        assert Join([c], rest) == rest[0] + [c] + Join([c], rest[1..]);
        var r := [[s[0]] + rest[0]] + rest[1..];
        assert r[1..] == rest[1..];
      }
    }
  }

  /** A piece without the separator splits to itself. */
  lemma {:induction false} SplitNone(w: string, c: char)
    requires c !in w
    ensures Split(w, c) == [w]
    decreases |w|
  {
    if w != [] {
      assert w[0] != c;
      SplitNone(w[1..], c);
      assert [w[0]] + w[1..] == w;
    }
  }

  lemma {:induction false} SplitPrefix(w: string, c: char, rest: string)
    requires c !in w
    ensures Split(w + [c] + rest, c) == [w] + Split(rest, c)
    decreases |w|
  {
    if w == [] {
      assert w + [c] + rest == [c] + rest;
    } else {
      var s := w + [c] + rest;
      assert s[0] == w[0] && w[0] != c;
      assert s[1..] == w[1..] + [c] + rest;
      SplitPrefix(w[1..], c, rest);
      var r := Split(s[1..], c);
      assert r[0] == w[1..] && r[1..] == Split(rest, c);
      assert [s[0]] + r[0] == w;
    }
  }

  /** Splitting a join of separator-free pieces gives the pieces back;
      this needs at least one piece, since `"".split(c)` is `[""]`. */
  lemma {:induction false} SplitJoin(xs: seq<string>, c: char)
    requires xs != []
    requires forall x :: x in xs ==> c !in x
    ensures Split(Join([c], xs), c) == xs
    decreases |xs|
  {
    if |xs| == 1 {
      SplitNone(xs[0], c);
    } else {
      SplitPrefix(xs[0], c, Join([c], xs[1..]));
      SplitJoin(xs[1..], c);
    }
  }

  /** The last piece of a split is the text after the last separator. */
  lemma LastPiece(s: string, c: char)
    ensures var r := Split(s, c)[|Split(s, c)| - 1];
            |r| <= |s| && r == s[|s| - |r|..] && (|r| == |s| || s[|s| - |r| - 1] == c)
  {
    var ps := Split(s, c);
    JoinSplit(s, c);
    if |ps| > 1 {
      assert ps == ps[..|ps| - 1] + [ps[|ps| - 1]];
      JoinSnoc([c], ps[..|ps| - 1], ps[|ps| - 1]);
    }
  }

  /** The first piece of a split is the text before the first separator. */
  lemma FirstPiece(a: string, c: char, b: string)
    requires c !in a
    ensures Split(a + [c] + b, c)[0] == a
  {
    SplitPrefix(a, c, b);
  }

  // ---------------------------------------------------------------------
  // case

  function LowerChar(c: char): char {
    if 'A' <= c <= 'Z' then (c as int + 32) as char else c
  }

  function UpperChar(c: char): char {
    if 'a' <= c <= 'z' then (c as int - 32) as char else c
  }

  /** Python's `s.lower()` on ASCII letters. */
  function Lower(s: string): (r: string)
    ensures |r| == |s|
    ensures forall i :: 0 <= i < |s| ==> r[i] == LowerChar(s[i])
  {
    if s == [] then [] else [LowerChar(s[0])] + Lower(s[1..])
  }

  /** Python's `s.capitalize()` on ASCII letters: the first character
      upper-cased, the rest lower-cased. */
  function Capitalize(s: string): (r: string)
    ensures |r| == |s|
    ensures |s| > 0 ==> r[0] == UpperChar(s[0]) && r[1..] == Lower(s[1..])
  {
    if s == [] then [] else [UpperChar(s[0])] + Lower(s[1..])
  }

  // ---------------------------------------------------------------------
  // integers

  predicate IsDigit(c: char) {
    '0' <= c <= '9'
  }

  function DigitChar(d: nat): (c: char)
    requires d < 10
    ensures IsDigit(c)
  {
    ('0' as int + d) as char
  }

  function NatToString(n: nat): (r: string)
    ensures |r| > 0
    ensures forall i :: 0 <= i < |r| ==> IsDigit(r[i])
  {
    if n < 10 then [DigitChar(n)] else NatToString(n / 10) + [DigitChar(n % 10)]
  }

  /** Text made of digits, with an optional leading minus sign. */
  predicate IntText(s: string) {
    forall i :: 0 <= i < |s| ==> IsDigit(s[i]) || (i == 0 && s[i] == '-')
  }

  /** Python's `str(n)` for an integer. */
  function IntToString(n: int): (r: string)
    ensures |r| > 0 && IntText(r)
    ensures (r[0] == '-') <==> n < 0
  {
    if n < 0 then "-" + NatToString(-n) else NatToString(n)
  }

  /** The digits of a Python integer literal body: digits, with single
      underscores allowed between two digits. */
  predicate DigitsOk(s: string) {
    && |s| > 0 && IsDigit(s[0]) && IsDigit(s[|s| - 1])
    && DigitsOrUnderscores(s)
    && forall i :: 0 <= i < |s| - 1 && s[i] == '_' ==> IsDigit(s[i + 1])
  }

  predicate DigitsOrUnderscores(s: string) {
    forall i :: 0 <= i < |s| ==> IsDigit(s[i]) || s[i] == '_'
  }

  /** The value of a digit string, underscores skipped. */
  function DigitsValue(s: string): nat
    requires DigitsOrUnderscores(s)
    decreases |s|
  {
    if s == [] then 0
    else
      var init, last := s[..|s| - 1], s[|s| - 1];
      assert DigitsOrUnderscores(init) by {
        forall i | 0 <= i < |init| ensures IsDigit(init[i]) || init[i] == '_' {
          assert init[i] == s[i];
        }
      }
      if last == '_' then DigitsValue(init)
      else
        assert IsDigit(last);
        10 * DigitsValue(init) + (last as int - '0' as int)
  }

  /** The digits of `int(s)` after the sign, or `None` for a `ValueError`. */
  function ParseDigits(body: string): (r: Option<nat>)
    ensures r.Some? <==> DigitsOk(body)
  {
    if DigitsOk(body) then
      Some(DigitsValue(body))
    else None
  }

  /** Python's `int(s)` for ASCII digits: surrounding whitespace, an
      optional sign, then digits; `None` stands for the `ValueError`. */
  function ParseInt(s: string): Option<int> {
    ParseSigned(Strip(s))
  }

  /** `int(t)` for text without surrounding whitespace. */
  function ParseSigned(t: string): (r: Option<int>)
    ensures t != [] && IsDigit(t[0]) ==> r == ParseDigitsInt(t)
  {
    if t == [] then None
    else if t[0] == '-' || t[0] == '+' then
      match ParseDigits(t[1..])
      case None => None
      case Some(v) => var k: int := v; Some(if t[0] == '-' then -k else k)
    else ParseDigitsInt(t)
  }

  function ParseDigitsInt(t: string): Option<int> {
    match ParseDigits(t)
    case None => None
    case Some(v) => Some(v)
  }

  lemma AllDigitsOk(s: string)
    requires |s| > 0 && forall i :: 0 <= i < |s| ==> IsDigit(s[i])
    ensures DigitsOk(s)
  {
  }

  lemma {:induction false} NatToStringValue(n: nat)
    ensures ParseDigits(NatToString(n)) == Some(n)
  {
    var r := NatToString(n);
    AllDigitsOk(r);
    var init, d := r[..|r| - 1], DigitChar(n % 10);
    if n < 10 {
      assert r == [d] && init == [];
    } else {
      assert r == NatToString(n / 10) + [d];
      assert init == NatToString(n / 10);
      NatToStringValue(n / 10);
    }
    assert r[|r| - 1] == d && d as int - '0' as int == n % 10;
    assert DigitsValue(r) == 10 * DigitsValue(init) + n % 10;
  }

  lemma NoSpaceStrip(s: string)
    requires IntText(s)
    ensures Strip(s) == s
  {
    if s != [] {
      assert !IsSpace(s[0]);
      assert !IsSpace(s[|s| - 1]);
    }
    assert DropSpace(s) == s;
    assert DropSpaceEnd(s) == s;
  }

  lemma DropHead<T>(x: T, s: seq<T>)
    ensures ([x] + s)[1..] == s
  {
  }

  lemma ParseSignedToString(n: int)
    ensures ParseSigned(IntToString(n)) == Some(n)
  {
    var r := IntToString(n);
    if n < 0 {
      assert r == ['-'] + NatToString(-n);
      DropHead('-', NatToString(-n));
      NatToStringValue(-n);
    } else {
      NatToStringValue(n);
      assert r == NatToString(n);
    }
  }

  /** `int(str(n)) == n`. */
  lemma ParseIntToString(n: int)
    ensures ParseInt(IntToString(n)) == Some(n)
  {
    NoSpaceStrip(IntToString(n));
    ParseSignedToString(n);
  }

  /** Underscores between digits are accepted, as by Python's `int`. */
  lemma ParseIntUnderscore()
    ensures ParseInt("1_0") == Some(10)
  {
    assert Strip("1_0") == "1_0";
    assert DigitsValue("1_0") == 10 by {
      assert "1_0"[..2] == "1_";
      assert "1_"[..1] == "1";
    }
  }
}
