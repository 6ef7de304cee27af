/**
 * The text chunker of `save_pdf_text_chunks`: the segments of a parsed
 * paper are merged under their headings into chunks of at most
 * `MaxArticleWords` whitespace-separated words, stopping at the
 * "References" heading; plus the chunk-file naming helpers and the arXiv
 * id of a link.
 */
module Chunker {
  import opened PyValues
  import opened PyText
  import opened Services

  /** `check_max_word(text)`: the text is over the word budget. */
  predicate CheckMaxWord(text: string) {
    WordCount(text) > MaxArticleWords
  }

  /** `t.split("\n", 1)[0]`: the text before the first line break, or all
      of it. */
  function FirstLine(t: string): (r: string)
    ensures '\n' !in r
    ensures |r| <= |t| && r == t[..|r|] && (|r| == |t| || t[|r|] == '\n')
  {
    var k := Find(t, '\n');
    if k < 0 then t else t[..k]
  }

  /** The heading of a segment: its first line, stripped. */
  function Heading(t: string): string {
    Strip(FirstLine(t))
  }

  /** `t.split("\n", 1)[1]`: the text after the first line; an
      `IndexError` when there is no line break. */
  function AfterFirstLine(t: string): (r: Outcome<string>)
    ensures r.Ok? <==> '\n' in t
    ensures r.Ok? ==> exists k :: 0 <= k < |t| && t[k] == '\n' && '\n' !in t[..k] && r.value == t[k + 1..]
  {
    var k := Find(t, '\n');
    if k < 0 then Raise else Ok(t[k + 1..])
  }

  /** The loop state: the chunk being filled, the heading of the previous
      segment and the chunks already emitted. */
  datatype State = State(text: string, flag: string, chunks: seq<string>)

  const Start := State("", "", [])

  /** The inner `while` loop: cut `MaxArticleWords`-word pieces off the
      front of an oversized segment; returns the pieces and what is left. */
  function SliceOversized(s: string): (r: (seq<string>, string))
    ensures forall p :: p in r.0 ==> WordCount(p) == MaxArticleWords
    ensures WordCount(r.1) <= MaxArticleWords
    ensures WordCount(s) <= MaxArticleWords ==> r == ([], s)
    decreases WordCount(s)
  {
    if WordCount(s) > MaxArticleWords then
      var ws := Words(s);
      WordCountTake(s, MaxArticleWords);
      WordCountDrop(s, MaxArticleWords);
      var rest := SliceOversized(JoinSpace(ws[MaxArticleWords..]));
      ([JoinSpace(ws[..MaxArticleWords])] + rest.0, rest.1)
    else ([], s)
  }

  /** What one segment adds to the chunk: the whole segment under a new
      heading, the segment without its heading line under a repeated one. */
  function Addition(flag: string, t: string): Outcome<string> {
    if Heading(t) != flag then Ok(t + "\n\n")
    else
      var body :- AfterFirstLine(t);
      Ok(body + "\n")
  }

  /** One iteration of the `for` loop; `None` is the `break` at the
      "References" heading. */
  function Step(st: State, t: string): Outcome<Option<State>> {
    var h := Heading(t);
    if h == "References" then Ok(None)
    else
      var s :- Addition(st.flag, t);
      if CheckMaxWord(st.text + s) then
        var cut := SliceOversized(s);
        Ok(Some(State(cut.1, h, st.chunks + [Strip(st.text)] + cut.0)))
      else Ok(Some(State(st.text + s, h, st.chunks)))
  }

  /** The `for` loop over the segments from state `st`. */
  function Run(st: State, segs: seq<string>): Outcome<State>
    decreases |segs|
  {
    if segs == [] then Ok(st)
    else
      match Step(st, segs[0])
      case Raise => Raise
      case Ok(None) => Ok(st)
      case Ok(Some(next)) => Run(next, segs[1..])
  }

  /** The chunk texts `save_pdf_text_chunks` writes, in order. */
  function ChunkText(segs: seq<string>): Outcome<seq<string>> {
    var st :- Run(Start, segs);
    Ok(st.chunks + [Strip(st.text)])
  }

  /** Every chunk already emitted and the chunk being filled are within
      the word budget. */
  predicate Within(st: State) {
    && WordCount(st.text) <= MaxArticleWords
    && forall c :: c in st.chunks ==> WordCount(c) <= MaxArticleWords
  }

  lemma StripWithin(text: string)
    requires WordCount(text) <= MaxArticleWords
    ensures WordCount(Strip(text)) <= MaxArticleWords
  {
    WordsStrip(text);
  }

  lemma AppendWithin(a: seq<string>, b: seq<string>)
    requires forall c :: c in a ==> WordCount(c) <= MaxArticleWords
    requires forall c :: c in b ==> WordCount(c) <= MaxArticleWords
    ensures forall c :: c in a + b ==> WordCount(c) <= MaxArticleWords
  {
  }

  lemma CutWithin(st: State, cut: (seq<string>, string), h: string)
    requires Within(st)
    requires forall p :: p in cut.0 ==> WordCount(p) == MaxArticleWords
    requires WordCount(cut.1) <= MaxArticleWords
    ensures Within(State(cut.1, h, st.chunks + [Strip(st.text)] + cut.0))
  {
    StripWithin(st.text);
    AppendWithin(st.chunks, [Strip(st.text)]);
    AppendWithin(st.chunks + [Strip(st.text)], cut.0);
  }

  /** One step keeps every chunk within the word budget. */
  lemma StepWithin(st: State, t: string)
    requires Within(st)
    ensures Step(st, t).Ok? && Step(st, t).value.Some? ==> Within(Step(st, t).value.value)
  {
    var h := Heading(t);
    if h != "References" && Addition(st.flag, t).Ok? {
      var s := Addition(st.flag, t).value;
      if CheckMaxWord(st.text + s) {
        var cut := SliceOversized(s);
        assert Step(st, t) == Ok(Some(State(cut.1, h, st.chunks + [Strip(st.text)] + cut.0)));
        CutWithin(st, cut, h);
      } else {
        assert Step(st, t) == Ok(Some(State(st.text + s, h, st.chunks)));
      }
    }
  }

  lemma {:induction false} RunWithin(st: State, segs: seq<string>)
    requires Within(st)
    ensures Run(st, segs).Ok? ==> Within(Run(st, segs).value)
    decreases |segs|
  {
    if segs != [] {
      StepWithin(st, segs[0]);
      match Step(st, segs[0])
      case Raise =>
      case Ok(None) =>
      case Ok(Some(next)) => RunWithin(next, segs[1..]);
    }
  }

  /** The chunker always emits at least one chunk, and none of them is
      over the word budget. */
  lemma ChunksWithinBudget(segs: seq<string>)
    ensures ChunkText(segs).Ok? ==> |ChunkText(segs).value| >= 1
    ensures ChunkText(segs).Ok? ==>
      forall c :: c in ChunkText(segs).value ==> WordCount(c) <= MaxArticleWords
  {
    RunWithin(Start, segs);
    if Run(Start, segs).Ok? {
      var st := Run(Start, segs).value;
      assert ChunkText(segs) == Ok(st.chunks + [Strip(st.text)]);
      StripWithin(st.text);
      AppendWithin(st.chunks, [Strip(st.text)]);
    }
  }

  /** A paper without segments gives exactly one empty chunk. */
  lemma NoSegments()
    ensures ChunkText([]) == Ok([""])
  {
    assert Run(Start, []) == Ok(Start);
    assert Strip("") == "";
    assert ChunkText([]) == Ok(Start.chunks + [Strip(Start.text)]);
    assert Start.chunks + [""] == [""];
  }

  /** Nothing at or after a "References" heading contributes text. */
  lemma {:induction false} ReferencesCut(st: State, pre: seq<string>, t: string, tail: seq<string>)
    requires Heading(t) == "References"
    ensures Run(st, pre + [t] + tail) == Run(st, pre)
    decreases |pre|
  {
    if pre == [] {
      assert pre + [t] + tail == [t] + tail;
    } else {
      assert (pre + [t] + tail)[0] == pre[0];
      assert (pre + [t] + tail)[1..] == pre[1..] + [t] + tail;
      match Step(st, pre[0])
      case Raise =>
      case Ok(None) =>
      case Ok(Some(next)) => ReferencesCut(next, pre[1..], t, tail);
    }
  }

  lemma ChunkTextReferences(pre: seq<string>, t: string, tail: seq<string>)
    requires Heading(t) == "References"
    ensures ChunkText(pre + [t] + tail) == ChunkText(pre)
  {
    ReferencesCut(Start, pre, t, tail);
  }

  /** The only error the chunker raises: a segment that repeats the
      previous heading but has no second line. Segments that all have a
      line break are always chunked. */
  lemma {:induction false} RunTotal(st: State, segs: seq<string>)
    requires forall i :: 0 <= i < |segs| ==> '\n' in segs[i]
    ensures Run(st, segs).Ok?
    decreases |segs|
  {
    if segs != [] {
      StepTotal(st, segs[0]);
      var r := Step(st, segs[0]);
      if r.value.Some? {
        var rest := segs[1..];
        assert forall i :: 0 <= i < |rest| ==> rest[i] == segs[i + 1];
        RunTotal(r.value.value, rest);
      }
    }
  }

  lemma StepTotal(st: State, t: string)
    requires '\n' in t
    ensures Step(st, t).Ok?
  {
    assert AfterFirstLine(t).Ok?;
  }

  /** The chunking loop of `save_pdf_text_chunks`, without the file writes. */
  method ChunkTexts(segs: seq<string>) returns (r: Outcome<seq<string>>)
    ensures r == ChunkText(segs)
  {
    var text, flag, chunks := "", "", [];
    var i := 0;
    DropNone(segs);
    assert State(text, flag, chunks) == Start;
    while i < |segs|
      invariant 0 <= i <= |segs|
      invariant Run(State(text, flag, chunks), segs[i..]) == Run(Start, segs)
      decreases |segs| - i
    {
      ghost var st := State(text, flag, chunks);
      var t := segs[i];
      var h := Heading(t);
      if h == "References" {
        StepReferences(st, t);
        RunStop(st, segs, i);
        break;
      }
      var s: string;
      if h != flag {
        s := t + "\n\n";
        AdditionNew(flag, t);
      } else {
        var k := Find(t, '\n');
        if k < 0 {
          StepRaise(st, t);
          RunRaise(st, segs, i);
          return Raise;
        }
        s := t[k + 1..] + "\n";
        AdditionAfterFind(flag, t);
      }
      if CheckMaxWord(text + s) {
        var pieces, rest := SliceLoop(s);
        StepCut(st, t, s, pieces, rest);
        assert Step(st, t) == Ok(Some(State(rest, h, chunks + [Strip(text)] + pieces)));
        chunks := chunks + [Strip(text)] + pieces;
        text := rest;
      } else {
        text := text + s;
        StepAppend(st, t, s);
        assert Step(st, t) == Ok(Some(State(text, h, chunks)));
      }
      RunNext(st, segs, i, State(text, h, chunks));
      assert Run(State(text, h, chunks), segs[i + 1..]) == Run(Start, segs);
      flag := h;
      i := i + 1;
      assert Run(State(text, flag, chunks), segs[i..]) == Run(Start, segs);
    }
    chunks := chunks + [Strip(text)];
    return Ok(chunks);
  }

  /** The inner `while` loop of `save_pdf_text_chunks`: the pieces it
      appends to the chunk list and the text it leaves in `s`. */
  method SliceLoop(s0: string) returns (pieces: seq<string>, s: string)
    ensures (pieces, s) == SliceOversized(s0)
  {
    pieces, s := [], s0;
    AppendEmpty(SliceOversized(s).0);
    while CheckMaxWord(s)
      invariant SliceOversized(s0) == (pieces + SliceOversized(s).0, SliceOversized(s).1)
      decreases WordCount(s)
    {
      var ws := Words(s);
      SliceOnce(s);
      var piece, next := JoinSpace(ws[..MaxArticleWords]), JoinSpace(ws[MaxArticleWords..]);
      ghost var tail := SliceOversized(next);
      assert SliceOversized(s) == ([piece] + tail.0, tail.1);
      AppendAssoc(pieces, [piece], tail.0);
      pieces := pieces + [piece];
      s := next;
    }
    AppendEmpty(pieces);
  }

  lemma RunNext(st: State, segs: seq<string>, i: nat, next: State)
    requires i < |segs| && Step(st, segs[i]) == Ok(Some(next))
    ensures Run(st, segs[i..]) == Run(next, segs[i + 1..])
  {
    DropFirst(segs, i);
  }

  lemma RunStop(st: State, segs: seq<string>, i: nat)
    requires i < |segs| && Step(st, segs[i]) == Ok(None)
    ensures Run(st, segs[i..]) == Ok(st)
  {
    DropFirst(segs, i);
  }

  lemma RunRaise(st: State, segs: seq<string>, i: nat)
    requires i < |segs| && Step(st, segs[i]) == Raise
    ensures Run(st, segs[i..]) == Raise
  {
    DropFirst(segs, i);
  }

  lemma StepReferences(st: State, t: string)
    requires Heading(t) == "References"
    ensures Step(st, t) == Ok(None)
  {
  }

  lemma StepRaise(st: State, t: string)
    requires Heading(t) == st.flag && Find(t, '\n') < 0 && Heading(t) != "References"
    ensures Step(st, t) == Raise
  {
    assert AfterFirstLine(t) == Raise;
  }

  lemma AdditionNew(flag: string, t: string)
    requires Heading(t) != flag
    ensures Addition(flag, t) == Ok(t + "\n\n")
  {
  }

  lemma AdditionSame(flag: string, t: string)
    requires Heading(t) == flag && '\n' in t
    ensures exists k :: 0 <= k < |t| && t[k] == '\n' && '\n' !in t[..k] && Addition(flag, t) == Ok(t[k + 1..] + "\n")
  {
    AdditionAfterFind(flag, t);
  }

  /** The same, at the index `find` gives. */
  lemma AdditionAfterFind(flag: string, t: string)
    requires Heading(t) == flag && Find(t, '\n') >= 0
    ensures Addition(flag, t) == Ok(t[Find(t, '\n') + 1..] + "\n")
  {
  }

  lemma StepCut(st: State, t: string, s: string, pieces: seq<string>, rest: string)
    requires Heading(t) != "References" && Addition(st.flag, t) == Ok(s)
    requires CheckMaxWord(st.text + s) && SliceOversized(s) == (pieces, rest)
    ensures Step(st, t) == Ok(Some(State(rest, Heading(t), st.chunks + [Strip(st.text)] + pieces)))
  {
  }

  lemma StepAppend(st: State, t: string, s: string)
    requires Heading(t) != "References" && Addition(st.flag, t) == Ok(s)
    requires !CheckMaxWord(st.text + s)
    ensures Step(st, t) == Ok(Some(State(st.text + s, Heading(t), st.chunks)))
  {
  }

  /** One turn of the inner loop. */
  lemma SliceOnce(s: string)
    requires CheckMaxWord(s)
    ensures WordCount(JoinSpace(Words(s)[MaxArticleWords..])) < WordCount(s)
    ensures SliceOversized(s)
      == ([JoinSpace(Words(s)[..MaxArticleWords])] + SliceOversized(JoinSpace(Words(s)[MaxArticleWords..])).0,
          SliceOversized(JoinSpace(Words(s)[MaxArticleWords..])).1)
  {
    WordCountDrop(s, MaxArticleWords);
  }

  // ---------------------------------------------------------------------
  // chunk files and arXiv links

  /** `chunk_id_to_chunk_name`. */
  function ChunkName(id: int): string {
    "chunk" + IntToString(id) + ".txt"
  }

  /** `chunk_name_to_chunk_id`: the part before the first dot, with
      "chunk" removed, read as an integer; `Raise` for the `ValueError`. */
  function ChunkId(name: string): Outcome<int> {
    match ParseInt(Replace(Split(name, '.')[0], "chunk", ""))
    case None => Raise
    case Some(n) => Ok(n)
  }

  lemma NameStem(id: int)
    ensures Split(ChunkName(id), '.')[0] == "chunk" + IntToString(id)
  {
    var stem := "chunk" + IntToString(id);
    assert '.' !in stem;
    assert ChunkName(id) == stem + ['.'] + "txt";
    FirstPiece(stem, '.', "txt");
  }

  lemma StemDigits(digits: string)
    requires IntText(digits)
    ensures Replace("chunk" + digits, "chunk", "") == digits
  {
    var stem := "chunk" + digits;
    assert StartsWith(stem, "chunk");
    assert stem[5..] == digits;
    assert 'c' !in digits;
    ReplaceAbsent(digits, "chunk", "");
  }

  /** Reading back the id of a chunk file name gives the id. */
  lemma ChunkIdOfName(id: int)
    ensures ChunkId(ChunkName(id)) == Ok(id)
  {
    NameStem(id);
    StemDigits(IntToString(id));
    ParseIntToString(id);
  }

  /** The second loop of `save_pdf_text_chunks`: the file name of each
      chunk, by position (the directory prefix and the writes are left
      out). Each name reads back as its own position. */
  method ChunkFileNames(count: nat) returns (names: seq<string>)
    ensures |names| == count
    ensures forall i :: 0 <= i < count ==> names[i] == ChunkName(i) && ChunkId(names[i]) == Ok(i)
  {
    names := [];
    for i := 0 to count
      invariant |names| == i
      invariant forall j :: 0 <= j < i ==> names[j] == ChunkName(j)
    {
      names := names + [ChunkName(i)];
    }
    forall i | 0 <= i < count
      ensures ChunkId(names[i]) == Ok(i)
    {
      ChunkIdOfName(i);
    }
  }

  /** `get_arxiv_id_from_link`: the text after the last slash. */
  function ArxivId(link: string): (r: string)
    ensures |r| <= |link| && forall i :: 0 <= i < |r| ==> r[i] == link[|link| - |r| + i]
    ensures '/' !in r
    ensures |r| == |link| || link[|link| - |r| - 1] == '/'
  {
    var pieces := Split(link, '/');
    LastPiece(link, '/');
    pieces[|pieces| - 1]
  }
}
