/**
 * The helpers of Classification/Parser.cs: the ordinal word comparison, the
 * domain keyword matcher, the mapping of lexer tokens to classification tags,
 * the laconfig diagnostic window and the remapping of embedded CSS/JavaScript
 * spans into document offsets.
 */
module Parser {
  import opened Markup

  /** The built-in keyword set every keyword matcher tests. */
  const ContextCSharpTokens: seq<string> := ["string", "get", "set"]

  // ---------------------------------------------------------------------------
  // Helper.Compare and the `Any(word.Compare)` test built on it.

  /** Ordinal comparison of a word under construction with a candidate; a null
      argument (`None`) never compares equal. */
  method Compare(builder: Option<string>, value: Option<string>) returns (r: bool)
    ensures r <==> builder.Some? && value.Some? && builder.value == value.value
  {
    if builder.None? || value.None? {
      return false;
    }
    var b, v := builder.value, value.value;
    if |b| != |v| {
      return false;
    }
    var i := 0;
    while i < |b|
      invariant 0 <= i <= |b|
      invariant b[..i] == v[..i]
    {
      if b[i] != v[i] {
        return false;
      }
      i := i + 1;
    }
    assert b == b[..i] && v == v[..i];
    return true;
  }

  /** `candidates.Any(word.Compare)`: some candidate compares equal to the word. */
  method AnyCompare(word: string, candidates: seq<string>) returns (found: bool)
    ensures found <==> word in candidates
  {
    var i := 0;
    while i < |candidates|
      invariant 0 <= i <= |candidates|
      invariant word !in candidates[..i]
    {
      found := Compare(Some(word), Some(candidates[i]));
      if found {
        return;
      }
      i := i + 1;
    }
    assert candidates[..i] == candidates;
    found := false;
  }

  // ---------------------------------------------------------------------------
  // Find and FindAdditionalsTokens: the domain keyword matcher.

  /** The tags `Find` adds for a completed word, flushed at `pos`: one KeyWord
      tag at `pos - |word|` when the word is a built-in keyword, and another,
      identical one when it is one of the caller's extra words. */
  function FindTags(word: string, pos: int, extra: seq<string>): (r: seq<Tag>)
    ensures |r| == (if word in ContextCSharpTokens then 1 else 0) + (if word in extra then 1 else 0)
  {
    var tag := Tag(pos - |word|, |word|, Nfx(KeyWord));
    (if word in ContextCSharpTokens then [tag] else []) + (if word in extra then [tag] else [])
  }

  method Find(word: string, tags: seq<Tag>, pos: int, extra: seq<string>) returns (tags': seq<Tag>)
    ensures tags' == tags + FindTags(word, pos, extra)
  {
    tags' := tags;
    var w := word;
    var builtIn := AnyCompare(word, ContextCSharpTokens);
    if builtIn {
      tags' := tags' + [Tag(pos - |w|, |w|, Nfx(KeyWord))];
    }
    var additional := AnyCompare(word, extra);
    if additional {
      tags' := tags' + [Tag(pos - |w|, |w|, Nfx(KeyWord))];
    }
  }

  /** A word the keyword matcher completes, and the index at which it is
      flushed (handed to `Find`). */
  datatype Flush = Flush(word: string, pos: int)

  /** Where the open word starts after reading index j, when it started at
      ws: a letter extends it, anything else empties it. The open word is
      always text[ws..j]. */
  function NextStart(text: string, j: int, ws: int, isLetter: char -> bool): (r: int)
    requires 0 <= ws <= j < |text|
    ensures isLetter(text[j]) ==> r == ws
    ensures !isLetter(text[j]) ==> r == j + 1
  {
    if isLetter(text[j]) then ws else j + 1
  }

  /** The flushes at index j, with text[ws..j] open before it: a non-letter
      flushes a non-empty open word at j, and a letter at the last index
      o - 1 flushes the word it completes there too. */
  function FlushedAt(text: string, j: int, o: int, ws: int, isLetter: char -> bool): seq<Flush>
    requires 0 <= ws <= j < |text|
  {
    (if !isLetter(text[j]) && ws < j then [Flush(text[ws..j], j)] else [])
    + (if isLetter(text[j]) && j + 1 == o then [Flush(text[ws..j + 1], j)] else [])
  }

  /** Every flush of the keyword matcher from index `j` to the end `o` of its
      range when the word text[ws..j] is open. */
  function Flushes(text: string, j: int, o: int, ws: int, isLetter: char -> bool): seq<Flush>
    requires 0 <= ws <= j && o <= |text|
    decreases o - j
  {
    if j >= o then []
    else FlushedAt(text, j, o, ws, isLetter) + Flushes(text, j + 1, o, NextStart(text, j, ws, isLetter), isLetter)
  }

  /** The tags a sequence of flushes produces, in order. */
  function FlushTags(fs: seq<Flush>, extra: seq<string>): seq<Tag>
  {
    if fs == [] then [] else FindTags(fs[0].word, fs[0].pos, extra) + FlushTags(fs[1..], extra)
  }

  lemma {:induction false} FlushTagsAppend(fs: seq<Flush>, gs: seq<Flush>, extra: seq<string>)
    ensures FlushTags(fs + gs, extra) == FlushTags(fs, extra) + FlushTags(gs, extra)
  {
    if fs == [] {
      assert fs + gs == gs;
    } else {
      assert (fs + gs)[1..] == fs[1..] + gs;
      FlushTagsAppend(fs[1..], gs, extra);
      AppendAssoc(FindTags(fs[0].word, fs[0].pos, extra), FlushTags(fs[1..], extra), FlushTags(gs, extra));
    }
  }

  lemma FlushTagsOne(f: Flush, extra: seq<string>)
    ensures FlushTags([f], extra) == FindTags(f.word, f.pos, extra)
  {
    assert [f][1..] == [];
  }

  /** The tags the keyword matcher emits from index `j` to the end `o` of its
      range, with text[ws..j] open. */
  function KeywordRest(text: string, j: int, o: int, ws: int, extra: seq<string>,
                       isLetter: char -> bool): seq<Tag>
    requires 0 <= ws <= j && o <= |text|
  {
    FlushTags(Flushes(text, j, o, ws, isLetter), extra)
  }

  /** The tags of `FindAdditionalsTokens` over text[j..o): the matcher starts
      with no word open. */
  function KeywordScan(text: string, j: int, o: int, extra: seq<string>, isLetter: char -> bool): seq<Tag>
    requires 0 <= j && o <= |text|
  {
    KeywordRest(text, j, o, j, extra, isLetter)
  }

  /** What the matcher emits at index j. */
  function Emitted(text: string, j: int, o: int, ws: int, extra: seq<string>,
                   isLetter: char -> bool): seq<Tag>
    requires 0 <= ws <= j < |text|
  {
    FlushTags(FlushedAt(text, j, o, ws, isLetter), extra)
  }

  /** One step of the matcher: what index j emits, then the rest of the range. */
  lemma KeywordRestStep(text: string, j: int, o: int, ws: int, extra: seq<string>,
                        isLetter: char -> bool)
    requires 0 <= ws <= j < o <= |text|
    ensures KeywordRest(text, j, o, ws, extra, isLetter)
         == Emitted(text, j, o, ws, extra, isLetter)
            + KeywordRest(text, j + 1, o, NextStart(text, j, ws, isLetter), extra, isLetter)
  {
    FlushTagsAppend(FlushedAt(text, j, o, ws, isLetter),
                    Flushes(text, j + 1, o, NextStart(text, j, ws, isLetter), isLetter), extra);
  }

  /** Index j emits the tags of `Find` on the word a non-letter ends, then
      those of `Find` on the word a letter completes at the last index. */
  lemma EmittedFinds(text: string, j: int, o: int, ws: int, extra: seq<string>,
                     isLetter: char -> bool)
    requires 0 <= ws <= j < |text|
    ensures Emitted(text, j, o, ws, extra, isLetter)
         == (if !isLetter(text[j]) && ws < j then FindTags(text[ws..j], j, extra) else [])
            + (if isLetter(text[j]) && j + 1 == o then FindTags(text[ws..j + 1], j, extra) else [])
  {
    var first: seq<Flush> := if !isLetter(text[j]) && ws < j then [Flush(text[ws..j], j)] else [];
    var second: seq<Flush> := if isLetter(text[j]) && j + 1 == o then [Flush(text[ws..j + 1], j)] else [];
    FlushTagsAppend(first, second, extra);
    if first != [] { FlushTagsOne(first[0], extra); }
    if second != [] { FlushTagsOne(second[0], extra); }
  }

  lemma SliceExtend(text: string, a: int, i: int)
    requires 0 <= a <= i < |text|
    ensures text[a..i] + [text[i]] == text[a..i + 1]
  {
  }

  /** One iteration of `FindAdditionalsTokens` at index j, with the word
      text[ws..j] accumulated so far. */
  method FindAt(tags: seq<Tag>, text: string, j: int, o: int, word: string, ghost ws: int,
                extra: seq<string>, isLetter: char -> bool)
    returns (tags': seq<Tag>, word': string)
    requires 0 <= ws <= j < o <= |text| && word == text[ws..j]
    ensures tags' == tags + Emitted(text, j, o, ws, extra, isLetter)
    ensures word' == text[NextStart(text, j, ws, isLetter)..j + 1]
  {
    EmittedFinds(text, j, o, ws, extra, isLetter);
    tags', word' := tags, word;
    var c := text[j];
    if isLetter(c) {
      word' := word' + [c];
      SliceExtend(text, ws, j);
    } else if |word'| > 0 {
      tags' := Find(word', tags', j, extra);
      word' := [];
    }
    if |word'| > 0 && j + 1 == o {
      tags' := Find(word', tags', j, extra);
    }
  }

  /** `FindAdditionalsTokens` over text[start .. start + length). */
  method FindAdditionalsTokens(tags: seq<Tag>, text: string, start: int, length: int,
                               extra: seq<string>, isLetter: char -> bool)
    returns (tags': seq<Tag>)
    requires 0 <= start && 0 <= length && start + length <= |text|
    ensures tags' == tags + KeywordScan(text, start, start + length, extra, isLetter)
  {
    tags' := tags;
    var j := start;
    var word: string := [];
    ghost var ws := start;
    var o := start + length;
    while j < o
      invariant start <= ws <= j <= o && word == text[ws..j]
      invariant tags' + KeywordRest(text, j, o, ws, extra, isLetter)
             == tags + KeywordScan(text, start, o, extra, isLetter)
    {
      ghost var before, emitted := tags', Emitted(text, j, o, ws, extra, isLetter);
      ghost var next := NextStart(text, j, ws, isLetter);
      ghost var rest := KeywordRest(text, j + 1, o, next, extra, isLetter);
      KeywordRestStep(text, j, o, ws, extra, isLetter);
      tags', word := FindAt(tags', text, j, o, word, ws, extra, isLetter);
      AppendAssoc(before, emitted, rest);
      ws := next;
      j := j + 1;
    }
  }

  /** A non-letter with no word open emits nothing and leaves no word open. */
  lemma KeywordScanSkip(text: string, j: int, o: int, extra: seq<string>, isLetter: char -> bool)
    requires 0 <= j < o <= |text| && !isLetter(text[j])
    ensures KeywordScan(text, j, o, extra, isLetter) == KeywordScan(text, j + 1, o, extra, isLetter)
  {
    assert FlushedAt(text, j, o, j, isLetter) == [];
    assert Flushes(text, j, o, j, isLetter) == Flushes(text, j + 1, o, j + 1, isLetter);
  }

  /** A letter at i < o - 1 extends the open word and flushes nothing. */
  lemma FlushesLetter(text: string, ws: int, i: int, o: int, isLetter: char -> bool)
    requires 0 <= ws <= i && i + 1 < o <= |text| && isLetter(text[i])
    ensures Flushes(text, i, o, ws, isLetter) == Flushes(text, i + 1, o, ws, isLetter)
  {
    assert FlushedAt(text, i, o, ws, isLetter) == [];
  }

  /** The non-letter at b < o flushes the non-empty run text[a..b) there. */
  lemma FlushesRunEnd(text: string, a: int, b: int, o: int, isLetter: char -> bool)
    requires 0 <= a < b < o <= |text| && !isLetter(text[b])
    ensures Flushes(text, b, o, a, isLetter) == [Flush(text[a..b], b)] + Flushes(text, b + 1, o, b + 1, isLetter)
  {
    assert FlushedAt(text, b, o, a, isLetter) == [Flush(text[a..b], b)];
  }

  /** A letter at the last index o - 1 flushes the run text[a..o) there. */
  lemma FlushesRunLast(text: string, a: int, o: int, isLetter: char -> bool)
    requires 0 <= a < o <= |text| && isLetter(text[o - 1])
    ensures Flushes(text, o - 1, o, a, isLetter) == [Flush(text[a..o], o - 1)]
  {
    assert FlushedAt(text, o - 1, o, a, isLetter) == [Flush(text[a..o], o - 1)];
  }

  /** While a letter run text[a..b) is read, nothing is flushed until the
      non-letter at b flushes the whole run there. */
  lemma {:induction false} FlushesRunFrom(text: string, a: int, i: int, b: int, o: int, isLetter: char -> bool)
    requires 0 <= a <= i <= b < o <= |text| && a < b
    requires forall p :: a <= p < b ==> isLetter(text[p])
    requires !isLetter(text[b])
    ensures Flushes(text, i, o, a, isLetter) == [Flush(text[a..b], b)] + Flushes(text, b + 1, o, b + 1, isLetter)
    decreases b - i
  {
    if i < b {
      FlushesRunFrom(text, a, i + 1, b, o, isLetter);
      FlushesLetter(text, a, i, o, isLetter);
    } else {
      FlushesRunEnd(text, a, b, o, isLetter);
    }
  }

  /** A letter run text[a..o) reaching the end of the range is flushed once,
      at the last index o - 1. */
  lemma {:induction false} FlushesFinalFrom(text: string, a: int, i: int, o: int, isLetter: char -> bool)
    requires 0 <= a <= i < o <= |text|
    requires forall p :: a <= p < o ==> isLetter(text[p])
    ensures Flushes(text, i, o, a, isLetter) == [Flush(text[a..o], o - 1)]
    decreases o - i
  {
    if i + 1 < o {
      FlushesFinalFrom(text, a, i + 1, o, isLetter);
      FlushesLetter(text, a, i, o, isLetter);
    } else {
      FlushesRunLast(text, a, o, isLetter);
    }
  }

  /** A maximal letter run text[a..b) followed by the non-letter at b < o is
      flushed at b, so its tag sits exactly on the word: (a, b - a). */
  lemma KeywordInteriorRun(text: string, a: int, b: int, o: int,
                           extra: seq<string>, isLetter: char -> bool)
    requires 0 <= a < b < o <= |text|
    requires forall p :: a <= p < b ==> isLetter(text[p])
    requires !isLetter(text[b])
    ensures KeywordScan(text, a, o, extra, isLetter)
         == FindTags(text[a..b], b, extra) + KeywordScan(text, b + 1, o, extra, isLetter)
    ensures forall t <- FindTags(text[a..b], b, extra) :: t.start == a && t.len == b - a
  {
    FlushesRunFrom(text, a, a, b, o, isLetter);
    FlushTagsAppend([Flush(text[a..b], b)], Flushes(text, b + 1, o, b + 1, isLetter), extra);
    FlushTagsOne(Flush(text[a..b], b), extra);
  }

  /** A letter run text[a..o) that reaches the end of the range is flushed at
      the last index o - 1, so its tag starts one character left of the word:
      (a - 1, o - a). */
  lemma KeywordFinalRun(text: string, a: int, o: int, extra: seq<string>, isLetter: char -> bool)
    requires 0 <= a < o <= |text|
    requires forall p :: a <= p < o ==> isLetter(text[p])
    ensures KeywordScan(text, a, o, extra, isLetter) == FindTags(text[a..o], o - 1, extra)
    ensures forall t <- KeywordScan(text, a, o, extra, isLetter) :: t.start == a - 1 && t.len == o - a
  {
    FlushesFinalFrom(text, a, a, o, isLetter);
    FlushTagsOne(Flush(text[a..o], o - 1), extra);
  }

  /** The matcher reads only text[ws..o): two texts that agree there give the
      same flushes. */
  lemma {:induction false} FlushesLocal(text: string, text': string, j: int, o: int, ws: int,
                                        isLetter: char -> bool)
    requires 0 <= ws <= j && o <= |text| && o <= |text'|
    requires forall p :: ws <= p < o ==> text[p] == text'[p]
    ensures Flushes(text, j, o, ws, isLetter) == Flushes(text', j, o, ws, isLetter)
    decreases o - j
  {
    if j < o {
      FlushedAtLocal(text, text', j, o, ws, isLetter);
      FlushesLocal(text, text', j + 1, o, NextStart(text, j, ws, isLetter), isLetter);
    }
  }

  lemma FlushedAtLocal(text: string, text': string, j: int, o: int, ws: int, isLetter: char -> bool)
    requires 0 <= ws <= j < o <= |text| && o <= |text'|
    requires forall p :: ws <= p < o ==> text[p] == text'[p]
    ensures FlushedAt(text, j, o, ws, isLetter) == FlushedAt(text', j, o, ws, isLetter)
    ensures NextStart(text, j, ws, isLetter) == NextStart(text', j, ws, isLetter)
  {
    assert text[j] == text'[j];
    assert text[ws..j] == text'[ws..j];
    assert text[ws..j + 1] == text'[ws..j + 1];
  }

  /** Hence the matcher's tags depend only on text[j..o). */
  lemma KeywordScanLocal(text: string, text': string, j: int, o: int,
                         extra: seq<string>, isLetter: char -> bool)
    requires 0 <= j && o <= |text| && o <= |text'|
    requires forall p :: j <= p < o ==> text[p] == text'[p]
    ensures KeywordScan(text, j, o, extra, isLetter) == KeywordScan(text', j, o, extra, isLetter)
  {
    FlushesLocal(text, text', j, o, j, isLetter);
  }

  /** In `#[class]` the word `class` runs to the end of the area, so the
      matcher tags it at (1, 5), one character left of the word. */
  lemma ClassAreaKeywordShifted(isLetter: char -> bool)
    requires forall c <- "class" :: isLetter(c)
    ensures KeywordScan("#[class]", 2, 7, ["render", "class"], isLetter) == [Tag(1, 5, Nfx(KeyWord))]
  {
    var text := "#[class]";
    assert text[2..7] == "class";
    forall p | 2 <= p < 7 ensures isLetter(text[p]) {
      assert text[p] in "class";
    }
    KeywordFinalRun(text, 2, 7, ["render", "class"], isLetter);
    assert "class" !in ContextCSharpTokens;
  }

  // ---------------------------------------------------------------------------
  // Token categories and FindCSharpTokens.

  /** The laconfig mapping: Comment, then Identifier as KeyWord, then Symbol or
      Operator as Brace, then Literal; anything else is not tagged. */
  function LaconfigCategory(t: Token): Option<NfxTokenType>
  {
    if t.isComment then Some(Comment)
    else if t.isIdentifier then Some(KeyWord)
    else if t.isSymbol || t.isOperator then Some(Brace)
    else if t.isLiteral then Some(Literal)
    else None
  }

  /** The C#-like mapping: Comment, then Keyword, then Literal, then Symbol or
      Operator as Brace; anything else is not tagged. */
  function CSharpCategory(t: Token): Option<NfxTokenType>
  {
    if t.isComment then Some(Comment)
    else if t.isKeyword then Some(KeyWord)
    else if t.isLiteral then Some(Literal)
    else if t.isSymbol || t.isOperator then Some(Brace)
    else None
  }

  /** The two mappings disagree on priority: a token that is both a literal and
      a symbol is a Literal to the C# mapping and a Brace to the laconfig one. */
  lemma LiteralSymbolPriority(t: Token)
    requires !t.isComment && !t.isIdentifier && !t.isKeyword && t.isLiteral && t.isSymbol
    ensures CSharpCategory(t) == Some(Literal) && LaconfigCategory(t) == Some(Brace)
  {
  }

  /** The tag a token yields when its sub-source starts at document offset
      `base`: its 1-based column is mapped to base + col - 1. */
  function TokenTag(t: Token, base: int, category: Token -> Option<NfxTokenType>): Option<Tag>
  {
    match category(t)
    case Some(kind) => Some(Tag(base + t.col - 1, |t.text|, Nfx(kind)))
    case None => None
  }

  /** The tags of a token sequence, in token order, skipping tokens the
      mapping does not classify. */
  function TokenTags(tokens: seq<Token>, base: int, category: Token -> Option<NfxTokenType>): seq<Tag>
  {
    if tokens == [] then []
    else (match TokenTag(tokens[0], base, category) case Some(tag) => [tag] case None => [])
         + TokenTags(tokens[1..], base, category)
  }

  /** Every classified token yields its tag, every tag comes from a classified
      token, at most one tag per token, and no tag at all exactly when no token
      is classified. */
  lemma {:induction false} TokenTagsMembers(tokens: seq<Token>, base: int, category: Token -> Option<NfxTokenType>)
    ensures |TokenTags(tokens, base, category)| <= |tokens|
    ensures forall i :: 0 <= i < |tokens| && TokenTag(tokens[i], base, category).Some? ==>
              TokenTag(tokens[i], base, category).value in TokenTags(tokens, base, category)
    ensures forall t <- TokenTags(tokens, base, category) ::
              exists i :: 0 <= i < |tokens| && TokenTag(tokens[i], base, category) == Some(t)
    ensures TokenTags(tokens, base, category) == [] <==> forall i :: 0 <= i < |tokens| ==> category(tokens[i]).None?
  {
    if tokens != [] {
      var rest := TokenTags(tokens[1..], base, category);
      TokenTagsMembers(tokens[1..], base, category);
      assert forall i :: 1 <= i < |tokens| ==> tokens[i] == tokens[1..][i - 1];
      forall t <- rest ensures exists i :: 0 <= i < |tokens| && TokenTag(tokens[i], base, category) == Some(t) {
        var i' :| 0 <= i' < |tokens[1..]| && TokenTag(tokens[1..][i'], base, category) == Some(t);
        assert tokens[1..][i'] == tokens[i' + 1];
      }
    }
  }

  /** No laconfig token is ever tagged as a delimiter: the Laconf category
      belongs to `#<laconf>` and `#</laconf>` alone. */
  lemma LaconfigTokensNotDelimiters(tokens: seq<Token>, base: int)
    ensures forall t <- TokenTags(tokens, base, LaconfigCategory) :: t.kind != Nfx(Laconf)
  {
    TokenTagsMembers(tokens, base, LaconfigCategory);
    forall t <- TokenTags(tokens, base, LaconfigCategory)
      ensures t.kind != Nfx(Laconf)
    {
      var i :| 0 <= i < |tokens| && TokenTag(tokens[i], base, LaconfigCategory) == Some(t);
    }
  }

  /** The loop shared by every token-to-tag pass: append each classified
      token's tag in order. */
  method AppendTokenTags(tags: seq<Tag>, tokens: seq<Token>, base: int,
                         category: Token -> Option<NfxTokenType>)
    returns (tags': seq<Tag>)
    ensures tags' == tags + TokenTags(tokens, base, category)
  {
    tags' := tags;
    var i := 0;
    while i < |tokens|
      invariant 0 <= i <= |tokens|
      invariant tags' + TokenTags(tokens[i..], base, category) == tags + TokenTags(tokens, base, category)
    {
      var token := tokens[i];
      assert tokens[i..][1..] == tokens[i + 1..];
      ghost var before := tags';
      ghost var piece := match TokenTag(token, base, category) case Some(tag) => [tag] case None => [];
      var curType := category(token);
      if curType.Some? {
        tags' := tags' + [Tag(base + token.col - 1, |token.text|, Nfx(curType.value))];
      }
      assert tags' == before + piece;
      AppendAssoc(before, piece, TokenTags(tokens[i + 1..], base, category));
      i := i + 1;
    }
    assert tokens[i..] == [];
  }

  /** The tags `FindCSharpTokens` adds for text[sourceStart .. sourceStart + length). */
  function CSharpTags(text: string, sourceStart: int, length: int, env: Collaborators): seq<Tag>
    requires 0 <= sourceStart && 0 <= length && sourceStart + length <= |text|
  {
    TokenTags(env.csLex(text[sourceStart..sourceStart + length]), sourceStart, CSharpCategory)
  }

  method FindCSharpTokens(tags: seq<Tag>, text: string, sourceStart: int, length: int, env: Collaborators)
    returns (tags': seq<Tag>)
    requires 0 <= sourceStart && 0 <= length && sourceStart + length <= |text|
    ensures tags' == tags + CSharpTags(text, sourceStart, length, env)
  {
    var tokens := env.csLex(text[sourceStart..sourceStart + length]);
    tags' := AppendTokenTags(tags, tokens, sourceStart, CSharpCategory);
  }

  /** Column mapping is a uniform move: the tags of content lexed at
      document offset `base` are its content-relative tags (those at base 0,
      i.e. at col - 1) moved right by `base`, in the same order, with the same
      lengths and categories. */
  lemma {:induction false} ColumnRemap(tokens: seq<Token>, base: int, category: Token -> Option<NfxTokenType>)
    ensures |TokenTags(tokens, base, category)| == |TokenTags(tokens, 0, category)|
    ensures forall i :: 0 <= i < |TokenTags(tokens, base, category)| ==>
              var local := TokenTags(tokens, 0, category)[i];
              TokenTags(tokens, base, category)[i] == Tag(base + local.start, local.len, local.kind)
  {
    if tokens != [] {
      ColumnRemap(tokens[1..], base, category);
    }
  }

  // ---------------------------------------------------------------------------
  // GetLaconicTags.

  /** The proximity window of one parser message over a source of `srcLen`
      characters: from five characters before the erroring column, at most ten
      long and clamped to the source; the whole source but its last character
      when the message carries no token. */
  function ParserWindow(m: Message, srcLen: int): (w: ErrorSpan)
    ensures m.token.None? ==> w == ErrorSpan(0, srcLen - 1)
    ensures m.token.Some? ==> 0 <= w.start && w.len <= 10 && w.start + w.len <= srcLen
    ensures m.token.Some? && 1 <= m.token.value.col <= srcLen ==>
              w.start <= m.token.value.col - 1 < w.start + w.len
  {
    var start := if m.token.None? then 0
                 else if m.token.value.col > 4 then m.token.value.col - 5 else 0;
    var length := if m.token.None? then srcLen - 1
                  else if srcLen - start > 10 then 10 else srcLen - start;
    ErrorSpan(start, length)
  }

  /** One window per message, in message order. */
  function ParserErrors(msgs: seq<Message>, srcLen: int): (r: seq<ErrorSpan>)
    ensures |r| == |msgs|
    ensures forall i :: 0 <= i < |msgs| ==> r[i] == ParserWindow(msgs[i], srcLen)
  {
    seq(|msgs|, i requires 0 <= i < |msgs| => ParserWindow(msgs[i], srcLen))
  }

  /** The classification tags of a whole laconfig document: every classified
      token at its own column. */
  function DocumentTags(text: string, env: Collaborators): seq<Tag>
  {
    TokenTags(env.laconfLex(text), 0, LaconfigCategory)
  }

  /** `GetLaconicTags`: the error windows (relative to `src`, not shifted by
      `startPosition`) and the laconfig token tags appended at `startPosition`. */
  method GetLaconicTags(tags: seq<Tag>, src: string, startPosition: int, env: Collaborators)
    returns (tags': seq<Tag>, errorTags: seq<ErrorSpan>)
    ensures errorTags == ParserErrors(env.laconfParse(src), |src|)
    ensures tags' == tags + TokenTags(env.laconfLex(src), startPosition, LaconfigCategory)
  {
    var ml := env.laconfParse(src);
    errorTags := [];
    var i := 0;
    while i < |ml|
      invariant 0 <= i <= |ml|
      invariant errorTags == ParserErrors(ml[..i], |src|)
    {
      var message := ml[i];
      var start := if message.token.None? then 0
                   else if message.token.value.col > 4 then message.token.value.col - 5 else 0;
      var length := if message.token.None? then |src| - 1
                    else if |src| - start > 10 then 10 else |src| - start;
      errorTags := errorTags + [ErrorSpan(start, length)];
      assert ml[..i + 1][..i] == ml[..i];
      i := i + 1;
    }
    assert ml[..i] == ml;
    tags' := AppendTokenTags(tags, env.laconfLex(src), startPosition, LaconfigCategory);
  }

  // ---------------------------------------------------------------------------
  // FindPropTags: embedded CSS/JavaScript spans.

  /** The one extra character non-CSS spans are widened by. */
  function Widening(ct: ContentType): int
  {
    if ct == Css then 0 else 1
  }

  /** The aggregator's spans over the embedded buffer, moved to document
      offsets from `base`, widened for non-CSS content, payload kept. */
  function RemapEmbedded(spans: seq<EmbeddedSpan>, base: int, ct: ContentType): seq<Tag>
  {
    if spans == [] then []
    else [Tag(base + spans[0].start, spans[0].len + Widening(ct), Foreign(spans[0].payload))]
         + RemapEmbedded(spans[1..], base, ct)
  }

  /** One tag per span, in order: the i-th starts `base` past the i-th span's
      start and is widened by one for non-CSS content. */
  lemma {:induction false} RemapEmbeddedAt(spans: seq<EmbeddedSpan>, base: int, ct: ContentType)
    ensures |RemapEmbedded(spans, base, ct)| == |spans|
    ensures forall i :: 0 <= i < |spans| ==>
              RemapEmbedded(spans, base, ct)[i]
              == Tag(base + spans[i].start, spans[i].len + Widening(ct), Foreign(spans[i].payload))
  {
    if spans != [] {
      RemapEmbeddedAt(spans[1..], base, ct);
      assert forall i :: 1 <= i < |spans| ==> spans[i] == spans[1..][i - 1];
    }
  }

  /** The inverse of the remap: back to buffer offsets and unwidened. */
  function UnmapEmbedded(tags: seq<Tag>, base: int, ct: ContentType): (r: seq<EmbeddedSpan>)
    ensures |r| == |tags|
  {
    if tags == [] then []
    else [EmbeddedSpan(tags[0].start - base, tags[0].len - Widening(ct),
                       if tags[0].kind.Foreign? then tags[0].kind.payload else "")]
         + UnmapEmbedded(tags[1..], base, ct)
  }

  /** Remapping loses nothing: every span can be recovered from its tag. */
  lemma {:induction false} RemapRoundTrip(spans: seq<EmbeddedSpan>, base: int, ct: ContentType)
    ensures UnmapEmbedded(RemapEmbedded(spans, base, ct), base, ct) == spans
  {
    if spans != [] {
      RemapRoundTrip(spans[1..], base, ct);
      assert RemapEmbedded(spans, base, ct)[1..] == RemapEmbedded(spans[1..], base, ct);
    }
  }

  /** `FindPropTags`: classify `textSpan` with the aggregator for `ct` and add
      its spans at `bufferStartPosition`. */
  method FindPropTags(tags: seq<Tag>, ct: ContentType, textSpan: string, bufferStartPosition: int,
                      env: Collaborators)
    returns (tags': seq<Tag>)
    ensures tags' == tags + RemapEmbedded(env.aggregate(textSpan, ct), bufferStartPosition, ct)
  {
    var spans := env.aggregate(textSpan, ct);
    tags' := tags;
    var i := 0;
    while i < |spans|
      invariant 0 <= i <= |spans|
      invariant tags' + RemapEmbedded(spans[i..], bufferStartPosition, ct)
             == tags + RemapEmbedded(spans, bufferStartPosition, ct)
    {
      var anchor := spans[i];
      var tag := Tag(bufferStartPosition + anchor.start, anchor.len + (if ct == Css then 0 else 1),
                     Foreign(anchor.payload));
      assert spans[i..][1..] == spans[i + 1..];
      assert RemapEmbedded(spans[i..], bufferStartPosition, ct)
          == [tag] + RemapEmbedded(spans[i + 1..], bufferStartPosition, ct);
      AppendAssoc(tags', [tag], RemapEmbedded(spans[i + 1..], bufferStartPosition, ct));
      tags' := tags' + [tag];
      i := i + 1;
    }
    assert spans[i..] == [];
  }
}
