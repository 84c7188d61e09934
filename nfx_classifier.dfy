/**
 * NfxClassifier (Classification/NfxClassifier.cs): the older zone scanner.
 *
 * It tests the same zones as the current scanner, with these differences:
 * bracket zones emit no area tag and run the C#-like lexer plus a custom word
 * matcher that never flushes a word ending at the range end; the `#[class]`
 * section passes the absolute index of the next `#[` as a length; and the
 * laconf, style and script closing loops have no `break`, so every later
 * closing marker produces another pass over a longer interior.
 */
module NfxClassification {
  import opened Markup
  import Parser
  import NhtTagging

  // ---------------------------------------------------------------------------
  // This file's FindCSharpTokens and FindCustomTokens.

  /** This file's C#-like mapping: Comment, then Keyword, then Literal, then
      Symbol as Brace. Operators are not tagged. */
  function OldCSharpCategory(t: Token): Option<NfxTokenType>
  {
    if t.isComment then Some(Comment)
    else if t.isKeyword then Some(KeyWord)
    else if t.isLiteral then Some(Literal)
    else if t.isSymbol then Some(Brace)
    else None
  }

  /** A pure operator token is a Brace to the current scanner and untagged
      here. */
  lemma OperatorOnlyUntagged(t: Token, base: int)
    requires t.isOperator && !t.isComment && !t.isKeyword && !t.isLiteral && !t.isSymbol
    ensures Parser.TokenTags([t], base, OldCSharpCategory) == []
    ensures Parser.TokenTags([t], base, Parser.CSharpCategory) == [Tag(base + t.col - 1, |t.text|, Nfx(Brace))]
  {
    assert [t][1..] == [];
  }

  function OldCSharpTags(text: string, sourceStart: int, length: int, env: Collaborators): seq<Tag>
    requires 0 <= sourceStart && 0 <= length && sourceStart + length <= |text|
  {
    Parser.TokenTags(env.csLex(text[sourceStart..sourceStart + length]), sourceStart, OldCSharpCategory)
  }

  method FindCSharpTokens(tags: seq<Tag>, text: string, sourceStart: int, length: int, env: Collaborators)
    returns (tags': seq<Tag>)
    requires 0 <= sourceStart && 0 <= length && sourceStart + length <= |text|
    ensures tags' == tags + OldCSharpTags(text, sourceStart, length, env)
  {
    tags' := Parser.AppendTokenTags(tags, env.csLex(text[sourceStart..sourceStart + length]),
                                    sourceStart, OldCSharpCategory);
  }

  /** The words the custom matcher looks for. */
  const CustomTokens: seq<string> := ["string", "get", "set"]

  /** The tags the custom matcher emits from index j to the range end o with
      `word` accumulated so far: a non-letter flushes a non-empty word that is
      one of the custom words at j - |word|; a word still open at the end is
      dropped. */
  function CustomScan(text: string, j: int, o: int, word: string, isLetter: char -> bool): seq<Tag>
    requires 0 <= j && o <= |text|
    decreases o - j
  {
    if j >= o then []
    else if isLetter(text[j]) then CustomScan(text, j + 1, o, word + [text[j]], isLetter)
    else if |word| > 0 then
      (if word in CustomTokens then [Tag(j - |word|, |word|, Nfx(KeyWord))] else [])
      + CustomScan(text, j + 1, o, [], isLetter)
    else CustomScan(text, j + 1, o, [], isLetter)
  }

  /** `FindCustomTokens` over text[start .. start + length). */
  method FindCustomTokens(tags: seq<Tag>, text: string, start: int, length: int, isLetter: char -> bool)
    returns (tags': seq<Tag>)
    requires 0 <= start && 0 <= length && start + length <= |text|
    ensures tags' == tags + CustomScan(text, start, start + length, [], isLetter)
  {
    tags' := tags;
    var j := start;
    var word: string := [];
    while j < start + length
      invariant start <= j <= start + length
      invariant tags' + CustomScan(text, j, start + length, word, isLetter)
             == tags + CustomScan(text, start, start + length, [], isLetter)
    {
      var c := text[j];
      ghost var before, w0 := tags', word;
      ghost var piece := if !isLetter(c) && |word| > 0 && word in CustomTokens
                         then [Tag(j - |word|, |word|, Nfx(KeyWord))] else [];
      if isLetter(c) {
        word := word + [c];
      } else if |word| > 0 {
        var matched := Parser.AnyCompare(word, CustomTokens);
        if matched {
          tags' := tags' + [Tag(j - |word|, |word|, Nfx(KeyWord))];
        }
        word := [];
      }
      assert tags' == before + piece;
      assert CustomScan(text, j, start + length, w0, isLetter)
          == piece + CustomScan(text, j + 1, start + length, word, isLetter);
      AppendAssoc(before, piece, CustomScan(text, j + 1, start + length, word, isLetter));
      j := j + 1;
    }
  }

  /** Every custom tag is a KeyWord. */
  lemma {:induction false} CustomScanKeyWords(text: string, j: int, o: int, word: string, isLetter: char -> bool)
    requires 0 <= j && o <= |text|
    ensures forall t <- CustomScan(text, j, o, word, isLetter) :: t.kind == Nfx(KeyWord)
    decreases o - j
  {
    if j < o {
      CustomScanKeyWords(text, j + 1, o, if isLetter(text[j]) then word + [text[j]] else [], isLetter);
    }
  }

  /** A word that runs to the end of the range is never tagged: from inside a
      letter run reaching o nothing at all is emitted. */
  lemma {:induction false} CustomFinalRunUntagged(text: string, i: int, o: int, word: string, isLetter: char -> bool)
    requires 0 <= i <= o <= |text|
    requires forall p :: i <= p < o ==> isLetter(text[p])
    ensures CustomScan(text, i, o, word, isLetter) == []
    decreases o - i
  {
    if i < o {
      CustomFinalRunUntagged(text, i + 1, o, word + [text[i]], isLetter);
    }
  }

  lemma {:induction false} CustomRunFrom(text: string, a: int, i: int, b: int, o: int, isLetter: char -> bool)
    requires 0 <= a <= i <= b < o <= |text|
    requires forall p :: a <= p < b ==> isLetter(text[p])
    requires !isLetter(text[b])
    ensures CustomScan(text, i, o, text[a..i], isLetter)
         == (if b > a && text[a..b] in CustomTokens then [Tag(a, b - a, Nfx(KeyWord))] else [])
            + CustomScan(text, b + 1, o, [], isLetter)
    decreases b - i
  {
    if i < b {
      assert text[a..i] + [text[i]] == text[a..i + 1];
      CustomRunFrom(text, a, i + 1, b, o, isLetter);
    } else {
      assert |text[a..i]| == b - a;
    }
  }

  /** A letter run text[a..b) followed by a non-letter is tagged exactly on
      the word, (a, b - a), when it is one of the custom words. */
  lemma CustomInteriorRun(text: string, a: int, b: int, o: int, isLetter: char -> bool)
    requires 0 <= a < b < o <= |text|
    requires forall p :: a <= p < b ==> isLetter(text[p])
    requires !isLetter(text[b])
    ensures CustomScan(text, a, o, [], isLetter)
         == (if text[a..b] in CustomTokens then [Tag(a, b - a, Nfx(KeyWord))] else [])
            + CustomScan(text, b + 1, o, [], isLetter)
  {
    assert text[a..a] == [];
    CustomRunFrom(text, a, a, b, o, isLetter);
  }

  /** The two matchers disagree on a final word: `?[get]` style areas ending
      in a context word are tagged by the current matcher (one character to
      the left) and not at all by the custom one. */
  lemma FinalWordOnlyCurrentMatcher(text: string, a: int, o: int, isLetter: char -> bool)
    requires 0 <= a < o <= |text|
    requires forall p :: a <= p < o ==> isLetter(text[p])
    requires text[a..o] in CustomTokens
    ensures Parser.KeywordScan(text, a, o, [], isLetter) == [Tag(a - 1, o - a, Nfx(KeyWord))]
    ensures CustomScan(text, a, o, [], isLetter) == []
  {
    var w := text[a..o];
    Parser.KeywordFinalRun(text, a, o, [], isLetter);
    assert CustomTokens == Parser.ContextCSharpTokens;
    assert Parser.FindTags(w, o - 1, []) == [Tag(a - 1, o - a, Nfx(KeyWord))];
    CustomFinalRunUntagged(text, a, o, [], isLetter);
  }

  // ---------------------------------------------------------------------------
  // Bracket zones.

  /** An `@[`, `#[` or `?[` zone opens at k (the two tests of the source
      cannot both apply at one index). */
  predicate OldBracketOpens(text: string, k: int)
  {
    0 <= k < |text| && (text[k] == '@' || text[k] == '#' || text[k] == '?') && BracketOpens(text, k, text[k])
  }

  /** The braces, then the C#-like tokens and the custom words of the
      interior; no area tag. */
  function OldBracketTags(text: string, k: int, o: int, env: Collaborators): seq<Tag>
    requires 0 <= k && k + 2 <= o < |text|
  {
    [Tag(k, 2, Nfx(ExpressionBrace)), Tag(o, 1, Nfx(ExpressionBrace))]
    + OldCSharpTags(text, k + 2, o - k - 2, env) + CustomScan(text, k + 2, o, [], env.isLetter)
  }

  function OldBracketZone(text: string, k: int, env: Collaborators): seq<Tag>
    requires 0 <= k < |text|
  {
    if OldBracketOpens(text, k) then
      match FirstCloser(text, k + 1, CloseBracket)
      case Some(o) => OldBracketTags(text, k, o, env)
      case None => []
    else []
  }

  method TagBracketZone(tags: seq<Tag>, text: string, k: int, env: Collaborators) returns (tags': seq<Tag>)
    requires 0 <= k < |text|
    ensures tags' == tags + OldBracketZone(text, k, env)
  {
    tags' := tags;
    if OldBracketOpens(text, k) {
      var closer := SeekCloser(text, k + 1, CloseBracket);
      if closer.Some? {
        var o := closer.value;
        tags' := tags' + [Tag(k, 2, Nfx(ExpressionBrace)), Tag(o, 1, Nfx(ExpressionBrace))];
        var j := k + 2;
        tags' := FindCSharpTokens(tags', text, j, o - j, env);
        tags' := FindCustomTokens(tags', text, j, o - j, env.isLetter);
        AppendAssoc(tags + [Tag(k, 2, Nfx(ExpressionBrace)), Tag(o, 1, Nfx(ExpressionBrace))],
                    OldCSharpTags(text, j, o - j, env), CustomScan(text, j, o, [], env.isLetter));
        AppendAssoc(tags, [Tag(k, 2, Nfx(ExpressionBrace)), Tag(o, 1, Nfx(ExpressionBrace))],
                    OldCSharpTags(text, j, o - j, env));
        AppendAssoc(tags, [Tag(k, 2, Nfx(ExpressionBrace)), Tag(o, 1, Nfx(ExpressionBrace))]
                          + OldCSharpTags(text, j, o - j, env), CustomScan(text, j, o, [], env.isLetter));
      }
    }
  }

  /** No older bracket zone emits an area tag: every tag is a brace, a
      C#-like category or a custom keyword. */
  lemma OldBracketNoArea(text: string, k: int, env: Collaborators)
    requires 0 <= k < |text|
    ensures forall t <- OldBracketZone(text, k, env) ::
              t.kind != Nfx(Area) && t.kind != Nfx(StatementArea) && t.kind != Nfx(ExpressionArea)
  {
    if OldBracketOpens(text, k) && FirstCloser(text, k + 1, CloseBracket).Some? {
      var o := FirstCloser(text, k + 1, CloseBracket).value;
      var tokens := env.csLex(text[k + 2..o]);
      Parser.TokenTagsMembers(tokens, k + 2, OldCSharpCategory);
      CustomScanKeyWords(text, k + 2, o, [], env.isLetter);
      forall t <- OldCSharpTags(text, k + 2, o - k - 2, env)
        ensures t.kind.Nfx? && t.kind.category in {Comment, KeyWord, Literal, Brace}
      {
        var i :| 0 <= i < |tokens| && Parser.TokenTag(tokens[i], k + 2, OldCSharpCategory) == Some(t);
      }
    }
  }

  // ---------------------------------------------------------------------------
  // The #[class] section with the absolute length.

  /** The substring the older scanner takes is in range: when a later `#[`
      exists at o, j + o must not pass the end of the text. */
  predicate ClassSectionInRange(text: string, k: int)
    requires 0 <= k < |text|
  {
    ClassOpens(text, k) && FirstCloser(text, k + |ClassAreaFull|, HashOpen).Some? ==>
      k + |ClassAreaFull| + FirstCloser(text, k + |ClassAreaFull|, HashOpen).value <= |text|
  }

  predicate ClassSectionsInRange(text: string)
  {
    forall k :: 0 <= k < |text| ==> ClassSectionInRange(text, k)
  }

  /** The length the older scanner passes: the index o of the next `#[`
      itself, or the rest of the text. */
  function OldClassLength(text: string, j: int): int
    requires 0 <= j <= |text|
  {
    match FirstCloser(text, j, HashOpen)
    case Some(o) => o
    case None => |text| - j
  }

  function OldClassSection(text: string, k: int, env: Collaborators): seq<Tag>
    requires 0 <= k < |text| && ClassSectionInRange(text, k)
  {
    if ClassOpens(text, k) then
      var j := k + |ClassAreaFull|;
      var len := OldClassLength(text, j);
      OldCSharpTags(text, j, len, env) + CustomScan(text, j, j + len, [], env.isLetter)
    else []
  }

  method TagClassSection(tags: seq<Tag>, text: string, k: int, env: Collaborators) returns (tags': seq<Tag>)
    requires 0 <= k < |text| && ClassSectionInRange(text, k)
    ensures tags' == tags + OldClassSection(text, k, env)
  {
    tags' := tags;
    if ClassOpens(text, k) {
      var j := k + |ClassAreaFull|;
      var o := SeekCloser(text, j, HashOpen);
      var len := if o.Some? then o.value else |text| - j;
      assert len == OldClassLength(text, j) && j + len <= |text|;
      assert OldClassSection(text, k, env) == OldCSharpTags(text, j, len, env) + CustomScan(text, j, j + len, [], env.isLetter);
      tags' := TagOldClassTags(tags, text, j, len, env);
    }
  }

  /** The lexing of the section text[j .. j + len). */
  method TagOldClassTags(tags: seq<Tag>, text: string, j: int, len: int, env: Collaborators) returns (tags': seq<Tag>)
    requires 0 <= j && 0 <= len && j + len <= |text|
    ensures tags' == tags + (OldCSharpTags(text, j, len, env) + CustomScan(text, j, j + len, [], env.isLetter))
  {
    tags' := FindCSharpTokens(tags, text, j, len, env);
    tags' := FindCustomTokens(tags', text, j, len, env.isLetter);
    AppendAssoc(tags, OldCSharpTags(text, j, len, env), CustomScan(text, j, j + len, [], env.isLetter));
  }

  /** The older length against the current scanner's: without a later `#[`
      both run to the end of the text; with one, the older length is the
      current one plus the section's own start j = k + 8, so the older
      section swallows the `#[` that ends the current one. */
  lemma ClassLengthAbsolute(text: string, k: int)
    requires 0 <= k < |text| && ClassOpens(text, k)
    ensures var j := k + |ClassAreaFull|;
            FirstCloser(text, j, HashOpen).None? ==>
              OldClassLength(text, j) == NhtTagging.ClassLength(text, j) == |text| - j
    ensures var j := k + |ClassAreaFull|;
            FirstCloser(text, j, HashOpen).Some? ==>
              OldClassLength(text, j) == NhtTagging.ClassLength(text, j) + j
    ensures var j := k + |ClassAreaFull|;
            FirstCloser(text, j, HashOpen).Some? ==>
              NhtTagging.ClassLength(text, j) < OldClassLength(text, j)
              && ClosesAt(text, j + NhtTagging.ClassLength(text, j), HashOpen)
  {
  }

  /** `#[class]x#[y]`: the next `#[` is at 9, the section starts at 8, and
      8 + 9 passes the end of the 13 characters, so the older scanner's
      substring is out of range. */
  lemma ClassSectionOverrun()
    ensures !ClassSectionInRange("#[class]x#[y]", 0)
  {
    var text := "#[class]x#[y]";
    assert text[0..8] == ClassAreaFull;
    assert ClassOpens(text, 0);
    assert !ClosesAt(text, 8, HashOpen);
    assert ClosesAt(text, 9, HashOpen);
    assert FirstCloser(text, 9, HashOpen) == Some(9);
    assert FirstCloser(text, 8, HashOpen) == Some(9);
  }

  // ---------------------------------------------------------------------------
  // The laconf zone without a break.

  /** One pass of the laconf loop at closer o: the two delimiters and the
      laconfig tokens of text[k + 9 .. o). */
  function LaconfigPass(text: string, k: int, o: int, env: Collaborators): seq<Tag>
    requires 0 <= k && k + |LaconfigStart| <= o < |text|
  {
    [Tag(k, |LaconfigStart|, Nfx(Laconf)), Tag(o, |LaconfigEnd|, Nfx(Laconf))]
    + Parser.TokenTags(env.laconfLex(text[k + |LaconfigStart|..o]), k + |LaconfigStart|, Parser.LaconfigCategory)
  }

  /** What index o adds: a pass when a `#</laconf>` closes there. */
  function LaconfigPassAt(text: string, k: int, o: int, env: Collaborators): seq<Tag>
    requires LaconfigOpens(text, k) && k + 1 <= o < |text|
  {
    if ClosesAt(text, o, LaconfigClose) then
      LaconfigCloserAfterOpener(text, k, o);
      LaconfigPass(text, k, o, env)
    else []
  }

  /** The passes for every closer at or after o. */
  function LaconfigPasses(text: string, k: int, o: int, env: Collaborators): seq<Tag>
    requires LaconfigOpens(text, k) && k + 1 <= o <= |text|
    decreases |text| - o
  {
    if o == |text| then [] else LaconfigPassAt(text, k, o, env) + LaconfigPasses(text, k, o + 1, env)
  }

  function OldLaconfigZone(text: string, k: int, env: Collaborators): seq<Tag>
    requires 0 <= k < |text|
  {
    if LaconfigOpens(text, k) then LaconfigPasses(text, k, k + 1, env) else []
  }

  /** The body of the closing loop at index o. */
  method TagLaconfigPassAt(tags: seq<Tag>, text: string, k: int, o: int, env: Collaborators) returns (tags': seq<Tag>)
    requires LaconfigOpens(text, k) && k + 1 <= o < |text|
    ensures tags' == tags + LaconfigPassAt(text, k, o, env)
  {
    tags' := tags;
    if ClosesAt(text, o, LaconfigClose) {
      LaconfigCloserAfterOpener(text, k, o);
      var delimiters := [Tag(k, |LaconfigStart|, Nfx(Laconf)), Tag(o, |LaconfigEnd|, Nfx(Laconf))];
      var j := k + |LaconfigStart|;
      tags' := Parser.AppendTokenTags(tags' + delimiters, env.laconfLex(text[j..o]), j, Parser.LaconfigCategory);
      AppendAssoc(tags, delimiters, Parser.TokenTags(env.laconfLex(text[j..o]), j, Parser.LaconfigCategory));
    }
  }

  method TagLaconfigZone(tags: seq<Tag>, text: string, k: int, env: Collaborators) returns (tags': seq<Tag>)
    requires 0 <= k < |text|
    ensures tags' == tags + OldLaconfigZone(text, k, env)
  {
    tags' := tags;
    if LaconfigOpens(text, k) {
      var o := k + 1;
      while o < |text|
        invariant k + 1 <= o <= |text|
        invariant tags' + LaconfigPasses(text, k, o, env) == tags + LaconfigPasses(text, k, k + 1, env)
      {
        ghost var before := tags';
        tags' := TagLaconfigPassAt(tags', text, k, o, env);
        AppendAssoc(before, LaconfigPassAt(text, k, o, env), LaconfigPasses(text, k, o + 1, env));
        o := o + 1;
      }
    }
  }

  /** Every closer after the opener yields its own pass: the passes from o end
      with the passes from any later closer p, and those begin with p's own
      pass, so both delimiters are tagged again for each closer. */
  lemma {:induction false} LaconfigEveryCloser(text: string, k: int, o: int, p: int, env: Collaborators)
    requires LaconfigOpens(text, k) && k + 1 <= o <= p < |text| && ClosesAt(text, p, LaconfigClose)
    ensures p >= k + |LaconfigStart|
    ensures LaconfigPass(text, k, p, env) <= LaconfigPasses(text, k, p, env)
    ensures IsSuffix(LaconfigPasses(text, k, p, env), LaconfigPasses(text, k, o, env))
    decreases p - o
  {
    LaconfigCloserAfterOpener(text, k, p);
    if o < p {
      var fromP, fromNext, fromO := LaconfigPasses(text, k, p, env), LaconfigPasses(text, k, o + 1, env), LaconfigPasses(text, k, o, env);
      LaconfigEveryCloser(text, k, o + 1, p, env);
      LaconfigPassesKeepLater(text, k, o, env);
      SuffixTrans(fromP, fromNext, fromO);
    } else {
      LaconfigPassesStartWithPass(text, k, p, env);
    }
  }

  lemma LaconfigPassesKeepLater(text: string, k: int, o: int, env: Collaborators)
    requires LaconfigOpens(text, k) && k + 1 <= o < |text|
    ensures IsSuffix(LaconfigPasses(text, k, o + 1, env), LaconfigPasses(text, k, o, env))
  {
    SuffixAppend(LaconfigPassAt(text, k, o, env), LaconfigPasses(text, k, o + 1, env));
  }

  lemma LaconfigPassesStartWithPass(text: string, k: int, p: int, env: Collaborators)
    requires LaconfigOpens(text, k) && k + 1 <= p < |text| && ClosesAt(text, p, LaconfigClose)
    requires p >= k + |LaconfigStart|
    ensures LaconfigPass(text, k, p, env) <= LaconfigPasses(text, k, p, env)
    ensures IsSuffix(LaconfigPasses(text, k, p, env), LaconfigPasses(text, k, p, env))
  {
    PrefixAppend(LaconfigPass(text, k, p, env), LaconfigPass(text, k, p, env), LaconfigPasses(text, k, p + 1, env));
    SuffixAppend([], LaconfigPasses(text, k, p, env));
  }

  /** The current scanner tags only the first closer: no laconfig token is
      ever tagged Laconf, so an end-delimiter tag in its zone sits on the
      first closer. */
  lemma CurrentLaconfigFirstCloserOnly(text: string, k: int, o: int, env: Collaborators)
    requires 0 <= k < |text| && LaconfigOpens(text, k)
    requires Tag(o, |LaconfigEnd|, Nfx(Laconf)) in NhtTagging.LaconfigZoneTags(text, k, env)
    ensures FirstCloser(text, k + 1, LaconfigClose) == Some(o)
  {
    var first := FirstCloser(text, k + 1, LaconfigClose).value;
    LaconfigCloserAfterOpener(text, k, first);
    var j := k + |LaconfigStart|;
    Parser.LaconfigTokensNotDelimiters(env.laconfLex(text[j..first]), j);
  }

  // ---------------------------------------------------------------------------
  // Style and script zones without a break.

  /** The passes of an embedded zone opened at k, whose content starts at
      `from`, for every closer at or after o; every pass is remapped from
      k + |"<style>"|, the offset the older FindPropTags adds. */
  function EmbeddedPasses(text: string, k: int, from: int, o: int, c: Closer, ct: ContentType,
                          env: Collaborators): seq<Tag>
    requires 0 <= k <= from <= o <= |text|
    decreases |text| - o
  {
    if o == |text| then []
    else
      (if ClosesAt(text, o, c) then Parser.RemapEmbedded(env.aggregate(text[from..o], ct), k + |StyleStart|, ct)
       else [])
      + EmbeddedPasses(text, k, from, o + 1, c, ct, env)
  }

  function OldStyleZone(text: string, k: int, env: Collaborators): seq<Tag>
    requires 0 <= k < |text|
  {
    if StartsAt(text, k, StyleStart) then
      EmbeddedPasses(text, k, k + |StyleStart|, k + |StyleStart|, StyleClose, Css, env)
    else []
  }

  function OldScriptZone(text: string, k: int, env: Collaborators): seq<Tag>
    requires 0 <= k < |text|
  {
    if StartsAt(text, k, ScriptStart) then
      EmbeddedPasses(text, k, k + |ScriptStart|, k + |ScriptStart|, ScriptClose, JavaScript, env)
    else []
  }

  /** This file's `FindPropTags`: the base passed in is the zone's opener,
      and the remap adds |"<style>"| to it. */
  method FindPropTags(tags: seq<Tag>, ct: ContentType, textSpan: string, bufferStartPosition: int,
                      env: Collaborators)
    returns (tags': seq<Tag>)
    ensures tags' == tags + Parser.RemapEmbedded(env.aggregate(textSpan, ct),
                                                 bufferStartPosition + |StyleStart|, ct)
  {
    tags' := Parser.FindPropTags(tags, ct, textSpan, bufferStartPosition + |StyleStart|, env);
  }

  /** The closing loop of a style or script zone, which goes on after every
      closer. */
  method TagEmbeddedZone(tags: seq<Tag>, text: string, k: int, from: int, c: Closer, ct: ContentType,
                         env: Collaborators)
    returns (tags': seq<Tag>)
    requires 0 <= k <= from <= |text|
    ensures tags' == tags + EmbeddedPasses(text, k, from, from, c, ct, env)
  {
    tags' := tags;
    var o := from;
    while o < |text|
      invariant from <= o <= |text|
      invariant tags' + EmbeddedPasses(text, k, from, o, c, ct, env)
             == tags + EmbeddedPasses(text, k, from, from, c, ct, env)
    {
      ghost var before := tags';
      ghost var piece: seq<Tag> := [];
      if ClosesAt(text, o, c) {
        var tt := text[from..o];
        tags' := FindPropTags(tags', ct, tt, k, env);
        piece := Parser.RemapEmbedded(env.aggregate(tt, ct), k + |StyleStart|, ct);
      }
      AppendAssoc(before, piece, EmbeddedPasses(text, k, from, o + 1, c, ct, env));
      o := o + 1;
    }
  }

  method TagStyleZone(tags: seq<Tag>, text: string, k: int, env: Collaborators) returns (tags': seq<Tag>)
    requires 0 <= k < |text|
    ensures tags' == tags + OldStyleZone(text, k, env)
  {
    tags' := tags;
    if StartsAt(text, k, StyleStart) {
      tags' := TagEmbeddedZone(tags', text, k, k + |StyleStart|, StyleClose, Css, env);
    }
  }

  method TagScriptZone(tags: seq<Tag>, text: string, k: int, env: Collaborators) returns (tags': seq<Tag>)
    requires 0 <= k < |text|
    ensures tags' == tags + OldScriptZone(text, k, env)
  {
    tags' := tags;
    if StartsAt(text, k, ScriptStart) {
      tags' := TagEmbeddedZone(tags', text, k, k + |ScriptStart|, ScriptClose, JavaScript, env);
    }
  }

  /** Positions without a closer add nothing. */
  lemma {:induction false} EmbeddedPassesSkip(text: string, k: int, from: int, o: int, p: int, c: Closer,
                                              ct: ContentType, env: Collaborators)
    requires 0 <= k <= from <= o <= p <= |text|
    requires forall q :: o <= q < p ==> !ClosesAt(text, q, c)
    ensures EmbeddedPasses(text, k, from, o, c, ct, env) == EmbeddedPasses(text, k, from, p, c, ct, env)
    decreases p - o
  {
    if o < p {
      EmbeddedPassesSkip(text, k, from, o + 1, p, c, ct, env);
    }
  }

  /** The first pass is the one the current scanner makes (its style base is
      the same k + 7); every later closer then adds another pass over the
      longer content. */
  lemma StyleFirstPassThenMore(text: string, k: int, o: int, env: Collaborators)
    requires 0 <= k < |text| && StartsAt(text, k, StyleStart)
    requires FirstCloser(text, k + |StyleStart|, StyleClose) == Some(o)
    ensures OldStyleZone(text, k, env)
         == NhtTagging.StyleZone(text, k, env) + EmbeddedPasses(text, k, k + |StyleStart|, o + 1, StyleClose, Css, env)
  {
    EmbeddedPassesSkip(text, k, k + |StyleStart|, k + |StyleStart|, o, StyleClose, Css, env);
  }

  /** The script zone likewise: the first pass is the current scanner's
      (content from k + 8, remapped from k + 7), then one more pass for every
      later `</script>`. */
  lemma ScriptFirstPassThenMore(text: string, k: int, o: int, env: Collaborators)
    requires 0 <= k < |text| && StartsAt(text, k, ScriptStart)
    requires FirstCloser(text, k + |ScriptStart|, ScriptClose) == Some(o)
    ensures OldScriptZone(text, k, env)
         == NhtTagging.ScriptZone(text, k, env)
            + EmbeddedPasses(text, k, k + |ScriptStart|, o + 1, ScriptClose, JavaScript, env)
  {
    EmbeddedPassesSkip(text, k, k + |ScriptStart|, k + |ScriptStart|, o, ScriptClose, JavaScript, env);
  }

  // ---------------------------------------------------------------------------
  // The whole scan.

  function OldTagsAt(text: string, k: int, env: Collaborators): seq<Tag>
    requires 0 <= k < |text| && ClassSectionInRange(text, k)
  {
    OldBracketZone(text, k, env) + OldClassSection(text, k, env) + OldLaconfigZone(text, k, env)
    + OldStyleZone(text, k, env) + OldScriptZone(text, k, env)
  }

  function OldSteps(text: string, env: Collaborators): (r: seq<seq<Tag>>)
    requires ClassSectionsInRange(text)
    ensures |r| == |text|
  {
    seq(|text|, k requires 0 <= k < |text| => OldTagsAt(text, k, env))
  }

  /** The tags after indices 0 .. k - 1. */
  function OldScan(text: string, k: int, env: Collaborators): seq<Tag>
    requires 0 <= k <= |text| && ClassSectionsInRange(text)
  {
    Concat(OldSteps(text, env)[..k])
  }

  lemma OldScanStep(text: string, k: int, env: Collaborators)
    requires 0 <= k < |text| && ClassSectionsInRange(text)
    ensures OldScan(text, k + 1, env) == OldScan(text, k, env) + OldTagsAt(text, k, env)
  {
    ConcatStep(OldSteps(text, env), k);
  }

  /** The older scan tags every later laconf closer's end delimiter. */
  lemma OldScanTagsEveryCloser(text: string, k: int, p: int, n: int, env: Collaborators)
    requires ClassSectionsInRange(text) && 0 <= k < p < |text| && k < n <= |text|
    requires LaconfigOpens(text, k) && ClosesAt(text, p, LaconfigClose)
    ensures Tag(p, |LaconfigEnd|, Nfx(Laconf)) in OldScan(text, n, env)
  {
    LaconfigEveryCloser(text, k, k + 1, p, env);
    var t := Tag(p, |LaconfigEnd|, Nfx(Laconf));
    assert t in LaconfigPass(text, k, p, env);
    InPrefixOrSuffix(t, LaconfigPass(text, k, p, env), LaconfigPasses(text, k, p, env));
    InPrefixOrSuffix(t, LaconfigPasses(text, k, p, env), LaconfigPasses(text, k, k + 1, env));
    var steps := OldSteps(text, env)[..n];
    assert steps[k] == OldTagsAt(text, k, env);
    ConcatKeeps(steps, k, t);
  }

  method TagIndex(tags: seq<Tag>, text: string, k: int, env: Collaborators) returns (tags': seq<Tag>)
    requires 0 <= k < |text| && ClassSectionInRange(text, k)
    ensures tags' == tags + OldTagsAt(text, k, env)
  {
    // zones: what index k has added so far
    tags' := TagBracketZone(tags, text, k, env);
    ghost var zones := OldBracketZone(text, k, env);
    tags' := TagClassSection(tags', text, k, env);
    AppendAssoc(tags, zones, OldClassSection(text, k, env));
    zones := zones + OldClassSection(text, k, env);
    tags' := TagLaconfigZone(tags', text, k, env);
    AppendAssoc(tags, zones, OldLaconfigZone(text, k, env));
    zones := zones + OldLaconfigZone(text, k, env);
    tags' := TagStyleZone(tags', text, k, env);
    AppendAssoc(tags, zones, OldStyleZone(text, k, env));
    zones := zones + OldStyleZone(text, k, env);
    tags' := TagScriptZone(tags', text, k, env);
    AppendAssoc(tags, zones, OldScriptZone(text, k, env));
  }

  /** The `while (k < text.Length)` pass of the older `GetTags`. */
  method ScanText(text: string, env: Collaborators) returns (tags: seq<Tag>)
    requires ClassSectionsInRange(text)
    ensures tags == OldScan(text, |text|, env)
  {
    tags := [];
    var k := 0;
    while k < |text|
      invariant 0 <= k <= |text|
      invariant tags == OldScan(text, k, env)
    {
      tags := TagIndex(tags, text, k, env);
      OldScanStep(text, k, env);
      k := k + 1;
    }
  }

  // ---------------------------------------------------------------------------
  // The classifier and its snapshot cache.

  class NfxClassifier {
    const env: Collaborators
    var snapshot: Option<nat>
    var oldtags: Option<seq<Tag>>
    var subscribed: bool
    var changes: seq<Notice>

    constructor (env: Collaborators, subscribed: bool)
      ensures this.env == env && this.subscribed == subscribed
      ensures snapshot.None? && oldtags.None? && changes == []
    {
      this.env := env;
      this.subscribed := subscribed;
      snapshot := None;
      oldtags := None;
      changes := [];
    }

    /** `GetTags`: every recompute announces the whole snapshot (the change
        test is disabled), then caches the tags. */
    method GetTags(spans: seq<SnapshotSpan>) returns (r: Option<seq<Tag>>)
      requires |spans| > 0 && snapshot != Some(spans[0].snapshot.version) ==>
                 ClassSectionsInRange(spans[0].snapshot.text)
      modifies this
      ensures |spans| == 0 ==> r == Some([]) && unchanged(this)
      ensures |spans| > 0 && old(snapshot) == Some(spans[0].snapshot.version) ==>
                r == old(oldtags) && unchanged(this)
      ensures |spans| > 0 && old(snapshot) != Some(spans[0].snapshot.version) ==>
                var s := spans[0].snapshot;
                && r == Some(OldScan(s.text, |s.text|, env)) && oldtags == r && snapshot == Some(s.version)
                && changes == old(changes) + (if subscribed then [WholeSnapshot(s)] else [])
                && subscribed == old(subscribed)
    {
      if |spans| < 1 {
        return Some([]);
      }
      var newSnapshot := spans[0].snapshot;
      if snapshot == Some(newSnapshot.version) {
        return oldtags;
      }
      snapshot := Some(newSnapshot.version);
      var tags := ScanText(newSnapshot.text, env);
      if subscribed {
        changes := changes + [WholeSnapshot(newSnapshot)];
      }
      oldtags := Some(tags);
      return Some(tags);
    }
  }
}
