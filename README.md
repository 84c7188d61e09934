# NFX markup zone scanners in Dafny

This project models the tagging core of the NFX markup editor extension. The
extension highlights `.nht` documents that mix plain markup with four embedded
sub-languages:

- C#-like bracket areas `#[…]`, `@[…]` and `?[…]`;
- a `#[class]` section;
- laconic configuration blocks `#<laconf>…#</laconf>`;
- `<style>` and `<script>` blocks.

Each tagger walks the whole text of an editor snapshot index by index. At each
index it recognises the zones that open there and finds their closing markers.
It hands each zone's interior to a lexer, a parser or an embedded-language
classifier, and maps what comes back into document offsets. The result is one
ordered list of classification tags, plus error tags for the laconfig
diagnostics. Each tagger caches its result per snapshot and raises a
`TagsChanged` event when it recomputes.

Modules, one per source file:

| module | file | models |
|---|---|---|
| `Markup` | (shared) | tags, tokens, messages, snapshots, the delimiter constants, the closing-marker search, the static error list |
| `Parser` | Classification/Parser.cs | `Helper.Compare`, `Find` / `FindAdditionalsTokens`, the two token-category mappings, `FindCSharpTokens`, `GetLaconicTags`, the `FindPropTags` remap |
| `NhtTagging` | Classification/NhtTaggerProvider.cs | the current zone scanner, its error interface and its cache |
| `NfxClassification` | Classification/NfxClassifier.cs | the older scanner: no area tags, a custom word matcher, an absolute `#[class]` length, closing loops without `break` |
| `NfxErrors` | Error/NfxErrorTaggerProvider.cs | the laconf-only error scanner |
| `LaconicProvider` | Laconic/LaconicTagProvider.cs | the whole-document laconfig tagger with the clamped error window |
| `LaconicClassfier` | Laconic/LaconicClassfier.cs | the whole-document laconfig tagger with the fixed ten-character window |
| `MarkupLaconic` | Classification/LaconicTagProvider.cs | the whole-document laconfig tagger built on the shared parser helper, and its `IClassifier` face |

How the model is built:

- **Scanners.** Every scanner is an imperative `method` with the source's
  `while` loops. It is proved equal to a specification function that folds
  over the indices of the text: `Scan`, `OldScan` and `ErrorScan`. The lemmas
  then state the source's behaviour about those functions:
  - where a zone opens and where it closes;
  - which tags it emits, and at which offsets;
  - that interiors are scanned again;
  - that the older loops without `break` produce one pass for every later
    closer;
  - that only the last laconf zone's diagnostics survive.
- **Taggers.** Each tagger class is a Dafny `class` with these fields:
  - the cached snapshot (its version number);
  - `_oldtags`;
  - whether `TagsChanged` has a handler;
  - a log of the events raised.

  The static `_errorTags` list is an `ErrorStore` object that the instances of
  a class share.
- **Collaborators.** The C#-like lexer, the laconfig lexer and parser, the
  CSS/JavaScript classifier aggregator and `char.IsLetter` are fields of a
  `Collaborators` value. They are arbitrary total functions, so every result
  holds whatever they return.
- **Tag spans.** `CreateTagSpan` is the `Tag` / `ErrorSpan` constructor, and
  the category dictionary `_nfxTypes` is the `NfxTokenType` enumeration itself
  (Classification/TokenTypes.cs:3-19).

Several behaviours of the code differ from what its names and comments
suggest; the model follows the code and proves each of them:

- Bracket zones are not exclusive. The scan index always advances by one, so a
  `#[x]` inside a style block, or inside another zone, is tagged again.
- The older scanner and the error scanner close laconf, style and script zones
  at every later closer, not only the first.
- Script content is remapped from `k + 7` (the length of `<style>`), not from
  where the content starts.
- A `#[` area runs only the keyword matcher, not the C#-like lexer.
- A parser message without a token gets the window `(0, |src| - 1)`.
- The keyword matcher tags the caller's extra words (`render`, `class`) with
  the type the caller passes, which is always KeyWord; the `Special` category of
  Classification/TokenTypes.cs:15 is never produced
  (Classification/Parser.cs:84-88).

## Model

Source paths are relative to the repository root.

| member | source | states |
|---|---|---|
| Markup.WholeSnapshot | NFX.Markup/Classification/NhtTaggerProvider.cs:318-324 | The event every tagger raises covers the whole snapshot: its version, offset 0 and the full text length. |
| Markup.ErrorStore.constructor | NFX.Markup/Classification/NhtTaggerProvider.cs:102 | The class-wide error list starts out null. |
| Markup.FirstCloser | NFX.Markup/Classification/NhtTaggerProvider.cs:159-174 | The closer found is at or after the search start and closes there. No index before it closes. When there is none, no index up to the end closes. |
| Markup.SeekCloser | NFX.Markup/Classification/NhtTaggerProvider.cs:159-174 | The inner `while (o < text.Length)` loop with `break` returns exactly the first closer at or after its start. |
| Markup.LaconfigCloserAfterOpener | NFX.Markup/Classification/NhtTaggerProvider.cs:245-252 | A `#</laconf>` found after a `#<laconf>` opener lies past the whole opener, so the interior substring is always in range. |
| Parser.Compare | NFX.Markup/Classification/Parser.cs:184-198 | True exactly when neither argument is null and the two strings are equal: same length, and equal at every index. |
| Parser.AnyCompare | NFX.Markup/Classification/Parser.cs:79-84 | `Any(word.Compare)` holds exactly when the word is one of the candidates. |
| Parser.FindTags | NFX.Markup/Classification/Parser.cs:76-89 | `Find` adds one tag when the word is a built-in word, and one more when it is an extra word, so a word in both lists gets two tags. |
| Parser.Find | NFX.Markup/Classification/Parser.cs:76-89 | It appends the built-in match, then the extra match, both at `pos - len` with length `len`, where `len` is the word's length. |
| Parser.FindAt | NFX.Markup/Classification/Parser.cs:58-72 | One loop iteration: a non-letter flushes the open word. A letter at the last index flushes the word it completes. Afterwards the open word is again the letters read since the last non-letter. |
| Parser.FindAdditionalsTokens | NFX.Markup/Classification/Parser.cs:52-74 | The loop appends exactly the tags of the keyword-matcher specification over `[start, start + length)`. |
| Parser.KeywordInteriorRun | NFX.Markup/Classification/Parser.cs:60-69 | A maximal letter run `text[a..b)` followed by a non-letter inside the range is looked up once. Its tags sit exactly on the word, `(a, b - a)`, and scanning goes on after `b`. |
| Parser.KeywordFinalRun | NFX.Markup/Classification/Parser.cs:70-71 | A letter run that reaches the end of the range is flushed at the last index. Its tags start one character left of the word, at `a - 1`, with length `o - a`. |
| Parser.KeywordScanSkip | NFX.Markup/Classification/Parser.cs:65-69 | A non-letter with no word open emits nothing. |
| Parser.KeywordScanLocal | NFX.Markup/Classification/Parser.cs:52-74 | The matcher reads only `[start, start + length)`: two texts that agree there give the same tags. |
| Parser.ClassAreaKeywordShifted | NFX.Markup/Classification/Parser.cs:70-71 | In `#[class]`, where `render` and `class` are the extra words, `class` is tagged once, at `(1, 5)`. |
| Parser.LiteralSymbolPriority | NFX.Markup/Classification/Parser.cs:122-152 | A token that is both a literal and a symbol is a Literal to the C#-like mapping and a Brace to the laconfig mapping. |
| Parser.TokenTagsMembers | NFX.Markup/Classification/Parser.cs:118-133 | At most one tag per token. Every classified token yields its tag, and every tag comes from a classified token. There are no tags exactly when no token is classified. |
| Parser.LaconfigTokensNotDelimiters | NFX.Markup/Classification/Parser.cs:120-132 | No laconfig token is ever tagged Laconf. |
| Parser.AppendTokenTags | NFX.Markup/Classification/Parser.cs:118-133 | The `for` loop over the tokens appends, in token order, the tag at `base + col - 1`, as long as the token text, of every token the mapping classifies. |
| Parser.FindCSharpTokens | NFX.Markup/Classification/Parser.cs:136-157 | It appends the C#-like tags of the lexed substring (Comment, Keyword, Literal, then Symbol or Operator as Brace) at `sourceStart + col - 1`. |
| Parser.ColumnRemap | NFX.Markup/Classification/Parser.cs:118-133 | Mapping columns to document offsets is a uniform move: the tags of content at `base` are its content-relative tags (at `col - 1`) moved right by `base`, in the same order, with the same lengths and categories. |
| Parser.ParserWindow | NFX.Markup/Classification/Parser.cs:110-116 | A tokenless message gets offset 0 and one less than the source length. Otherwise the window is at most ten long, starts at or after 0 and ends inside the source, and it contains the erroring column. |
| Parser.ParserErrors | NFX.Markup/Classification/Parser.cs:106-117 | One window per message, in message order, and the i-th is the i-th message's window. |
| Parser.GetLaconicTags | NFX.Markup/Classification/Parser.cs:90-135 | The error windows are relative to the source, not shifted by `startPosition`. The laconfig token tags are appended at `startPosition + col - 1`. |
| Parser.RemapEmbeddedAt | NFX.Markup/Classification/Parser.cs:44-47 | One tag per aggregator span, in order. Each starts at `base + anchor.start` and is one longer for non-CSS content. |
| Parser.RemapRoundTrip | NFX.Markup/Classification/Parser.cs:44-47 | Moving the spans back and narrowing them recovers every span, so the remap loses nothing. |
| Parser.FindPropTags | NFX.Markup/Classification/Parser.cs:20-50 | The loop appends the remapped aggregator spans for the embedded text, in order. |
| NhtTagging.TagBracketInterior | NFX.Markup/Classification/NhtTaggerProvider.cs:193-195 | An `@[` or `?[` interior gets the C#-like tags, then the keyword tags. A `#[` interior gets only the keyword tags, with `render` and `class` as extra words (line 169). |
| NhtTagging.TagBracketTags | NFX.Markup/Classification/NhtTaggerProvider.cs:164-170 | It emits the braces `(k, 2)` and `(o, 1)`, then the interior tags, then the area tag `(k + 2, o - k - 2)`. |
| NhtTagging.TagBracketZone | NFX.Markup/Classification/NhtTaggerProvider.cs:152-176 | The bracket test at k appends exactly the zone's specified tags. |
| NhtTagging.BracketZoneSpans | NFX.Markup/Classification/NhtTaggerProvider.cs:152-175 | A zone emits something exactly when the marker is not doubled, `[` follows and some `]` comes later. Its first two tags are the braces, its last is the area tag, and the `]` is the first one after the `[`. |
| NhtTagging.DoubledMarkerSuppresses | NFX.Markup/Classification/NhtTaggerProvider.cs:152-157 | A doubled marker opens no bracket zone. For `#`, it also opens no class section and no laconf zone. |
| NhtTagging.ClassLength | NFX.Markup/Classification/NhtTaggerProvider.cs:236-239 | The class section runs to the next `#[` or to the end of the text, and contains no `#[`. |
| NhtTagging.SeekClassLength | NFX.Markup/Classification/NhtTaggerProvider.cs:237-238 | The `IndexOf("#[", j)` search gives that length. |
| NhtTagging.TagClassTags | NFX.Markup/Classification/NhtTaggerProvider.cs:236-239 | It appends the C#-like tags, then the keyword tags, of the section. |
| NhtTagging.TagClassSection | NFX.Markup/Classification/NhtTaggerProvider.cs:231-241 | The class test at k appends exactly the section's specified tags. |
| NhtTagging.TagLaconfigTags | NFX.Markup/Classification/NhtTaggerProvider.cs:254-258 | It appends both delimiter tags, then the interior's laconfig tags at the interior's offset, and returns the interior's diagnostic windows. |
| NhtTagging.TagLaconfigZone | NFX.Markup/Classification/NhtTaggerProvider.cs:243-264 | The laconf test at k appends the tags of the zone closed by the first valid `#</laconf>`, and yields that zone's diagnostics. With no zone it appends nothing and yields no diagnostics. |
| NhtTagging.TagStyleZone | NFX.Markup/Classification/NhtTaggerProvider.cs:266-285 | It appends the CSS spans of the content up to the first `</style>`. |
| NhtTagging.TagScriptZone | NFX.Markup/Classification/NhtTaggerProvider.cs:287-305 | It appends the JavaScript spans of the content up to the first `</script>`. |
| NhtTagging.StyleRemapAligned | NFX.Markup/Classification/NhtTaggerProvider.cs:277-279 | The style tags are the content's spans moved by the content's own start, `k + 7`, with their lengths unchanged. |
| NhtTagging.ScriptRemapShifted | NFX.Markup/Classification/NhtTaggerProvider.cs:298-299 | Each script tag starts one character before its span's position in the document and is one character wider. |
| NhtTagging.TagIndex | NFX.Markup/Classification/NhtTaggerProvider.cs:150-307 | One iteration at k appends the bracket, class, laconf, style and script tags, in that order, and yields the laconf diagnostics. |
| NhtTagging.ScanText | NFX.Markup/Classification/NhtTaggerProvider.cs:149-308 | The scan returns the fold of all iterations: every index's tags in order, and the diagnostics of the last laconf zone. |
| NhtTagging.ScanPrefix | NFX.Markup/Classification/NhtTaggerProvider.cs:149-308 | The scan only ever appends: the tags found before k are a prefix of those found before any later n. |
| NhtTagging.BracketZoneRescanned | NFX.Markup/Classification/NhtTaggerProvider.cs:307 | The index advances by one whatever matched, so a bracket zone opening inside another zone's interior still has its braces and its area tag in the result. |
| NhtTagging.LastLaconfigErrorsWin | NFX.Markup/Classification/NhtTaggerProvider.cs:258 | `errorTags` is overwritten per zone, so the scan's diagnostics are those of the last laconf zone. |
| NhtTagging.NoLaconfigNoErrors | NFX.Markup/Classification/NhtTaggerProvider.cs:131 | Without a laconf zone the diagnostics stay the empty list. |
| NhtTagging.NhtTagger.constructor | NFX.Markup/Classification/NhtTaggerProvider.cs:100-102 | No snapshot and no cached tags yet. |
| NhtTagging.NhtTagger.GetErrorTags | NFX.Markup/Classification/NhtTaggerProvider.cs:105-124 | A new snapshot is recorded and announced once. It returns the class-wide list, or an empty one when that is null. |
| NhtTagging.NhtTagger.GetTags | NFX.Markup/Classification/NhtTaggerProvider.cs:128-316 | An empty request returns an empty list and changes nothing. The cached snapshot returns `_oldtags` and changes nothing. A new snapshot is scanned: its tags are returned and cached, its diagnostics replace the class-wide list, and one whole-snapshot event is raised if there is a handler. |
| NhtTagging.StaleAfterErrorQuery | NFX.Markup/Classification/NhtTaggerProvider.cs:105-137 | An error query on a new snapshot records it, so a classification query that follows returns the previous `_oldtags` without scanning. |
| NfxClassification.OperatorOnlyUntagged | NFX.Markup/Classification/NfxClassifier.cs:293-303 | A pure operator token is untagged by this file's mapping, and a Brace to the current mapping. |
| NfxClassification.FindCSharpTokens | NFX.Markup/Classification/NfxClassifier.cs:284-305 | It appends the tags of this file's mapping (Comment, Keyword, Literal, Symbol) at `sourceStart + col - 1`. |
| NfxClassification.FindCustomTokens | NFX.Markup/Classification/NfxClassifier.cs:338-360 | The loop appends exactly the tags of the custom-matcher specification over the range. |
| NfxClassification.CustomScanKeyWords | NFX.Markup/Classification/NfxClassifier.cs:351-354 | Every custom-matcher tag is a KeyWord. |
| NfxClassification.CustomInteriorRun | NFX.Markup/Classification/NfxClassifier.cs:345-356 | A letter run followed by a non-letter is tagged exactly on the word when it is `string`, `get` or `set`. |
| NfxClassification.CustomFinalRunUntagged | NFX.Markup/Classification/NfxClassifier.cs:342-359 | A word that runs to the end of the range is never flushed, so nothing is emitted. |
| NfxClassification.FinalWordOnlyCurrentMatcher | NFX.Markup/Classification/NfxClassifier.cs:338-360 | On a final `get`, `set` or `string`, the current matcher tags it one character to the left and the custom matcher does not tag it. |
| NfxClassification.TagBracketZone | NFX.Markup/Classification/NfxClassifier.cs:119-168 | The `@[`, `#[` and `?[` tests append the braces, then this file's C#-like tags, then the custom tags. |
| NfxClassification.OldBracketNoArea | NFX.Markup/Classification/NfxClassifier.cs:127-141 | No older bracket zone emits an area tag of any kind. |
| NfxClassification.TagClassSection | NFX.Markup/Classification/NfxClassifier.cs:170-180 | The class test appends the section's tags, with the absolute length. |
| NfxClassification.TagOldClassTags | NFX.Markup/Classification/NfxClassifier.cs:177-178 | It appends the C#-like tags, then the custom tags, of `text[j..j+len)`. |
| NfxClassification.ClassLengthAbsolute | NFX.Markup/Classification/NfxClassifier.cs:175-178 | Against the current scanner's `NhtTagging.ClassLength` (NhtTaggerProvider.cs:238): without a later `#[` both lengths are the rest of the text. With one, the older length is the current length plus the section start `j`, so the older section is longer and contains the `#[` that ends the current one. |
| NfxClassification.ClassSectionOverrun | NFX.Markup/Classification/NfxClassifier.cs:177 | In `#[class]x#[y]`, `j + o` passes the end of the text, so the substring is out of range. |
| NfxClassification.TagLaconfigPassAt | NFX.Markup/Classification/NfxClassifier.cs:190-216 | At a valid closer it appends both delimiters, then the laconfig tags of the interior up to that closer. Elsewhere it appends nothing. |
| NfxClassification.TagLaconfigZone | NFX.Markup/Classification/NfxClassifier.cs:182-221 | The closing loop without `break` appends the passes of every closer after the opener. |
| NfxClassification.LaconfigEveryCloser | NFX.Markup/Classification/NfxClassifier.cs:187-219 | Every valid closer p after the opener yields its own pass. The passes from p start with that pass and end the passes from any earlier o. |
| NfxClassification.OldScanTagsEveryCloser | NFX.Markup/Classification/NfxClassifier.cs:182-221 | The older scan tags the end delimiter of every later `#</laconf>`, not only the first. |
| NfxClassification.CurrentLaconfigFirstCloserOnly | NFX.Markup/Classification/NhtTaggerProvider.cs:248-259 | In the current scanner, an end-delimiter tag of a laconf zone sits on the first closer. |
| NfxClassification.FindPropTags | NFX.Markup/Classification/NfxClassifier.cs:307-336 | This file's remap adds the length of `<style>`, 7, to the base it is given. |
| NfxClassification.TagEmbeddedZone | NFX.Markup/Classification/NfxClassifier.cs:228-239 | The closing loop without `break` appends one remapped pass for every later end marker, each over the longer content. |
| NfxClassification.TagStyleZone | NFX.Markup/Classification/NfxClassifier.cs:223-241 | The style test appends all style passes. |
| NfxClassification.TagScriptZone | NFX.Markup/Classification/NfxClassifier.cs:243-260 | The script test appends all script passes, remapped from `k + 7`. |
| NfxClassification.StyleFirstPassThenMore | NFX.Markup/Classification/NfxClassifier.cs:228-239 | The older style zone is the current scanner's zone, followed by one more pass for every later `</style>`. |
| NfxClassification.ScriptFirstPassThenMore | NFX.Markup/Classification/NfxClassifier.cs:243-260 | The older script zone is the current scanner's zone (content from `k + 8`, remapped from `k + 7`), followed by one more pass for every later `</script>`. |
| NfxClassification.TagIndex | NFX.Markup/Classification/NfxClassifier.cs:117-262 | One iteration appends the bracket, class, laconf, style and script tags, in that order. |
| NfxClassification.ScanText | NFX.Markup/Classification/NfxClassifier.cs:115-263 | The scan returns every index's tags, in index order. |
| NfxClassification.NfxClassifier.constructor | NFX.Markup/Classification/NfxClassifier.cs:101-103 | No snapshot and no cached tags yet. |
| NfxClassification.NfxClassifier.GetTags | NFX.Markup/Classification/NfxClassifier.cs:95-282 | An empty request returns an empty list, and the cached snapshot returns `_oldtags`, both without changing anything. A recompute returns and caches the older scan and always raises one whole-snapshot event when there is a handler, because the change test is commented out. |
| NfxErrors.ZoneErrors | NFX.Markup/Error/NfxErrorTaggerProvider.cs:118-122 | One span per parser message. Each starts at `j = k + 9` and ends ten characters, the length of `#</laconf>`, before the closer. |
| NfxErrors.AddZoneErrors | NFX.Markup/Error/NfxErrorTaggerProvider.cs:109-122 | The `foreach` appends the zone's spans. |
| NfxErrors.CloserIndex | NFX.Markup/Error/NfxErrorTaggerProvider.cs:106-123 | At a valid closer it appends that zone's spans. Elsewhere it appends nothing. |
| NfxErrors.TagOpener | NFX.Markup/Error/NfxErrorTaggerProvider.cs:103-125 | The closing loop without `break` appends the spans of every closer after the opener, in order. |
| NfxErrors.ErrorIndex | NFX.Markup/Error/NfxErrorTaggerProvider.cs:98-127 | The opener test at k appends that opener's spans. |
| NfxErrors.ScanErrors | NFX.Markup/Error/NfxErrorTaggerProvider.cs:95-130 | The scan returns every opener's spans, in index order. |
| NfxErrors.ShortZoneNegativeSpan | NFX.Markup/Error/NfxErrorTaggerProvider.cs:121 | An interior shorter than ten characters with a message gets a negative length. |
| NfxErrors.OpenerIgnoresDoubling | NFX.Markup/Error/NfxErrorTaggerProvider.cs:98-101 | The opener test is the classification one without the doubled-`#` check. |
| NfxErrors.DoubledHashOpens | NFX.Markup/Error/NfxErrorTaggerProvider.cs:98-101 | `##<laconf>x` opens a zone at 1 here, and not for the classification scanner. |
| NfxErrors.CloserErrorsPrefix | NFX.Markup/Error/NfxErrorTaggerProvider.cs:104-125 | The spans of the closers before m are a prefix of those before any later n. |
| NfxErrors.EveryCloserReported | NFX.Markup/Error/NfxErrorTaggerProvider.cs:104-125 | For every valid closer after an opener, the spans of the earlier closers followed by that closer's spans are a prefix of the opener's spans. |
| NfxErrors.SecondCloserReportedAgain | NFX.Markup/Error/NfxErrorTaggerProvider.cs:104-125 | With two closers, the opener reports at least the messages of both interiors. |
| NfxErrors.NoOpenerNoErrors | NFX.Markup/Error/NfxErrorTaggerProvider.cs:96-130 | Without an opener there are no spans. |
| NfxErrors.ErrorScanPrefix | NFX.Markup/Error/NfxErrorTaggerProvider.cs:96-130 | The spans found before m are a prefix of those found before any later n. |
| NfxErrors.FindPropTags | NFX.Markup/Error/NfxErrorTaggerProvider.cs:150-179 | The unused remap appends the aggregator spans at `bufferStartPosition + 7 + start`, one wider for non-CSS content. |
| NfxErrors.ErrorRemapShifted | NFX.Markup/Error/NfxErrorTaggerProvider.cs:173-176 | Each of its tags starts seven characters after the shared remap's tag. |
| NfxErrors.NfxErrorTagger.constructor | NFX.Markup/Error/NfxErrorTaggerProvider.cs:79-83 | No snapshot and no cached list yet. |
| NfxErrors.NfxErrorTagger.GetTags | NFX.Markup/Error/NfxErrorTaggerProvider.cs:75-135 | An empty request returns an empty list, and the cached snapshot returns `_oldtags`, both without changing anything. A new snapshot is scanned, announced whenever there is a handler, and cached. |
| NfxErrors.QueryTwice | NFX.Markup/Error/NfxErrorTaggerProvider.cs:79-83 | Two queries on one new snapshot scan once and raise one event, and both return the same list. |
| LaconicProvider.Window | NFX.Markup/Laconic/LaconicTagProvider.cs:162-163 | The window starts at `col - 5` when `col > 4` and at 0 otherwise. It is at most ten long, clamped to the source, and contains the erroring column. |
| LaconicProvider.WindowAsShared | NFX.Markup/Laconic/LaconicTagProvider.cs:162-163 | For a message with a token this is the shared parser helper's window. |
| LaconicProvider.GetLaconicTags | NFX.Markup/Laconic/LaconicTagProvider.cs:145-183 | The `foreach` builds exactly the document's clamped windows, one per message in order, and the laconfig token tags are appended at `col - 1`. |
| LaconicProvider.DocumentErrors | NFX.Markup/Laconic/LaconicTagProvider.cs:158-165 | One clamped window per message, defined only where every message carries a token, as the code dereferences it. |
| LaconicProvider.DocumentErrorsAsShared | NFX.Markup/Laconic/LaconicTagProvider.cs:158-165 | Where every message has a token, these windows are exactly the shared parser helper's (Classification/Parser.cs:110-116). |
| LaconicProvider.DocumentErrorsInside | NFX.Markup/Laconic/LaconicTagProvider.cs:158-165 | Every window lies inside the document, is at most ten long, and covers its message's column when that column is in the document. |
| LaconicProvider.LaconicClassifier.constructor | NFX.Markup/Laconic/LaconicTagProvider.cs:80-82 | No snapshot, no cached tags, no events. |
| LaconicProvider.LaconicClassifier.GetErrorTags | NFX.Markup/Laconic/LaconicTagProvider.cs:84-103 | A new snapshot is recorded and announced once. It returns the class-wide list, or an empty one. |
| LaconicProvider.LaconicClassifier.GetTags | NFX.Markup/Laconic/LaconicTagProvider.cs:107-135 | Empty request and cache hit as in the other taggers. A recompute replaces the class-wide list with the document's windows, raises one event and caches the document's tags. |
| LaconicProvider.ErrorsAfterRecompute | NFX.Markup/Laconic/LaconicTagProvider.cs:84-135 | After a recompute, the error query on the same snapshot returns the new windows and raises nothing more. |
| LaconicClassfier.FixedWindow | NFX.Markup/Laconic/LaconicClassfier.cs:157 | The window starts at `col - 5` when `col > 4` and at 0 otherwise, and is always ten long. |
| LaconicClassfier.FixedWindows | NFX.Markup/Laconic/LaconicClassfier.cs:151-159 | One window per message. |
| LaconicClassfier.FixedVersusClamped | NFX.Markup/Laconic/LaconicClassfier.cs:157 | It starts where the clamped window starts. It equals the clamped window when more than ten characters remain, and otherwise reaches or passes the end where the clamped window stops at the end. |
| LaconicClassfier.WindowPastEnd | NFX.Markup/Laconic/LaconicClassfier.cs:157 | A message at the last column gets a window that runs past the text. |
| LaconicClassfier.LaconicClassifier.constructor | NFX.Markup/Laconic/LaconicClassfier.cs:100-101 | No snapshot, no cached tags, no events. |
| LaconicClassfier.LaconicClassifier.GetErrorTags | NFX.Markup/Laconic/LaconicClassfier.cs:103-122 | A new snapshot is recorded and announced once. It returns the class-wide list, or an empty one. |
| LaconicClassfier.LaconicClassifier.RebuildErrors | NFX.Markup/Laconic/LaconicClassfier.cs:151-159 | The class-wide list is rebuilt from empty, with one fixed window per message. |
| LaconicClassfier.LaconicClassifier.GetTags | NFX.Markup/Laconic/LaconicClassfier.cs:126-180 | Empty request and cache hit as in the other taggers. A recompute rebuilds the list, caches the document's tags and raises one event. |
| LaconicClassfier.WindowsVersusClampedProvider | NFX.Markup/Laconic/LaconicClassfier.cs:151-159 | Against the clamped tagger of Laconic/LaconicTagProvider.cs: the windows agree in number and start, and the fixed ones are never shorter. Both taggers' classification tags are the one `Parser.DocumentTags`. |
| MarkupLaconic.DocumentErrors | NFX.Markup/Classification/LaconicTagProvider.cs:131-136 | One window per parser message of the whole document. |
| MarkupLaconic.TokenlessMessageMarksDocument | NFX.Markup/Classification/Parser.cs:110-115 | A message without a token marks the whole document but its last character. |
| MarkupLaconic.LaconicClassifier.constructor | NFX.Markup/Classification/LaconicTagProvider.cs:160 | No snapshot, no cached tags, and an empty span list. |
| MarkupLaconic.LaconicClassifier.GetErrorTags | NFX.Markup/Classification/LaconicTagProvider.cs:86-107 | A new snapshot is recorded and announced only when there is a handler. It returns the class-wide list, or an empty one. |
| MarkupLaconic.LaconicClassifier.GetTags | NFX.Markup/Classification/LaconicTagProvider.cs:111-141 | A recompute hands the whole text to the shared helper, replaces the class-wide list wholesale, raises one event if there is a handler, and caches the tags. |
| MarkupLaconic.LaconicClassifier.GetClassificationSpans | NFX.Markup/Classification/LaconicTagProvider.cs:158-164 | It always returns the same list, which is never filled. |
| MarkupLaconic.ClassifierStaysEmpty | NFX.Markup/Classification/LaconicTagProvider.cs:111-164 | After a recompute, the tagger answers with the document's tags and the classifier with nothing. |
| MarkupLaconic.StaleAfterErrorQuery | NFX.Markup/Classification/LaconicTagProvider.cs:86-141 | An error query on a new snapshot makes the following classification query return the stale `_oldtags`. |

## Left out

- **Host integration.** The MEF provider classes, content-type registration, classification formats and colours, and the output-window and task-list calls (`OutputString`, `TaskManager.Refresh` / `AddError`) are host glue with no effect on the tags.
- **External collaborators.** The C#-like lexer, the laconfig lexer and parser, the CSS/JavaScript tag aggregator and `char.IsLetter` are not part of this model. They are arbitrary functions in `Collaborators`.
- **The aggregator's buffer.** The throwaway text buffer and the reflection on the private `_anchor` field are left out. An aggregator span is its anchor's start, its length and an opaque classification.
- **Concurrency.** The `lock (updateLock)` blocks are left out, and event handlers run no code. Snapshot identity is a version number.
- **Event order.** The order of the event relative to the stores within one recompute is not stated (`NhtTagging.NhtTagger.GetTags` raises the event before storing the error list; `LaconicProvider.LaconicClassifier.GetTags` raises it after). Only the state after the call is.
- **Exceptions as preconditions.** .NET exceptions are stated as preconditions instead:
  - the older `#[class]` substring that runs past the text is excluded by `ClassSectionsInRange`, and `ClassSectionOverrun` exhibits such a text;
  - a null message token in the two `Laconic/` taggers is excluded by `AllTokened`, because those files dereference the token.
- **Negative spans.** `SnapshotSpan` construction with a negative or out-of-range span is kept as a value, not an exception. This covers `NfxErrors.ZoneErrors` on short interiors, the tokenless window of an empty source, and `LaconicClassfier.FixedWindow` past the end.
- **The `GetLaconicTags` call in Classification/LaconicTagProvider.cs:132.** It passes three arguments where the helper expects a task manager. It is modelled as a call with `startPosition` 0 and no task manager.
- **The error tagger's aggregator.** NFX.Markup/Error/NfxErrorTaggerProvider.cs:162 asks the aggregator for error tags. The model reuses the one aggregator function for it, since nothing calls that `FindPropTags`.
- **The second `Helper.Compare`.** NFX.Markup/Classification/NfxClassifier.cs:388-405 repeats the comparison of NFX.Markup/Classification/Parser.cs:182-199 line for line; both are `Parser.Compare`.
- **Case-insensitive search.** `IndexOf("#[", …, OrdinalIgnoreCase)` is plain substring search, because `#[` contains no letters.
