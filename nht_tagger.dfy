/**
 * NhtTagger (Classification/NhtTaggerProvider.cs): the current zone scanner of
 * `.nht` documents and its snapshot cache.
 *
 * The specification of one scan is a left fold over the document's indices:
 * at every index k the scanner tests, in order, the `#[`, `@[` and `?[` bracket
 * zones, the `#[class]` section, the `#<laconf>` zone and the `<style>` and
 * `<script>` zones (`TagsAt`), then moves on to k + 1 whether or not anything
 * matched. Only the last laconf zone's diagnostics survive a scan.
 */
module NhtTagging {
  import opened Markup
  import Parser

  /** The classification tags and the error tags of one scan. */
  datatype ScanResult = ScanResult(tags: seq<Tag>, errors: seq<ErrorSpan>)

  // ---------------------------------------------------------------------------
  // Bracket zones #[ … ], @[ … ], ?[ … ].

  /** The background category of a bracket zone's interior. */
  function AreaKind(marker: char): NfxTokenType
  {
    if marker == '#' then Area else if marker == '@' then StatementArea else ExpressionArea
  }

  /** The tokens of a bracket zone's interior text[j..o): a `#[` zone runs
      only the keyword matcher, with `render` and `class` as extra words; the
      others run the C#-like lexer and then the keyword matcher. */
  function BracketInterior(text: string, j: int, o: int, marker: char, env: Collaborators): seq<Tag>
    requires 0 <= j <= o <= |text|
  {
    if marker == '#' then Parser.KeywordScan(text, j, o, ["render", "class"], env.isLetter)
    else Parser.CSharpTags(text, j, o - j, env) + Parser.KeywordScan(text, j, o, [], env.isLetter)
  }

  /** The tags of a bracket zone opened at k and closed at o: the two brace
      tags, the interior's tokens and the interior's area tag. */
  function BracketTags(text: string, k: int, o: int, marker: char, env: Collaborators): seq<Tag>
    requires 0 <= k && k + 2 <= o < |text|
  {
    [Tag(k, 2, Nfx(ExpressionBrace)), Tag(o, 1, Nfx(ExpressionBrace))]
    + BracketInterior(text, k + 2, o, marker, env)
    + [Tag(k + 2, o - (k + 2), Nfx(AreaKind(marker)))]
  }

  /** The tags of the bracket zone for `marker` at k: closed by the first `]`
      after the `[`, and nothing at all when there is none. */
  function BracketZone(text: string, k: int, marker: char, env: Collaborators): seq<Tag>
    requires 0 <= k < |text|
  {
    if BracketOpens(text, k, marker) then
      match FirstCloser(text, k + 1, CloseBracket)
      case Some(o) => BracketTags(text, k, o, marker, env)
      case None => []
    else []
  }

  /** The lexing of a bracket zone's interior. */
  method TagBracketInterior(tags: seq<Tag>, text: string, j: int, o: int, marker: char, env: Collaborators)
    returns (tags': seq<Tag>)
    requires 0 <= j <= o <= |text|
    ensures tags' == tags + BracketInterior(text, j, o, marker, env)
  {
    if marker == '#' {
      tags' := Parser.FindAdditionalsTokens(tags, text, j, o - j, ["render", "class"], env.isLetter);
    } else {
      var csharp := Parser.CSharpTags(text, j, o - j, env);
      var keywords := Parser.KeywordScan(text, j, o, [], env.isLetter);
      tags' := Parser.FindCSharpTokens(tags, text, j, o - j, env);
      assert tags' == tags + csharp;
      tags' := Parser.FindAdditionalsTokens(tags', text, j, o - j, [], env.isLetter);
      assert tags' == tags + csharp + keywords;
      AppendAssoc(tags, csharp, keywords);
    }
  }

  /** The tags of a bracket zone once its closer o is found. */
  method TagBracketTags(tags: seq<Tag>, text: string, k: int, o: int, marker: char, env: Collaborators)
    returns (tags': seq<Tag>)
    requires 0 <= k && k + 2 <= o < |text|
    ensures tags' == tags + BracketTags(text, k, o, marker, env)
  {
    var braces := [Tag(k, 2, Nfx(ExpressionBrace)), Tag(o, 1, Nfx(ExpressionBrace))];
    var j := k + 2;
    tags' := TagBracketInterior(tags + braces, text, j, o, marker, env);
    var area := [Tag(j, o - j, Nfx(AreaKind(marker)))];
    tags' := tags' + area;
  }

  method TagBracketZone(tags: seq<Tag>, text: string, k: int, marker: char, env: Collaborators)
    returns (tags': seq<Tag>)
    requires 0 <= k < |text|
    ensures tags' == tags + BracketZone(text, k, marker, env)
  {
    tags' := tags;
    if BracketOpens(text, k, marker) {
      var closer := SeekCloser(text, k + 1, CloseBracket);
      if closer.Some? {
        tags' := TagBracketTags(tags, text, k, closer.value, marker, env);
      }
    }
  }

  // ---------------------------------------------------------------------------
  // The #[class] section.

  /** The length of the class section starting at j: up to the next `#[`, or
      to the end of the text. */
  function ClassLength(text: string, j: int): (len: int)
    requires 0 <= j <= |text|
    ensures 0 <= len && j + len <= |text|
    ensures forall p :: j <= p < j + len ==> !ClosesAt(text, p, HashOpen)
    ensures j + len == |text| || ClosesAt(text, j + len, HashOpen)
  {
    match FirstCloser(text, j, HashOpen)
    case Some(o) => o - j
    case None => |text| - j
  }

  /** The tokens of the class section whose text starts at j. */
  function ClassTags(text: string, j: int, env: Collaborators): seq<Tag>
    requires 0 <= j <= |text|
  {
    var len := ClassLength(text, j);
    Parser.CSharpTags(text, j, len, env) + Parser.KeywordScan(text, j, j + len, [], env.isLetter)
  }

  /** The class section opened by `#[class]` at k, if any. */
  function ClassSection(text: string, k: int, env: Collaborators): seq<Tag>
    requires 0 <= k < |text|
  {
    if ClassOpens(text, k) then ClassTags(text, k + |ClassAreaFull|, env) else []
  }

  /** The search for the `#[` that ends a class section starting at j. */
  method SeekClassLength(text: string, j: int) returns (len: int)
    requires 0 <= j <= |text|
    ensures len == ClassLength(text, j)
  {
    var o := SeekCloser(text, j, HashOpen);
    len := if o.Some? then o.value - j else |text| - j;
  }

  /** The search for the section's end and the lexing of the section. */
  method TagClassTags(tags: seq<Tag>, text: string, j: int, env: Collaborators)
    returns (tags': seq<Tag>)
    requires 0 <= j <= |text|
    ensures tags' == tags + ClassTags(text, j, env)
  {
    var len := SeekClassLength(text, j);
    tags' := Parser.FindCSharpTokens(tags, text, j, len, env);
    tags' := Parser.FindAdditionalsTokens(tags', text, j, len, [], env.isLetter);
    AppendAssoc(tags, Parser.CSharpTags(text, j, len, env), Parser.KeywordScan(text, j, j + len, [], env.isLetter));
  }

  method TagClassSection(tags: seq<Tag>, text: string, k: int, env: Collaborators)
    returns (tags': seq<Tag>)
    requires 0 <= k < |text|
    ensures tags' == tags + ClassSection(text, k, env)
  {
    tags' := tags;
    if ClassOpens(text, k) {
      var j := k + |ClassAreaFull|;
      assert j <= |text| && ClassSection(text, k, env) == ClassTags(text, j, env);
      tags' := TagClassTags(tags, text, j, env);
    }
  }

  // ---------------------------------------------------------------------------
  // The #<laconf> … #</laconf> zone.

  /** The tags and diagnostics of a laconf zone opened at k and closed at o. */
  function LaconfigTags(text: string, k: int, o: int, env: Collaborators): ScanResult
    requires 0 <= k && k + |LaconfigStart| <= o < |text|
  {
    var j := k + |LaconfigStart|;
    var src := text[j..o];
    ScanResult(
      [Tag(k, |LaconfigStart|, Nfx(Laconf)), Tag(o, |LaconfigEnd|, Nfx(Laconf))]
      + Parser.TokenTags(env.laconfLex(src), j, Parser.LaconfigCategory),
      Parser.ParserErrors(env.laconfParse(src), |src|))
  }

  /** The laconf zone at k, closed by the first `#</laconf>` that has text
      after it; `None` when no zone opens or none closes. */
  function LaconfigZone(text: string, k: int, env: Collaborators): Option<ScanResult>
    requires 0 <= k < |text|
  {
    if LaconfigOpens(text, k) then
      match FirstCloser(text, k + 1, LaconfigClose)
      case Some(o) =>
        LaconfigCloserAfterOpener(text, k, o);
        Some(LaconfigTags(text, k, o, env))
      case None => None
    else None
  }

  /** The tags of the laconf zone at k, if any. */
  function LaconfigZoneTags(text: string, k: int, env: Collaborators): seq<Tag>
    requires 0 <= k < |text|
  {
    match LaconfigZone(text, k, env) case Some(z) => z.tags case None => []
  }

  /** The diagnostics of the laconf zone at k, if any. */
  function LaconfigZoneErrors(text: string, k: int, env: Collaborators): Option<seq<ErrorSpan>>
    requires 0 <= k < |text|
  {
    match LaconfigZone(text, k, env) case Some(z) => Some(z.errors) case None => None
  }

  /** The tags and diagnostics of a laconf zone once its closer o is found. */
  method TagLaconfigTags(tags: seq<Tag>, text: string, k: int, o: int, env: Collaborators)
    returns (tags': seq<Tag>, errs: seq<ErrorSpan>)
    requires 0 <= k && k + |LaconfigStart| <= o < |text|
    ensures tags' == tags + LaconfigTags(text, k, o, env).tags
    ensures errs == LaconfigTags(text, k, o, env).errors
  {
    var delimiters := [Tag(k, |LaconfigStart|, Nfx(Laconf)), Tag(o, |LaconfigEnd|, Nfx(Laconf))];
    var j := k + |LaconfigStart|;
    tags', errs := Parser.GetLaconicTags(tags + delimiters, text[j..o], j, env);
    AppendAssoc(tags, delimiters, Parser.TokenTags(env.laconfLex(text[j..o]), j, Parser.LaconfigCategory));
  }

  method TagLaconfigZone(tags: seq<Tag>, text: string, k: int, env: Collaborators)
    returns (tags': seq<Tag>, errorTags: Option<seq<ErrorSpan>>)
    requires 0 <= k < |text|
    ensures tags' == tags + LaconfigZoneTags(text, k, env)
    ensures errorTags == LaconfigZoneErrors(text, k, env)
  {
    tags', errorTags := tags, None;
    if LaconfigOpens(text, k) {
      var closer := SeekCloser(text, k + 1, LaconfigClose);
      if closer.Some? {
        var o := closer.value;
        LaconfigCloserAfterOpener(text, k, o);
        assert LaconfigZone(text, k, env) == Some(LaconfigTags(text, k, o, env));
        var errs;
        tags', errs := TagLaconfigTags(tags, text, k, o, env);
        errorTags := Some(errs);
      }
    }
  }

  // ---------------------------------------------------------------------------
  // The <style> and <script> zones.

  /** CSS content, remapped from k + 7, where the content starts. */
  function StyleZone(text: string, k: int, env: Collaborators): seq<Tag>
    requires 0 <= k < |text|
  {
    if StartsAt(text, k, StyleStart) then
      match FirstCloser(text, k + |StyleStart|, StyleClose)
      case Some(o) => Parser.RemapEmbedded(env.aggregate(text[k + |StyleStart|..o], Css), k + |StyleStart|, Css)
      case None => []
    else []
  }

  /** JavaScript content, which starts at k + 8, but remapped from
      k + |"<style>"| = k + 7. */
  function ScriptZone(text: string, k: int, env: Collaborators): seq<Tag>
    requires 0 <= k < |text|
  {
    if StartsAt(text, k, ScriptStart) then
      match FirstCloser(text, k + |ScriptStart|, ScriptClose)
      case Some(o) =>
        Parser.RemapEmbedded(env.aggregate(text[k + |ScriptStart|..o], JavaScript), k + |StyleStart|, JavaScript)
      case None => []
    else []
  }

  method TagStyleZone(tags: seq<Tag>, text: string, k: int, env: Collaborators)
    returns (tags': seq<Tag>)
    requires 0 <= k < |text|
    ensures tags' == tags + StyleZone(text, k, env)
  {
    tags' := tags;
    if StartsAt(text, k, StyleStart) {
      var closer := SeekCloser(text, k + |StyleStart|, StyleClose);
      if closer.Some? {
        var tt := text[k + |StyleStart|..closer.value];
        tags' := Parser.FindPropTags(tags', Css, tt, k + |StyleStart|, env);
      }
    }
  }

  method TagScriptZone(tags: seq<Tag>, text: string, k: int, env: Collaborators)
    returns (tags': seq<Tag>)
    requires 0 <= k < |text|
    ensures tags' == tags + ScriptZone(text, k, env)
  {
    tags' := tags;
    if StartsAt(text, k, ScriptStart) {
      var closer := SeekCloser(text, k + |ScriptStart|, ScriptClose);
      if closer.Some? {
        var tt := text[k + |ScriptStart|..closer.value];
        tags' := Parser.FindPropTags(tags', JavaScript, tt, k + |StyleStart|, env);
      }
    }
  }

  // ---------------------------------------------------------------------------
  // The whole scan.

  /** Every tag the scanner emits at index k, in emission order. */
  function TagsAt(text: string, k: int, env: Collaborators): seq<Tag>
    requires 0 <= k < |text|
  {
    BracketZone(text, k, '#', env) + BracketZone(text, k, '@', env) + BracketZone(text, k, '?', env)
    + ClassSection(text, k, env)
    + LaconfigZoneTags(text, k, env)
    + StyleZone(text, k, env) + ScriptZone(text, k, env)
  }

  /** What the scan finds at one index: its tags, and the diagnostics of a
      laconf zone opened there. */
  datatype Step = Step(tags: seq<Tag>, errors: Option<seq<ErrorSpan>>)

  function StepAt(text: string, k: int, env: Collaborators): Step
    requires 0 <= k < |text|
  {
    Step(TagsAt(text, k, env), LaconfigZoneErrors(text, k, env))
  }

  /** The step at every index of the text. */
  function Steps(text: string, env: Collaborators): (r: seq<Step>)
    ensures |r| == |text|
  {
    seq(|text|, k requires 0 <= k < |text| => StepAt(text, k, env))
  }

  /** The scan state after a sequence of steps: all their tags in order, and
      the diagnostics of the last step that carried any. */
  function Fold(steps: seq<Step>): ScanResult
  {
    if steps == [] then ScanResult([], []) else Advance(Fold(steps[..|steps| - 1]), steps[|steps| - 1])
  }

  /** One iteration's effect on the scan state. */
  function Advance(prev: ScanResult, step: Step): ScanResult
  {
    ScanResult(prev.tags + step.tags, match step.errors case Some(e) => e case None => prev.errors)
  }

  /** The scan state after indices 0 .. k - 1. */
  function Scan(text: string, k: int, env: Collaborators): ScanResult
    requires 0 <= k <= |text|
  {
    Fold(Steps(text, env)[..k])
  }

  lemma ScanStep(text: string, k: int, env: Collaborators)
    requires 0 <= k < |text|
    ensures Scan(text, k + 1, env) == Advance(Scan(text, k, env), StepAt(text, k, env))
  {
    var steps := Steps(text, env);
    assert steps[..k + 1][..k] == steps[..k];
  }

  /** One iteration of the scanning loop: every zone test at index k. */
  method TagIndex(tags: seq<Tag>, text: string, k: int, env: Collaborators)
    returns (tags': seq<Tag>, zoneErrors: Option<seq<ErrorSpan>>)
    requires 0 <= k < |text|
    ensures tags' == tags + StepAt(text, k, env).tags
    ensures zoneErrors == StepAt(text, k, env).errors
  {
    // zones: what index k has added so far
    tags' := TagBracketZone(tags, text, k, '#', env);
    ghost var zones := BracketZone(text, k, '#', env);
    tags' := TagBracketZone(tags', text, k, '@', env);
    AppendAssoc(tags, zones, BracketZone(text, k, '@', env));
    zones := zones + BracketZone(text, k, '@', env);
    tags' := TagBracketZone(tags', text, k, '?', env);
    AppendAssoc(tags, zones, BracketZone(text, k, '?', env));
    zones := zones + BracketZone(text, k, '?', env);
    tags' := TagClassSection(tags', text, k, env);
    AppendAssoc(tags, zones, ClassSection(text, k, env));
    zones := zones + ClassSection(text, k, env);
    tags', zoneErrors := TagLaconfigZone(tags', text, k, env);
    AppendAssoc(tags, zones, LaconfigZoneTags(text, k, env));
    zones := zones + LaconfigZoneTags(text, k, env);
    tags' := TagStyleZone(tags', text, k, env);
    AppendAssoc(tags, zones, StyleZone(text, k, env));
    zones := zones + StyleZone(text, k, env);
    tags' := TagScriptZone(tags', text, k, env);
    AppendAssoc(tags, zones, ScriptZone(text, k, env));
  }

  /** The `while (k < text.Length)` pass of `GetTags`: the result is the
      whole fold, and the error list is the last laconf zone's. */
  method ScanText(text: string, env: Collaborators) returns (tags: seq<Tag>, errorTags: seq<ErrorSpan>)
    ensures ScanResult(tags, errorTags) == Scan(text, |text|, env)
  {
    tags, errorTags := [], [];
    var k := 0;
    while k < |text|
      invariant 0 <= k <= |text|
      invariant ScanResult(tags, errorTags) == Scan(text, k, env)
    {
      var zoneErrors;
      tags, zoneErrors := TagIndex(tags, text, k, env);
      if zoneErrors.Some? {
        errorTags := zoneErrors.value;
      }
      ScanStep(text, k, env);
      k := k + 1;
    }
  }

  // ---------------------------------------------------------------------------
  // Properties of the scan.

  /** A bracket zone emits something exactly when its opener is valid and a
      `]` follows; it then emits the two braces first and its area tag last,
      and the `]` is the first one after the `[`. */
  lemma BracketZoneSpans(text: string, k: int, marker: char, env: Collaborators)
    requires 0 <= k < |text|
    ensures BracketZone(text, k, marker, env) != [] <==>
              BracketOpens(text, k, marker) && FirstCloser(text, k + 1, CloseBracket).Some?
    ensures BracketOpens(text, k, marker) && FirstCloser(text, k + 1, CloseBracket).Some? ==>
              var o := FirstCloser(text, k + 1, CloseBracket).value;
              var z := BracketZone(text, k, marker, env);
              && k + 1 < o && text[o] == ']' && (forall p :: k + 1 < p < o ==> text[p] != ']')
              && |z| >= 3
              && z[0] == Tag(k, 2, Nfx(ExpressionBrace)) && z[1] == Tag(o, 1, Nfx(ExpressionBrace))
              && z[|z| - 1] == Tag(k + 2, o - k - 2, Nfx(AreaKind(marker)))
  {
    if BracketOpens(text, k, marker) && FirstCloser(text, k + 1, CloseBracket).Some? {
      var o := FirstCloser(text, k + 1, CloseBracket).value;
      forall p | k + 1 < p < o
        ensures text[p] != ']'
      {
        assert !ClosesAt(text, p, CloseBracket);
      }
    }
  }

  /** A doubled marker (`##[`, `@@[`, `??[`) opens nothing: no bracket zone,
      and for `#` no class section and no laconf zone either. */
  lemma DoubledMarkerSuppresses(text: string, k: int, marker: char, env: Collaborators)
    requires 0 < k < |text| && text[k - 1] == marker && text[k] == marker
    ensures BracketZone(text, k, marker, env) == []
    ensures marker == '#' ==> ClassSection(text, k, env) == [] && LaconfigZone(text, k, env).None?
  {
  }

  /** Folding more steps only appends tags. */
  lemma {:induction false} FoldPrefix(steps: seq<Step>, n: int)
    requires 0 <= n <= |steps|
    ensures Fold(steps[..n]).tags <= Fold(steps).tags
    decreases |steps|
  {
    if n < |steps| {
      var init := steps[..|steps| - 1];
      FoldPrefix(init, n);
      assert init[..n] == steps[..n];
    } else {
      assert steps[..n] == steps;
    }
  }

  /** Every tag of every step survives the fold. */
  lemma {:induction false} FoldKeeps(steps: seq<Step>, k: int, t: Tag)
    requires 0 <= k < |steps| && t in steps[k].tags
    ensures t in Fold(steps).tags
    decreases |steps|
  {
    if k < |steps| - 1 {
      FoldKeeps(steps[..|steps| - 1], k, t);
    }
  }

  /** The fold's diagnostics are those of the last step that has any. */
  lemma {:induction false} FoldLastErrors(steps: seq<Step>, k: int)
    requires 0 <= k < |steps| && steps[k].errors.Some?
    requires forall p :: k < p < |steps| ==> steps[p].errors.None?
    ensures Fold(steps).errors == steps[k].errors.value
    decreases |steps|
  {
    if k < |steps| - 1 {
      FoldLastErrors(steps[..|steps| - 1], k);
    }
  }

  /** With no diagnostics in any step the fold has none. */
  lemma {:induction false} FoldNoErrors(steps: seq<Step>)
    requires forall p :: 0 <= p < |steps| ==> steps[p].errors.None?
    ensures Fold(steps).errors == []
    decreases |steps|
  {
    if steps != [] {
      FoldNoErrors(steps[..|steps| - 1]);
    }
  }

  /** The scan only ever appends: the tags found before index k are a prefix
      of the tags found before any later index. */
  lemma ScanPrefix(text: string, k: int, n: int, env: Collaborators)
    requires 0 <= k <= n <= |text|
    ensures Scan(text, k, env).tags <= Scan(text, n, env).tags
  {
    var steps := Steps(text, env);
    FoldPrefix(steps[..n], k);
    assert steps[..n][..k] == steps[..k];
  }

  /** The index advances by one whatever matched, so a bracket zone inside
      another zone's interior (or inside a style block) is still tagged: the
      scan up to any later index holds its braces and its area tag. */
  lemma BracketZoneRescanned(text: string, k: int, n: int, marker: char, env: Collaborators)
    requires 0 <= k < n <= |text| && (marker == '#' || marker == '@' || marker == '?')
    requires BracketOpens(text, k, marker) && FirstCloser(text, k + 1, CloseBracket).Some?
    ensures var o := FirstCloser(text, k + 1, CloseBracket).value;
            && Tag(k, 2, Nfx(ExpressionBrace)) in Scan(text, n, env).tags
            && Tag(o, 1, Nfx(ExpressionBrace)) in Scan(text, n, env).tags
            && Tag(k + 2, o - k - 2, Nfx(AreaKind(marker))) in Scan(text, n, env).tags
  {
    BracketZoneSpans(text, k, marker, env);
    var z := BracketZone(text, k, marker, env);
    var steps := Steps(text, env)[..n];
    assert steps[k] == StepAt(text, k, env);
    assert forall t <- z :: t in steps[k].tags;
    FoldKeeps(steps, k, z[0]);
    FoldKeeps(steps, k, z[1]);
    FoldKeeps(steps, k, z[|z| - 1]);
  }

  /** Each laconf zone overwrites the error list: after the scan up to n, the
      errors are those of the last laconf zone before n. */
  lemma LastLaconfigErrorsWin(text: string, k: int, n: int, env: Collaborators)
    requires 0 <= k < n <= |text|
    requires LaconfigZone(text, k, env).Some?
    requires forall p :: k < p < n ==> LaconfigZone(text, p, env).None?
    ensures Scan(text, n, env).errors == LaconfigZone(text, k, env).value.errors
  {
    var steps := Steps(text, env)[..n];
    assert steps[k] == StepAt(text, k, env);
    forall p | k < p < n
      ensures steps[p].errors.None?
    {
      assert steps[p] == StepAt(text, p, env);
    }
    FoldLastErrors(steps, k);
  }

  /** Without a laconf zone the scan reports no errors at all. */
  lemma NoLaconfigNoErrors(text: string, n: int, env: Collaborators)
    requires 0 <= n <= |text|
    requires forall p :: 0 <= p < n ==> LaconfigZone(text, p, env).None?
    ensures Scan(text, n, env).errors == []
  {
    var steps := Steps(text, env)[..n];
    forall p | 0 <= p < n
      ensures steps[p].errors.None?
    {
      assert steps[p] == StepAt(text, p, env);
    }
    FoldNoErrors(steps);
  }

  /** Style tags are remapped from the first content character. */
  lemma StyleRemapAligned(text: string, k: int, o: int, env: Collaborators)
    requires 0 <= k < |text| && StartsAt(text, k, StyleStart)
    requires FirstCloser(text, k + |StyleStart|, StyleClose) == Some(o)
    ensures var spans := env.aggregate(text[k + |StyleStart|..o], Css);
            var z := StyleZone(text, k, env);
            && |z| == |spans|
            && forall i :: 0 <= i < |spans| ==>
                 z[i].start == k + |StyleStart| + spans[i].start && z[i].len == spans[i].len
  {
    Parser.RemapEmbeddedAt(env.aggregate(text[k + |StyleStart|..o], Css), k + |StyleStart|, Css);
  }

  /** Script tags are remapped from k + 7 while the content starts at k + 8:
      every script tag starts one character left of its span's position and
      is one character wider. */
  lemma ScriptRemapShifted(text: string, k: int, o: int, env: Collaborators)
    requires 0 <= k < |text| && StartsAt(text, k, ScriptStart)
    requires FirstCloser(text, k + |ScriptStart|, ScriptClose) == Some(o)
    ensures var spans := env.aggregate(text[k + |ScriptStart|..o], JavaScript);
            var z := ScriptZone(text, k, env);
            && |z| == |spans|
            && forall i :: 0 <= i < |spans| ==>
                 z[i].start == (k + |ScriptStart|) + spans[i].start - 1 && z[i].len == spans[i].len + 1
  {
    Parser.RemapEmbeddedAt(env.aggregate(text[k + |ScriptStart|..o], JavaScript), k + |StyleStart|, JavaScript);
  }

  // ---------------------------------------------------------------------------
  // The tagger and its snapshot cache.

  class NhtTagger {
    const env: Collaborators
    /** The class-wide `_errorTags`. */
    const errorStore: ErrorStore
    /** The last snapshot seen by either GetTags (`None` before the first). */
    var snapshot: Option<nat>
    /** The classification tags of the last scan (`None` is null). */
    var oldtags: Option<seq<Tag>>
    /** Whether TagsChanged has a handler. */
    var subscribed: bool
    /** Every TagsChanged event raised so far. */
    var changes: seq<Notice>

    constructor (env: Collaborators, errorStore: ErrorStore, subscribed: bool)
      ensures this.env == env && this.errorStore == errorStore && this.subscribed == subscribed
      ensures snapshot.None? && oldtags.None? && changes == []
    {
      this.env := env;
      this.errorStore := errorStore;
      this.subscribed := subscribed;
      snapshot := None;
      oldtags := None;
      changes := [];
    }

    /** The event raised only when a handler is attached. */
    function Raised(s: Snapshot): seq<Notice>
      reads this
    {
      if subscribed then [WholeSnapshot(s)] else []
    }

    /** `ITagger<IErrorTag>.GetTags`: records a new snapshot and announces it,
        then returns the class-wide error list, or an empty one. */
    method GetErrorTags(spans: seq<SnapshotSpan>) returns (r: seq<ErrorSpan>)
      modifies this
      ensures |spans| > 0 && old(snapshot) != Some(spans[0].snapshot.version) ==>
                snapshot == Some(spans[0].snapshot.version) && changes == old(changes) + Raised(spans[0].snapshot)
      ensures |spans| == 0 || old(snapshot) == Some(spans[0].snapshot.version) ==>
                snapshot == old(snapshot) && changes == old(changes)
      ensures oldtags == old(oldtags) && subscribed == old(subscribed)
      ensures r == match errorStore.tags case Some(e) => e case None => []
    {
      if |spans| > 0 {
        var newSnapshot := spans[0].snapshot;
        if snapshot != Some(newSnapshot.version) {
          snapshot := Some(newSnapshot.version);
          if subscribed {
            changes := changes + [WholeSnapshot(newSnapshot)];
          }
        }
      }
      r := if errorStore.tags.Some? then errorStore.tags.value else [];
    }

    /** `ITagger<IClassificationTag>.GetTags`. */
    method GetTags(spans: seq<SnapshotSpan>) returns (r: Option<seq<Tag>>)
      modifies this, errorStore
      ensures |spans| == 0 ==> r == Some([]) && unchanged(this) && unchanged(errorStore)
      ensures |spans| > 0 && old(snapshot) == Some(spans[0].snapshot.version) ==>
                r == old(oldtags) && unchanged(this) && unchanged(errorStore)
      ensures |spans| > 0 && old(snapshot) != Some(spans[0].snapshot.version) ==>
                var s := spans[0].snapshot;
                var result := Scan(s.text, |s.text|, env);
                && r == Some(result.tags) && oldtags == r && snapshot == Some(s.version)
                && errorStore.tags == Some(result.errors)
                && changes == old(changes) + Raised(s) && subscribed == old(subscribed)
    {
      if |spans| < 1 {
        return Some([]);
      }
      var newSnapshot := spans[0].snapshot;
      if snapshot == Some(newSnapshot.version) {
        return oldtags;
      }
      snapshot := Some(newSnapshot.version);
      var text := newSnapshot.text;
      var tags, errorTags := ScanText(text, env);
      if subscribed {
        changes := changes + [WholeSnapshot(newSnapshot)];
      }
      errorStore.tags := Some(errorTags);
      oldtags := Some(tags);
      return Some(tags);
    }
  }

  /** The error query overwrites the cached snapshot, so a classification query
      on the same new snapshot right after it returns the stale tags of the
      previous snapshot (or null) without scanning. */
  method StaleAfterErrorQuery(t: NhtTagger, s: Snapshot) returns (r: Option<seq<Tag>>)
    requires t.snapshot != Some(s.version)
    modifies t, t.errorStore
    ensures r == old(t.oldtags)
    ensures t.changes == old(t.changes) + (if old(t.subscribed) then [WholeSnapshot(s)] else [])
  {
    var spans := [SnapshotSpan(s, 0, |s.text|)];
    var errors := t.GetErrorTags(spans);
    r := t.GetTags(spans);
  }
}
