/**
 * The error-only tagger of Error/NfxErrorTaggerProvider.cs: it looks only at
 * `#<laconf>` zones and, for every parser message about a zone's interior,
 * reports one error span over that interior.
 *
 * Its scan differs from the classification scanners' laconf zone: there is no
 * doubled-`#` check at the opener, the closing loop has no `break` (every later
 * `#</laconf>` closes the zone again, over a longer interior), and the span
 * length subtracts the closer's length from an index that already points at
 * the closer, so each span stops ten characters short and is negative for an
 * interior shorter than ten.
 */
module NfxErrors {
  import opened Markup
  import Parser

  // ---------------------------------------------------------------------------
  // The specification of the scan.

  /** A zone opens at any `#` where `#<laconf>` starts with text after it. */
  predicate ErrorOpens(text: string, k: int)
  {
    0 <= k < |text| && text[k] == '#' && StartsAt(text, k, LaconfigStart)
  }

  /** The error spans of the zone opened at k and closed at o: one per parser
      message about the interior text[k + 9 .. o), each starting at the
      interior and ending ten characters before the closer. */
  function ZoneErrors(text: string, k: int, o: int, env: Collaborators): (r: seq<ErrorSpan>)
    requires 0 <= k && k + |LaconfigStart| <= o <= |text|
    ensures |r| == |env.laconfParse(text[k + |LaconfigStart|..o])|
    ensures forall e <- r :: e.start == k + |LaconfigStart| && e.start + e.len + |LaconfigEnd| == o
  {
    var j := k + |LaconfigStart|;
    seq(|env.laconfParse(text[j..o])|, _ => ErrorSpan(j, o - |LaconfigEnd| - j))
  }

  /** What index o contributes to the zone opened at k: its errors when a
      `#</laconf>` closes there, nothing otherwise. */
  function CloserErrorsAt(text: string, k: int, o: int, env: Collaborators): seq<ErrorSpan>
    requires ErrorOpens(text, k) && k < o < |text|
  {
    if ClosesAt(text, o, LaconfigClose) then
      LaconfigCloserAfterOpener(text, k, o);
      ZoneErrors(text, k, o, env)
    else []
  }

  /** What each index after k contributes to the zone opened at k, in order. */
  function ClosingPieces(text: string, k: int, env: Collaborators): (r: seq<seq<ErrorSpan>>)
    requires ErrorOpens(text, k)
    ensures |r| == |text| - k - 1
  {
    seq(|text| - k - 1, i requires 0 <= i < |text| - k - 1 => CloserErrorsAt(text, k, k + 1 + i, env))
  }

  /** The errors of the zone opened at k from the closers in (k, n). */
  function CloserErrors(text: string, k: int, n: int, env: Collaborators): seq<ErrorSpan>
    requires ErrorOpens(text, k) && k < n <= |text|
  {
    Concat(ClosingPieces(text, k, env)[..n - k - 1])
  }

  /** The errors reported for index k. */
  function OpenerErrors(text: string, k: int, env: Collaborators): seq<ErrorSpan>
    requires 0 <= k < |text|
  {
    if ErrorOpens(text, k) then CloserErrors(text, k, |text|, env) else []
  }

  /** What each index of the text contributes, in order. */
  function OpeningPieces(text: string, env: Collaborators): (r: seq<seq<ErrorSpan>>)
    ensures |r| == |text|
  {
    seq(|text|, k requires 0 <= k < |text| => OpenerErrors(text, k, env))
  }

  /** The errors of the scan over indices [0, n). */
  function ErrorScan(text: string, n: int, env: Collaborators): seq<ErrorSpan>
    requires 0 <= n <= |text|
  {
    Concat(OpeningPieces(text, env)[..n])
  }

  lemma CloserErrorsStep(text: string, k: int, o: int, env: Collaborators)
    requires ErrorOpens(text, k) && k < o < |text|
    ensures CloserErrors(text, k, o + 1, env) == CloserErrors(text, k, o, env) + CloserErrorsAt(text, k, o, env)
  {
    ConcatStep(ClosingPieces(text, k, env), o - k - 1);
  }

  lemma ErrorScanStep(text: string, n: int, env: Collaborators)
    requires 0 <= n < |text|
    ensures ErrorScan(text, n + 1, env) == ErrorScan(text, n, env) + OpenerErrors(text, n, env)
  {
    ConcatStep(OpeningPieces(text, env), n);
  }

  // ---------------------------------------------------------------------------
  // The scan.

  /** The `foreach` over the parser's messages for the zone (k, o). */
  method AddZoneErrors(errs: seq<ErrorSpan>, text: string, k: int, o: int, env: Collaborators)
    returns (errs': seq<ErrorSpan>)
    requires 0 <= k && k + |LaconfigStart| <= o <= |text|
    ensures errs' == errs + ZoneErrors(text, k, o, env)
  {
    var j := k + |LaconfigStart|;
    var ml := env.laconfParse(text[j..o]);
    errs' := errs;
    var i := 0;
    while i < |ml|
      invariant 0 <= i <= |ml|
      invariant errs' == errs + ZoneErrors(text, k, o, env)[..i]
    {
      errs' := errs' + [ErrorSpan(j, o - |LaconfigEnd| - j)];
      assert ZoneErrors(text, k, o, env)[..i + 1] == ZoneErrors(text, k, o, env)[..i] + [ErrorSpan(j, o - |LaconfigEnd| - j)];
      i := i + 1;
    }
    assert ZoneErrors(text, k, o, env)[..i] == ZoneErrors(text, k, o, env);
  }

  /** The body of the closing loop at index o. */
  method CloserIndex(errs: seq<ErrorSpan>, text: string, k: int, o: int, env: Collaborators)
    returns (errs': seq<ErrorSpan>)
    requires ErrorOpens(text, k) && k < o < |text|
    ensures errs' == errs + CloserErrorsAt(text, k, o, env)
  {
    errs' := errs;
    if ClosesAt(text, o, LaconfigClose) {
      LaconfigCloserAfterOpener(text, k, o);
      errs' := AddZoneErrors(errs, text, k, o, env);
    }
  }

  /** The closing loop for the zone opened at k: every index o after k is
      tested, with no `break`. */
  method TagOpener(errs: seq<ErrorSpan>, text: string, k: int, env: Collaborators)
    returns (errs': seq<ErrorSpan>)
    requires ErrorOpens(text, k)
    ensures errs' == errs + CloserErrors(text, k, |text|, env)
  {
    errs' := errs;
    var o := k + 1;
    while o < |text|
      invariant k + 1 <= o <= |text|
      invariant errs' == errs + CloserErrors(text, k, o, env)
    {
      errs' := CloserIndex(errs', text, k, o, env);
      CloserErrorsStep(text, k, o, env);
      AppendAssoc(errs, CloserErrors(text, k, o, env), CloserErrorsAt(text, k, o, env));
      o := o + 1;
    }
  }

  /** The body of the outer loop at index k. */
  method ErrorIndex(errs: seq<ErrorSpan>, text: string, k: int, env: Collaborators)
    returns (errs': seq<ErrorSpan>)
    requires 0 <= k < |text|
    ensures errs' == errs + OpenerErrors(text, k, env)
  {
    errs' := errs;
    if text[k] == '#' {
      if StartsAt(text, k, LaconfigStart) {
        errs' := TagOpener(errs, text, k, env);
      }
    }
  }

  /** The scan of `GetTags`: every index is a candidate opener. */
  method ScanErrors(text: string, env: Collaborators) returns (errs: seq<ErrorSpan>)
    ensures errs == ErrorScan(text, |text|, env)
  {
    errs := [];
    var k := 0;
    while k < |text|
      invariant 0 <= k <= |text|
      invariant errs == ErrorScan(text, k, env)
    {
      errs := ErrorIndex(errs, text, k, env);
      ErrorScanStep(text, k, env);
      AppendAssoc([], ErrorScan(text, k, env), OpenerErrors(text, k, env));
      k := k + 1;
    }
  }

  // ---------------------------------------------------------------------------
  // Properties of the scan.

  /** A short zone with a parser message gets a span of negative length. */
  lemma ShortZoneNegativeSpan(text: string, k: int, o: int, env: Collaborators)
    requires 0 <= k && k + |LaconfigStart| <= o <= |text|
    requires o - (k + |LaconfigStart|) < |LaconfigEnd|
    requires |env.laconfParse(text[k + |LaconfigStart|..o])| > 0
    ensures ZoneErrors(text, k, o, env)[0].len < 0
  {
  }

  /** The opener test differs from the classification scanner's only in not
      rejecting a doubled `#`. */
  lemma OpenerIgnoresDoubling(text: string, k: int)
    requires 0 <= k < |text|
    ensures LaconfigOpens(text, k) <==> ErrorOpens(text, k) && (k == 0 || text[k - 1] != '#')
  {
  }

  /** So `##<laconf>` opens a zone here, but not for the classification scanner. */
  lemma DoubledHashOpens()
    ensures ErrorOpens("##<laconf>x", 1) && !LaconfigOpens("##<laconf>x", 1)
  {
    assert "##<laconf>x"[1..10] == LaconfigStart;
  }

  /** The errors from the closers before m are a prefix of those before n. */
  lemma CloserErrorsPrefix(text: string, k: int, m: int, n: int, env: Collaborators)
    requires ErrorOpens(text, k) && k < m <= n <= |text|
    ensures CloserErrors(text, k, m, env) <= CloserErrors(text, k, n, env)
  {
    ConcatPrefix(ClosingPieces(text, k, env), m - k - 1, n - k - 1);
  }

  /** No closer is skipped: the errors of every `#</laconf>` after an opener
      appear, in order of the closers, among the errors reported for it. */
  lemma EveryCloserReported(text: string, k: int, o: int, env: Collaborators)
    requires ErrorOpens(text, k) && k < o < |text| && ClosesAt(text, o, LaconfigClose)
    ensures o >= k + |LaconfigStart|
    ensures CloserErrors(text, k, o, env) + ZoneErrors(text, k, o, env) <= OpenerErrors(text, k, env)
  {
    LaconfigCloserAfterOpener(text, k, o);
    CloserErrorsStep(text, k, o, env);
    CloserErrorsPrefix(text, k, o + 1, |text|, env);
  }

  /** Hence a second closer adds the errors of the longer interior after those
      of the first. */
  lemma SecondCloserReportedAgain(text: string, k: int, o1: int, o2: int, env: Collaborators)
    requires ErrorOpens(text, k) && k < o1 < o2 < |text|
    requires ClosesAt(text, o1, LaconfigClose) && ClosesAt(text, o2, LaconfigClose)
    ensures |OpenerErrors(text, k, env)|
         >= |env.laconfParse(text[k + |LaconfigStart|..o1])| + |env.laconfParse(text[k + |LaconfigStart|..o2])|
  {
    EveryCloserReported(text, k, o2, env);
    LaconfigCloserAfterOpener(text, k, o1);
    CloserErrorsStep(text, k, o1, env);
    CloserErrorsPrefix(text, k, o1 + 1, o2, env);
  }

  /** Without an opener there is nothing to report. */
  lemma NoOpenerNoErrors(text: string, n: int, env: Collaborators)
    requires 0 <= n <= |text|
    requires forall k :: 0 <= k < n ==> !ErrorOpens(text, k)
    ensures ErrorScan(text, n, env) == []
  {
    ConcatOfEmpty(OpeningPieces(text, env), n);
  }

  /** The scan's errors are those of the openers before n, in order: the
      errors found up to m are a prefix of those found up to n. */
  lemma ErrorScanPrefix(text: string, m: int, n: int, env: Collaborators)
    requires 0 <= m <= n <= |text|
    ensures ErrorScan(text, m, env) <= ErrorScan(text, n, env)
  {
    ConcatPrefix(OpeningPieces(text, env), m, n);
  }

  // ---------------------------------------------------------------------------
  // The unused FindPropTags.

  /** `FindPropTags` of this file: the aggregator's error spans for the
      embedded buffer, moved by `bufferStartPosition + |"<style>"|` and widened
      by one for non-CSS content. Nothing calls it. */
  method FindPropTags(tags: seq<Tag>, ct: ContentType, textSpan: string, bufferStartPosition: int,
                      env: Collaborators)
    returns (tags': seq<Tag>)
    ensures tags' == tags + Parser.RemapEmbedded(env.aggregate(textSpan, ct), bufferStartPosition + |StyleStart|, ct)
  {
    tags' := Parser.FindPropTags(tags, ct, textSpan, bufferStartPosition + |StyleStart|, env);
  }

  /** Its i-th tag starts seven characters past the classification remap's. */
  lemma ErrorRemapShifted(spans: seq<EmbeddedSpan>, base: int, ct: ContentType)
    ensures |Parser.RemapEmbedded(spans, base + |StyleStart|, ct)| == |Parser.RemapEmbedded(spans, base, ct)| == |spans|
    ensures forall i :: 0 <= i < |spans| ==>
              Parser.RemapEmbedded(spans, base + |StyleStart|, ct)[i].start == Parser.RemapEmbedded(spans, base, ct)[i].start + 7
  {
    Parser.RemapEmbeddedAt(spans, base + |StyleStart|, ct);
    Parser.RemapEmbeddedAt(spans, base, ct);
  }

  // ---------------------------------------------------------------------------
  // The tagger.

  class NfxErrorTagger {
    const env: Collaborators
    /** The snapshot of the last recompute (`None` before the first). */
    var snapshot: Option<nat>
    /** The errors of the last recompute (`None` is null). */
    var oldtags: Option<seq<ErrorSpan>>
    /** Whether TagsChanged has a handler. */
    var subscribed: bool
    /** Every TagsChanged event raised so far. */
    var changes: seq<Notice>

    constructor (env: Collaborators, subscribed: bool)
      ensures this.env == env && this.subscribed == subscribed
      ensures snapshot.None? && oldtags.None? && changes == []
    {
      this.env := env;
      this.subscribed := subscribed;
      snapshot := None;
      oldtags := None;
      changes := [];
    }

    /** The event raised only when a handler is attached. */
    function Raised(s: Snapshot): seq<Notice>
      reads this
    {
      if subscribed then [WholeSnapshot(s)] else []
    }

    /** `GetTags`: an empty collection gives an empty list, the cached
        snapshot the cached list; a new snapshot is scanned, announced (the
        change test is commented out, so always) and cached. */
    method GetTags(spans: seq<SnapshotSpan>) returns (r: Option<seq<ErrorSpan>>)
      modifies this
      ensures |spans| == 0 ==> r == Some([]) && unchanged(this)
      ensures |spans| > 0 && old(snapshot) == Some(spans[0].snapshot.version) ==>
                r == old(oldtags) && unchanged(this)
      ensures |spans| > 0 && old(snapshot) != Some(spans[0].snapshot.version) ==>
                var s := spans[0].snapshot;
                && r == Some(ErrorScan(s.text, |s.text|, env)) && oldtags == r
                && snapshot == Some(s.version)
                && changes == old(changes) + Raised(s) && subscribed == old(subscribed)
    {
      if |spans| < 1 {
        return Some([]);
      }
      var newSnapshot := spans[0].snapshot;
      if snapshot == Some(newSnapshot.version) {
        return oldtags;
      }
      snapshot := Some(newSnapshot.version);
      var tags := ScanErrors(newSnapshot.text, env);
      if subscribed {
        changes := changes + [WholeSnapshot(newSnapshot)];
      }
      oldtags := Some(tags);
      return Some(tags);
    }
  }

  /** Two queries on the same new snapshot scan once and announce once, and
      the second returns the first one's list. */
  method QueryTwice(t: NfxErrorTagger, s: Snapshot) returns (first: Option<seq<ErrorSpan>>, second: Option<seq<ErrorSpan>>)
    requires t.snapshot != Some(s.version)
    modifies t
    ensures first == second == Some(ErrorScan(s.text, |s.text|, t.env))
    ensures t.changes == old(t.changes) + (if old(t.subscribed) then [WholeSnapshot(s)] else [])
  {
    var spans := [SnapshotSpan(s, 0, |s.text|)];
    first := t.GetTags(spans);
    second := t.GetTags(spans);
  }
}
