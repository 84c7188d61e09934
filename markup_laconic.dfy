/**
 * The laconfig classifier of Classification/LaconicTagProvider.cs: the whole
 * snapshot goes through the shared `GetLaconicTags` helper of
 * Classification/Parser.cs, whose windows also cover messages without a
 * token. It is also registered as an `IClassifier`, whose span list is never
 * filled.
 */
module MarkupLaconic {
  import opened Markup
  import Parser

  /** The error windows of a whole document, one per message. */
  function DocumentErrors(text: string, env: Collaborators): (r: seq<ErrorSpan>)
    ensures |r| == |env.laconfParse(text)|
  {
    Parser.ParserErrors(env.laconfParse(text), |text|)
  }

  /** A message without a token marks the whole document but its last character. */
  lemma TokenlessMessageMarksDocument(text: string, env: Collaborators, i: int)
    requires 0 <= i < |env.laconfParse(text)| && env.laconfParse(text)[i].token.None?
    ensures DocumentErrors(text, env)[i] == ErrorSpan(0, |text| - 1)
  {
  }

  class LaconicClassifier {
    const env: Collaborators
    /** The class-wide `_errorTags`. */
    const errorStore: ErrorStore
    /** The last snapshot seen by either GetTags (`None` before the first). */
    var snapshot: Option<nat>
    /** The classification tags of the last recompute (`None` is null). */
    var oldtags: Option<seq<Tag>>
    /** Whether TagsChanged has a handler. */
    var subscribed: bool
    /** Every TagsChanged event raised so far. */
    var changes: seq<Notice>
    /** `listOfSpans`, the `IClassifier` answer: created empty, never filled. */
    const listOfSpans: seq<Tag> := []

    constructor (env: Collaborators, errorStore: ErrorStore, subscribed: bool)
      ensures this.env == env && this.errorStore == errorStore && this.subscribed == subscribed
      ensures snapshot.None? && oldtags.None? && changes == []
    {
      this.env := env;
      this.errorStore := errorStore;
      this.subscribed := subscribed;
      snapshot := None;
      oldtags := None;
      changes := [];
    }

    /** The event raised only when a handler is attached (`t != null`). */
    function Raised(s: Snapshot): seq<Notice>
      reads this
    {
      if subscribed then [WholeSnapshot(s)] else []
    }

    /** `ITagger<IErrorTag>.GetTags`: announces a new snapshot only, then
        returns the class-wide error list, or an empty one. */
    method GetErrorTags(spans: seq<SnapshotSpan>) returns (r: seq<ErrorSpan>)
      modifies this
      ensures |spans| > 0 && old(snapshot) != Some(spans[0].snapshot.version) ==>
                snapshot == Some(spans[0].snapshot.version) && changes == old(changes) + Raised(spans[0].snapshot)
      ensures |spans| == 0 || old(snapshot) == Some(spans[0].snapshot.version) ==>
                snapshot == old(snapshot) && changes == old(changes)
      ensures oldtags == old(oldtags) && subscribed == old(subscribed)
      ensures r == match errorStore.tags case Some(e) => e case None => []
    {
      if |spans| > 0 {
        var newSnapshot := spans[0].snapshot;
        if snapshot != Some(newSnapshot.version) {
          snapshot := Some(newSnapshot.version);
          if subscribed {
            changes := changes + [WholeSnapshot(newSnapshot)];
          }
        }
      }
      r := if errorStore.tags.Some? then errorStore.tags.value else [];
    }

    /** `ITagger<IClassificationTag>.GetTags`: a new snapshot is handed whole
        to the shared helper, whose windows replace the class-wide list; the
        change is announced once and the tags are cached. */
    method GetTags(spans: seq<SnapshotSpan>) returns (r: Option<seq<Tag>>)
      modifies this, errorStore
      ensures |spans| == 0 ==> r == Some([]) && unchanged(this) && unchanged(errorStore)
      ensures |spans| > 0 && old(snapshot) == Some(spans[0].snapshot.version) ==>
                r == old(oldtags) && unchanged(this) && unchanged(errorStore)
      ensures |spans| > 0 && old(snapshot) != Some(spans[0].snapshot.version) ==>
                var s := spans[0].snapshot;
                && r == Some(Parser.DocumentTags(s.text, env)) && oldtags == r && snapshot == Some(s.version)
                && errorStore.tags == Some(DocumentErrors(s.text, env))
                && changes == old(changes) + Raised(s) && subscribed == old(subscribed)
    {
      if |spans| < 1 {
        return Some([]);
      }
      var newSnapshot := spans[0].snapshot;
      if snapshot == Some(newSnapshot.version) {
        return oldtags;
      }
      snapshot := Some(newSnapshot.version);
      var text := newSnapshot.text;
      var tags, errorTags := Parser.GetLaconicTags([], text, 0, env);
      assert tags == Parser.DocumentTags(text, env);
      errorStore.tags := Some(errorTags);
      if subscribed {
        changes := changes + [WholeSnapshot(newSnapshot)];
      }
      oldtags := Some(tags);
      return Some(tags);
    }

    /** `IClassifier.GetClassificationSpans`: the never-filled list. */
    method GetClassificationSpans(span: SnapshotSpan) returns (r: seq<Tag>)
      ensures r == [] && r == listOfSpans
    {
      return listOfSpans;
    }
  }

  /** However many snapshots were tagged before, the classifier interface still
      answers with nothing, and the tagger answers with the document's tags. */
  method ClassifierStaysEmpty(t: LaconicClassifier, s: Snapshot) returns (tags: Option<seq<Tag>>, spans: seq<Tag>)
    requires t.snapshot != Some(s.version)
    modifies t, t.errorStore
    ensures tags == Some(Parser.DocumentTags(s.text, t.env)) && spans == []
    ensures t.changes == old(t.changes) + (if old(t.subscribed) then [WholeSnapshot(s)] else [])
  {
    tags := t.GetTags([SnapshotSpan(s, 0, |s.text|)]);
    spans := t.GetClassificationSpans(SnapshotSpan(s, 0, |s.text|));
  }

  /** The error interface overwrites the cached snapshot too, so a
      classification query that follows it on the same snapshot returns the
      stale tags without reparsing. */
  method StaleAfterErrorQuery(t: LaconicClassifier, s: Snapshot) returns (r: Option<seq<Tag>>)
    requires t.snapshot != Some(s.version)
    modifies t, t.errorStore
    ensures r == old(t.oldtags)
    ensures t.changes == old(t.changes) + (if old(t.subscribed) then [WholeSnapshot(s)] else [])
  {
    var spans := [SnapshotSpan(s, 0, |s.text|)];
    var errors := t.GetErrorTags(spans);
    r := t.GetTags(spans);
  }
}
