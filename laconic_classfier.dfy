/**
 * The whole-document laconfig tagger of Laconic/LaconicClassfier.cs. It does
 * what Laconic/LaconicTagProvider.cs does, except that its error windows are
 * always ten characters long: they are not clamped to the text, so a message
 * near the end of the document gets a window that runs past it.
 */
module LaconicClassfier {
  import opened Markup
  import Parser
  import LaconicProvider

  /** The fixed-length error window of a message: from five characters before
      the erroring column, ten characters long. The code dereferences the
      message's token. */
  function FixedWindow(m: Message): (w: ErrorSpan)
    requires m.token.Some?
    ensures 0 <= w.start && w.len == 10
    ensures 1 <= m.token.value.col ==> w.start <= m.token.value.col - 1 < w.start + w.len
  {
    var col := m.token.value.col;
    ErrorSpan(if col > 4 then col - 5 else 0, 10)
  }

  /** One fixed window per message, in order. */
  function FixedWindows(msgs: seq<Message>): (r: seq<ErrorSpan>)
    requires LaconicProvider.AllTokened(msgs)
    ensures |r| == |msgs|
  {
    seq(|msgs|, i requires 0 <= i < |msgs| => FixedWindow(msgs[i]))
  }

  /** The fixed window is the clamped one whenever ten characters remain after
      its start, and otherwise runs past the end of the text, where the clamped
      one stops exactly at the end. */
  lemma FixedVersusClamped(m: Message, srcLen: int)
    requires m.token.Some?
    ensures FixedWindow(m).start == LaconicProvider.Window(m, srcLen).start
    ensures srcLen - FixedWindow(m).start > 10 ==> FixedWindow(m) == LaconicProvider.Window(m, srcLen)
    ensures srcLen - FixedWindow(m).start <= 10 ==>
              FixedWindow(m).start + FixedWindow(m).len >= srcLen
              && LaconicProvider.Window(m, srcLen).start + LaconicProvider.Window(m, srcLen).len == srcLen
  {
  }

  /** A message at the last column of a short document gets a window past its end. */
  lemma WindowPastEnd(m: Message, srcLen: int)
    requires m.token.Some? && 0 < srcLen == m.token.value.col
    ensures FixedWindow(m).start + FixedWindow(m).len > srcLen
  {
  }

  class LaconicClassifier {
    const env: Collaborators
    /** The class-wide `_errorTags`. */
    const errorStore: ErrorStore
    /** The last snapshot seen by either GetTags (`None` before the first). */
    var snapshot: Option<nat>
    /** The classification tags of the last recompute (`None` is null). */
    var oldtags: Option<seq<Tag>>
    /** Whether TagsChanged has a handler. */
    var subscribed: bool
    /** Every TagsChanged event raised so far. */
    var changes: seq<Notice>

    constructor (env: Collaborators, errorStore: ErrorStore, subscribed: bool)
      ensures this.env == env && this.errorStore == errorStore && this.subscribed == subscribed
      ensures snapshot.None? && oldtags.None? && changes == []
    {
      this.env := env;
      this.errorStore := errorStore;
      this.subscribed := subscribed;
      snapshot := None;
      oldtags := None;
      changes := [];
    }

    /** The event raised only when a handler is attached. */
    function Raised(s: Snapshot): seq<Notice>
      reads this
    {
      if subscribed then [WholeSnapshot(s)] else []
    }

    /** `ITagger<IErrorTag>.GetTags`: announces a new snapshot only, then
        returns the class-wide error list, or an empty one. */
    method GetErrorTags(spans: seq<SnapshotSpan>) returns (r: seq<ErrorSpan>)
      modifies this
      ensures |spans| > 0 && old(snapshot) != Some(spans[0].snapshot.version) ==>
                snapshot == Some(spans[0].snapshot.version) && changes == old(changes) + Raised(spans[0].snapshot)
      ensures |spans| == 0 || old(snapshot) == Some(spans[0].snapshot.version) ==>
                snapshot == old(snapshot) && changes == old(changes)
      ensures oldtags == old(oldtags) && subscribed == old(subscribed)
      ensures r == match errorStore.tags case Some(e) => e case None => []
    {
      if |spans| > 0 {
        var newSnapshot := spans[0].snapshot;
        if snapshot != Some(newSnapshot.version) {
          snapshot := Some(newSnapshot.version);
          if subscribed {
            changes := changes + [WholeSnapshot(newSnapshot)];
          }
        }
      }
      r := if errorStore.tags.Some? then errorStore.tags.value else [];
    }

    /** The rebuild of the class-wide error list from empty: one fixed window
        per message. */
    method RebuildErrors(ml: seq<Message>)
      requires LaconicProvider.AllTokened(ml)
      modifies errorStore
      ensures errorStore.tags == Some(FixedWindows(ml))
    {
      var errs: seq<ErrorSpan> := [];
      var i := 0;
      while i < |ml|
        invariant 0 <= i <= |ml|
        invariant errs == FixedWindows(ml[..i])
      {
        var message := ml[i];
        errs := errs + [ErrorSpan(if message.token.value.col > 4 then message.token.value.col - 5 else 0, 10)];
        assert ml[..i + 1][..i] == ml[..i];
        i := i + 1;
      }
      assert ml[..i] == ml;
      errorStore.tags := Some(errs);
    }

    /** `ITagger<IClassificationTag>.GetTags`: a new snapshot is parsed whole;
        the class-wide error list is rebuilt, the tags are collected, the
        change is announced and the tags are cached. */
    method GetTags(spans: seq<SnapshotSpan>) returns (r: Option<seq<Tag>>)
      requires |spans| > 0 && snapshot != Some(spans[0].snapshot.version) ==>
                 LaconicProvider.AllTokened(env.laconfParse(spans[0].snapshot.text))
      modifies this, errorStore
      ensures |spans| == 0 ==> r == Some([]) && unchanged(this) && unchanged(errorStore)
      ensures |spans| > 0 && old(snapshot) == Some(spans[0].snapshot.version) ==>
                r == old(oldtags) && unchanged(this) && unchanged(errorStore)
      ensures |spans| > 0 && old(snapshot) != Some(spans[0].snapshot.version) ==>
                var s := spans[0].snapshot;
                && r == Some(Parser.DocumentTags(s.text, env)) && oldtags == r && snapshot == Some(s.version)
                && errorStore.tags == Some(FixedWindows(env.laconfParse(s.text)))
                && changes == old(changes) + Raised(s) && subscribed == old(subscribed)
    {
      if |spans| < 1 {
        return Some([]);
      }
      var newSnapshot := spans[0].snapshot;
      if snapshot == Some(newSnapshot.version) {
        return oldtags;
      }
      snapshot := Some(newSnapshot.version);
      var text := newSnapshot.text;
      RebuildErrors(env.laconfParse(text));
      var tags := Parser.AppendTokenTags([], env.laconfLex(text), 0, Parser.LaconfigCategory);
      assert tags == Parser.DocumentTags(text, env);
      if subscribed {
        changes := changes + [WholeSnapshot(newSnapshot)];
      }
      oldtags := Some(tags);
      return Some(tags);
    }
  }

  /** The two whole-document taggers share their classification tags
      (`Parser.DocumentTags`); their error windows agree in number and start,
      and differ only in length. */
  lemma WindowsVersusClampedProvider(text: string, env: Collaborators)
    requires LaconicProvider.AllTokened(env.laconfParse(text))
    ensures |FixedWindows(env.laconfParse(text))| == |LaconicProvider.DocumentErrors(text, env)|
    ensures forall i :: 0 <= i < |FixedWindows(env.laconfParse(text))| ==>
              FixedWindows(env.laconfParse(text))[i].start == LaconicProvider.DocumentErrors(text, env)[i].start
              && LaconicProvider.DocumentErrors(text, env)[i].len <= FixedWindows(env.laconfParse(text))[i].len
  {
    var ml := env.laconfParse(text);
    forall i | 0 <= i < |ml|
      ensures FixedWindows(ml)[i].start == LaconicProvider.DocumentErrors(text, env)[i].start
      ensures LaconicProvider.DocumentErrors(text, env)[i].len <= FixedWindows(ml)[i].len
    {
      FixedVersusClamped(ml[i], |text|);
    }
  }
}
