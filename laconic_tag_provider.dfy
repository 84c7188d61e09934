/**
 * The whole-document laconfig tagger of Laconic/LaconicTagProvider.cs: the
 * entire snapshot is lexed and parsed as laconfig, every parser message
 * becomes an error window clamped to the text, and the laconfig tokens are
 * classified at their own columns.
 */
module LaconicProvider {
  import opened Markup
  import Parser

  /** The error window of a message over a source of `srcLen` characters: from
      five characters before the erroring column, at most ten long and clamped
      to the source. The code dereferences the message's token, so a message
      without one is outside its domain. */
  function Window(m: Message, srcLen: int): (w: ErrorSpan)
    requires m.token.Some?
    ensures 0 <= w.start && w.len <= 10 && w.start + w.len <= srcLen
    ensures 1 <= m.token.value.col <= srcLen ==> w.start <= m.token.value.col - 1 < w.start + w.len
  {
    var col := m.token.value.col;
    var start := if col > 4 then col - 5 else 0;
    ErrorSpan(start, if srcLen - start > 10 then 10 else srcLen - start)
  }

  /** Every message of the source carries a token. */
  predicate AllTokened(msgs: seq<Message>)
  {
    forall m <- msgs :: m.token.Some?
  }

  /** For a message with a token this is the window of the shared parser
      helper, so the two copies agree wherever this one is defined. */
  lemma WindowAsShared(m: Message, srcLen: int)
    requires m.token.Some?
    ensures Window(m, srcLen) == Parser.ParserWindow(m, srcLen)
  {
  }

  /** The static `GetLaconicTags`: one window per message, in order, and the
      laconfig token tags at (col - 1, length), appended to `tags`. */
  method GetLaconicTags(tags: seq<Tag>, src: string, env: Collaborators)
    returns (tags': seq<Tag>, errorTags: seq<ErrorSpan>)
    requires AllTokened(env.laconfParse(src))
    ensures |errorTags| == |env.laconfParse(src)|
    ensures forall i :: 0 <= i < |errorTags| ==> errorTags[i] == Window(env.laconfParse(src)[i], |src|)
    ensures errorTags == DocumentErrors(src, env)
    ensures tags' == tags + Parser.TokenTags(env.laconfLex(src), 0, Parser.LaconfigCategory)
  {
    var ml := env.laconfParse(src);
    errorTags := [];
    var i := 0;
    while i < |ml|
      invariant 0 <= i <= |ml|
      invariant |errorTags| == i
      invariant forall p :: 0 <= p < i ==> errorTags[p] == Window(ml[p], |src|)
    {
      var message := ml[i];
      var start := if message.token.value.col > 4 then message.token.value.col - 5 else 0;
      var length := if |src| - start > 10 then 10 else |src| - start;
      errorTags := errorTags + [ErrorSpan(start, length)];
      i := i + 1;
    }
    tags' := Parser.AppendTokenTags(tags, env.laconfLex(src), 0, Parser.LaconfigCategory);
  }

  /** The error windows of a whole document, one clamped window per message. */
  function DocumentErrors(text: string, env: Collaborators): (r: seq<ErrorSpan>)
    requires AllTokened(env.laconfParse(text))
    ensures |r| == |env.laconfParse(text)|
  {
    var ml := env.laconfParse(text);
    seq(|ml|, i requires 0 <= i < |ml| => Window(ml[i], |text|))
  }

  /** Where every message carries a token, these are the shared parser
      helper's windows. */
  lemma DocumentErrorsAsShared(text: string, env: Collaborators)
    requires AllTokened(env.laconfParse(text))
    ensures DocumentErrors(text, env) == Parser.ParserErrors(env.laconfParse(text), |text|)
  {
    var ml := env.laconfParse(text);
    forall i | 0 <= i < |ml|
      ensures DocumentErrors(text, env)[i] == Parser.ParserErrors(ml, |text|)[i]
    {
      WindowAsShared(ml[i], |text|);
    }
  }

  /** Every window of a document lies inside it, is at most ten long, and
      covers its message's column when that column is in the document. */
  lemma DocumentErrorsInside(text: string, env: Collaborators)
    requires AllTokened(env.laconfParse(text))
    ensures forall e <- DocumentErrors(text, env) :: 0 <= e.start && e.len <= 10 && e.start + e.len <= |text|
    ensures forall i :: 0 <= i < |DocumentErrors(text, env)| && 1 <= env.laconfParse(text)[i].token.value.col <= |text| ==>
              DocumentErrors(text, env)[i].start <= env.laconfParse(text)[i].token.value.col - 1
                < DocumentErrors(text, env)[i].start + DocumentErrors(text, env)[i].len
  {
    var ml := env.laconfParse(text);
    forall e <- DocumentErrors(text, env)
      ensures 0 <= e.start && e.len <= 10 && e.start + e.len <= |text|
    {
      var i :| 0 <= i < |ml| && DocumentErrors(text, env)[i] == e;
      assert e == Window(ml[i], |text|);
    }
  }

  class LaconicClassifier {
    const env: Collaborators
    /** The class-wide `_errorTags`. */
    const errorStore: ErrorStore
    /** The last snapshot seen by either GetTags (`None` before the first). */
    var snapshot: Option<nat>
    /** The classification tags of the last recompute (`None` is null). */
    var oldtags: Option<seq<Tag>>
    /** Whether TagsChanged has a handler. */
    var subscribed: bool
    /** Every TagsChanged event raised so far. */
    var changes: seq<Notice>

    constructor (env: Collaborators, errorStore: ErrorStore, subscribed: bool)
      ensures this.env == env && this.errorStore == errorStore && this.subscribed == subscribed
      ensures snapshot.None? && oldtags.None? && changes == []
    {
      this.env := env;
      this.errorStore := errorStore;
      this.subscribed := subscribed;
      snapshot := None;
      oldtags := None;
      changes := [];
    }

    /** The event raised only when a handler is attached. */
    function Raised(s: Snapshot): seq<Notice>
      reads this
    {
      if subscribed then [WholeSnapshot(s)] else []
    }

    /** `ITagger<IErrorTag>.GetTags`: records a new snapshot and announces it,
        then returns the class-wide error list, or an empty one. */
    method GetErrorTags(spans: seq<SnapshotSpan>) returns (r: seq<ErrorSpan>)
      modifies this
      ensures |spans| > 0 && old(snapshot) != Some(spans[0].snapshot.version) ==>
                snapshot == Some(spans[0].snapshot.version) && changes == old(changes) + Raised(spans[0].snapshot)
      ensures |spans| == 0 || old(snapshot) == Some(spans[0].snapshot.version) ==>
                snapshot == old(snapshot) && changes == old(changes)
      ensures oldtags == old(oldtags) && subscribed == old(subscribed)
      ensures r == match errorStore.tags case Some(e) => e case None => []
    {
      if |spans| > 0 {
        var newSnapshot := spans[0].snapshot;
        if snapshot != Some(newSnapshot.version) {
          snapshot := Some(newSnapshot.version);
          if subscribed {
            changes := changes + [WholeSnapshot(newSnapshot)];
          }
        }
      }
      r := if errorStore.tags.Some? then errorStore.tags.value else [];
    }

    /** `ITagger<IClassificationTag>.GetTags`: a new snapshot is parsed whole;
        its windows replace the class-wide list, the change is announced and
        the tags are cached. */
    method GetTags(spans: seq<SnapshotSpan>) returns (r: Option<seq<Tag>>)
      requires |spans| > 0 && snapshot != Some(spans[0].snapshot.version) ==>
                 AllTokened(env.laconfParse(spans[0].snapshot.text))
      modifies this, errorStore
      ensures |spans| == 0 ==> r == Some([]) && unchanged(this) && unchanged(errorStore)
      ensures |spans| > 0 && old(snapshot) == Some(spans[0].snapshot.version) ==>
                r == old(oldtags) && unchanged(this) && unchanged(errorStore)
      ensures |spans| > 0 && old(snapshot) != Some(spans[0].snapshot.version) ==>
                var s := spans[0].snapshot;
                && r == Some(Parser.DocumentTags(s.text, env)) && oldtags == r && snapshot == Some(s.version)
                && errorStore.tags == Some(DocumentErrors(s.text, env))
                && changes == old(changes) + Raised(s) && subscribed == old(subscribed)
    {
      if |spans| < 1 {
        return Some([]);
      }
      var newSnapshot := spans[0].snapshot;
      if snapshot == Some(newSnapshot.version) {
        return oldtags;
      }
      snapshot := Some(newSnapshot.version);
      var text := newSnapshot.text;
      var tags, errorTags := GetLaconicTags([], text, env);
      assert tags == Parser.DocumentTags(text, env);
      errorStore.tags := Some(errorTags);
      if subscribed {
        changes := changes + [WholeSnapshot(newSnapshot)];
      }
      oldtags := Some(tags);
      return Some(tags);
    }
  }

  /** After a recompute, the error query on the same snapshot returns the new
      windows without announcing anything again. */
  method ErrorsAfterRecompute(t: LaconicClassifier, s: Snapshot) returns (tags: Option<seq<Tag>>, errors: seq<ErrorSpan>)
    requires t.snapshot != Some(s.version) && AllTokened(t.env.laconfParse(s.text))
    modifies t, t.errorStore
    ensures tags == Some(Parser.DocumentTags(s.text, t.env))
    ensures errors == DocumentErrors(s.text, t.env)
    ensures t.changes == old(t.changes) + (if old(t.subscribed) then [WholeSnapshot(s)] else [])
  {
    var spans := [SnapshotSpan(s, 0, |s.text|)];
    tags := t.GetTags(spans);
    errors := t.GetErrorTags(spans);
  }
}
