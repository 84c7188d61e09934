/**
 * Vocabulary shared by every NFX markup tagger: the classification categories,
 * tag spans, the tokens and messages the external lexers and the laconfig parser
 * hand back, the editor snapshot, the zone delimiters and the search for a
 * zone's closing marker.
 *
 * The external collaborators (the C#-like lexer, the laconfig lexer and parser,
 * the CSS/JavaScript classifier aggregator and the Unicode letter test) are not
 * part of this model; they are passed around as the total functions of a
 * `Collaborators` value, so every result below is stated for all of them.
 */
module Markup {

  datatype Option<T> = None | Some(value: T)

  /** The classification categories (NfxTokenTypes). */
  datatype NfxTokenType =
    | Laconf | Conf | Expression | Statement | ExpressionBrace | KeyWord | Error
    | Brace | Literal | Comment | Special | Area | ExpressionArea | StatementArea

  /** What a classification tag carries: one of the tagger's own categories, or
      the opaque classification the CSS/JavaScript classifier attached to a span
      of embedded content (passed through unchanged). */
  datatype TagKind = Nfx(category: NfxTokenType) | Foreign(payload: string)

  /** A classification tag over document offsets [start, start + len). */
  datatype Tag = Tag(start: int, len: int, kind: TagKind)

  /** An error (squiggle) tag over document offsets [start, start + len). */
  datatype ErrorSpan = ErrorSpan(start: int, len: int)

  /** A token of the C#-like lexer or of the laconfig lexer: its category flags,
      its 1-based column within the lexed source and its text. */
  datatype Token = Token(
    isComment: bool, isIdentifier: bool, isKeyword: bool,
    isLiteral: bool, isSymbol: bool, isOperator: bool,
    col: int, text: string)

  /** A laconfig parser message, with the token it refers to when it has one. */
  datatype Message = Message(text: string, token: Option<Token>)

  /** The two embedded content types handed to the aggregator. */
  datatype ContentType = Css | JavaScript

  /** A span the embedded-language aggregator reports over its own throwaway
      buffer, with the classification it carries. */
  datatype EmbeddedSpan = EmbeddedSpan(start: int, len: int, payload: string)

  /** The external collaborators, as total functions of their input text. */
  datatype Collaborators = Collaborators(
    isLetter: char -> bool,
    csLex: string -> seq<Token>,
    laconfLex: string -> seq<Token>,
    laconfParse: string -> seq<Message>,
    aggregate: (string, ContentType) -> seq<EmbeddedSpan>)

  /** An editor snapshot: its identity (a version number) and its text. */
  datatype Snapshot = Snapshot(version: nat, text: string)

  /** One span of a normalized span collection; the taggers only look at the
      snapshot of the first one. */
  datatype SnapshotSpan = SnapshotSpan(snapshot: Snapshot, start: int, length: int)

  /** One raised TagsChanged event: the snapshot and the span it announces. */
  datatype Notice = Notice(version: nat, start: int, length: int)

  /** The TagsChanged event every tagger raises: the whole snapshot changed. */
  function WholeSnapshot(s: Snapshot): (n: Notice)
    ensures n.version == s.version && n.start == 0 && n.length == |s.text|
  {
    Notice(s.version, 0, |s.text|)
  }

  /** The static `_errorTags` list of a tagger class: one object shared by every
      instance of that class (null is `None`). */
  class ErrorStore {
    var tags: Option<seq<ErrorSpan>>

    constructor ()
      ensures tags == None
    {
      tags := None;
    }
  }

  /** Appending is associative; the scanners' proofs call this rather than
      leave the solver to rediscover it in a large context. */
  lemma AppendAssoc<T>(a: seq<T>, b: seq<T>, c: seq<T>)
    ensures a + b + c == a + (b + c)
  {
  }

  // ---------------------------------------------------------------------------
  // Joining the pieces a scan contributes index by index.

  /** The pieces joined in order. */
  function Concat<T>(pieces: seq<seq<T>>): seq<T>
  {
    if pieces == [] then [] else Concat(pieces[..|pieces| - 1]) + pieces[|pieces| - 1]
  }

  lemma ConcatStep<T>(pieces: seq<seq<T>>, i: int)
    requires 0 <= i < |pieces|
    ensures Concat(pieces[..i + 1]) == Concat(pieces[..i]) + pieces[i]
  {
    assert pieces[..i + 1][..i] == pieces[..i];
  }

  lemma PrefixAppend<T>(a: seq<T>, b: seq<T>, c: seq<T>)
    requires a <= b
    ensures a <= b + c
  {
    assert (b + c)[..|b|] == b;
  }

  /** Joining fewer pieces gives a prefix of joining more. */
  lemma {:induction false} ConcatPrefix<T>(pieces: seq<seq<T>>, m: int, n: int)
    requires 0 <= m <= n <= |pieces|
    ensures Concat(pieces[..m]) <= Concat(pieces[..n])
    decreases n
  {
    if m < n {
      ConcatPrefix(pieces, m, n - 1);
      ConcatStep(pieces, n - 1);
      PrefixAppend(Concat(pieces[..m]), Concat(pieces[..n - 1]), pieces[n - 1]);
    }
  }

  /** Joining empty pieces gives nothing. */
  lemma {:induction false} ConcatOfEmpty<T>(pieces: seq<seq<T>>, n: int)
    requires 0 <= n <= |pieces|
    requires forall i :: 0 <= i < n ==> pieces[i] == []
    ensures Concat(pieces[..n]) == []
    decreases n
  {
    if n > 0 {
      ConcatOfEmpty(pieces, n - 1);
      ConcatStep(pieces, n - 1);
    }
  }

  /** Every element of every piece survives. */
  lemma {:induction false} ConcatKeeps<T>(steps: seq<seq<T>>, k: int, t: T)
    requires 0 <= k < |steps| && t in steps[k]
    ensures t in Concat(steps)
    decreases |steps|
  {
    if k < |steps| - 1 {
      ConcatKeeps(steps[..|steps| - 1], k, t);
    }
  }

  /** `b` ends `c`. */
  predicate IsSuffix<T(==)>(b: seq<T>, c: seq<T>)
  {
    |b| <= |c| && c[|c| - |b|..] == b
  }

  lemma SuffixAppend<T>(a: seq<T>, b: seq<T>)
    ensures IsSuffix(b, a + b)
  {
    assert (a + b)[|a|..] == b;
  }

  lemma SuffixTrans<T>(a: seq<T>, b: seq<T>, c: seq<T>)
    requires IsSuffix(a, b) && IsSuffix(b, c)
    ensures IsSuffix(a, c)
  {
    assert c[|c| - |a|..] == c[|c| - |b|..][|b| - |a|..];
  }

  /** An element of a prefix or of a suffix is an element of the whole. */
  lemma InPrefixOrSuffix<T>(t: T, a: seq<T>, b: seq<T>)
    requires t in a && (a <= b || IsSuffix(a, b))
    ensures t in b
  {
    var i :| 0 <= i < |a| && a[i] == t;
    if a <= b {
      assert b[i] == t;
    } else {
      assert b[|b| - |a| + i] == t;
    }
  }

  // Zone delimiters.
  const LaconfigStart: string := "#<laconf>"
  const LaconfigEnd: string := "#</laconf>"
  const ClassAreaFull: string := "#[class]"
  const StyleStart: string := "<style>"
  const StyleEnd: string := "</style>"
  const ScriptStart: string := "<script>"
  const ScriptEnd: string := "</script>"

  /** The literal `lit` starts at `k` and at least one character follows it
      (the taggers test `text.Length - k > lit.Length` before comparing). */
  predicate StartsAt(text: string, k: int, lit: string)
  {
    0 <= k && |text| - k > |lit| && text[k..k + |lit|] == lit
  }

  // Zone openers shared by the scanners.

  /** A bracket zone may open at k: the marker, then `[`, and the marker is not
      doubled. */
  predicate BracketOpens(text: string, k: int, marker: char)
  {
    0 <= k < |text| && text[k] == marker && |text| - k > 1 && text[k + 1] == '['
    && (k == 0 || text[k - 1] != marker)
  }

  /** The `#[class]` literal at a non-doubled `#`, with text after it. */
  predicate ClassOpens(text: string, k: int)
  {
    0 <= k < |text| && text[k] == '#' && (k == 0 || text[k - 1] != '#') && StartsAt(text, k, ClassAreaFull)
  }

  /** The `#<laconf>` literal at a non-doubled `#`, with text after it. */
  predicate LaconfigOpens(text: string, k: int)
  {
    0 <= k < |text| && text[k] == '#' && (k == 0 || text[k - 1] != '#') && StartsAt(text, k, LaconfigStart)
  }

  /** The closing markers the zone scanners search for. `HashOpen` is the
      `IndexOf("#[")` that ends a `#[class]` section. */
  datatype Closer = CloseBracket | LaconfigClose | StyleClose | ScriptClose | HashOpen

  /** The test each closing loop applies at index `o`. */
  predicate ClosesAt(text: string, o: int, c: Closer)
    requires 0 <= o < |text|
  {
    match c
    case CloseBracket => text[o] == ']'
    case LaconfigClose => |text| - o > |LaconfigEnd| && text[o] == '#' && text[o..o + |LaconfigEnd|] == LaconfigEnd
    case StyleClose => StartsAt(text, o, StyleEnd)
    case ScriptClose => StartsAt(text, o, ScriptEnd)
    case HashOpen => o + 2 <= |text| && text[o..o + 2] == "#["
  }

  /** The first index at or after `from` where the closer `c` is found. */
  function FirstCloser(text: string, from: int, c: Closer): (r: Option<nat>)
    requires 0 <= from
    ensures r.Some? ==> from <= r.value < |text| && ClosesAt(text, r.value, c)
    ensures r.Some? ==> forall o :: from <= o < r.value ==> !ClosesAt(text, o, c)
    ensures r.None? ==> forall o :: from <= o < |text| ==> !ClosesAt(text, o, c)
    decreases |text| - from
  {
    if from >= |text| then None
    else if ClosesAt(text, from, c) then Some(from)
    else FirstCloser(text, from + 1, c)
  }

  /** The closing loop of a zone: `o` walks forward from `from` until the
      closer is found (the loop then breaks) or the text ends. */
  method SeekCloser(text: string, from: int, c: Closer) returns (r: Option<nat>)
    requires 0 <= from
    ensures r == FirstCloser(text, from, c)
  {
    var o := from;
    while o < |text|
      invariant from <= o
      invariant FirstCloser(text, o, c) == FirstCloser(text, from, c)
      decreases |text| - o
    {
      if ClosesAt(text, o, c) {
        return Some(o);
      }
      o := o + 1;
    }
    return None;
  }

  /** A `#</laconf>` closer found after a `#<laconf>` opener lies past the
      whole opener, because no character of `<laconf>` is a `#`. */
  lemma LaconfigCloserAfterOpener(text: string, k: int, o: int)
    requires StartsAt(text, k, LaconfigStart)
    requires k < o < |text| && ClosesAt(text, o, LaconfigClose)
    ensures o >= k + |LaconfigStart|
  {
  }
}
