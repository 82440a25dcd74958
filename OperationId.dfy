/**
 * Derivation of the operation identifier suffix from a path template
 * (`pathToString`): split on `/`, drop empty pieces, reverse, cut after the
 * first `@` sentinel, strip the first `Id` from `:` parameters, case each
 * token and join the tokens with `By`.
 *
 * The casing function (`pascalCase` from an outside library) is a parameter:
 * nothing is assumed about what it does to a token.
 */
module OperationId {
  import opened Wrappers
  import opened Strings

  /** The non-empty `/`-separated pieces of a template, left to right. */
  function Pieces(path: string): (r: seq<string>)
    ensures forall i :: 0 <= i < |r| ==> r[i] != "" && '/' !in r[i]
    ensures forall x :: x in r <==> x in Split(path, '/') && x != ""
  {
    var r := NonEmpty(Split(path, '/'));
    forall i | 0 <= i < |r| ensures '/' !in r[i] {
      assert r[i] in Split(path, '/');
    }
    r
  }

  /**
   * Piece order: the pieces of `a/b` are those of `a` followed by those of
   * `b`, so `filter` keeps the order and the repeats of the split.
   */
  lemma PiecesAppend(a: string, b: string)
    ensures Pieces(a + "/" + b) == Pieces(a) + Pieces(b)
  {
    SplitAppend(a, '/', b);
    NonEmptyAppend(Split(a, '/'), Split(b, '/'));
  }

  /** A string without `/` is one piece, or none when it is empty. */
  lemma PiecesOfSegment(a: string)
    requires '/' !in a
    ensures Pieces(a) == if a == "" then [] else [a]
  {
    SplitLast(a, '/');
  }

  /** The template `/s1/s2/.../sn` written from its segments. */
  function Template(segments: seq<string>): string {
    if segments == [] then "" else "/" + segments[0] + Template(segments[1..])
  }

  /**
   * Reading a template back: a template written from non-empty, `/`-free
   * segments has exactly those segments as its pieces.
   */
  lemma PiecesOfTemplate(segments: seq<string>)
    requires forall i :: 0 <= i < |segments| ==> segments[i] != "" && '/' !in segments[i]
    ensures Pieces(Template(segments)) == segments
  {
    SplitTemplate(segments);
    NonEmptyKeeps(segments);
  }

  lemma SplitTemplate(segments: seq<string>)
    requires forall i :: 0 <= i < |segments| ==> '/' !in segments[i]
    ensures Split(Template(segments), '/') == [""] + segments
  {
    if segments != [] {
      var body := segments[0] + Template(segments[1..]);
      assert Template(segments) == ['/'] + body;
      SplitSeparator(body, '/');
      SplitSegments(segments);
    }
  }

  lemma {:induction false} SplitSegments(segments: seq<string>)
    requires segments != []
    requires forall i :: 0 <= i < |segments| ==> '/' !in segments[i]
    ensures Split(segments[0] + Template(segments[1..]), '/') == segments
  {
    var s, rest := segments[0], segments[1..];
    if rest == [] {
      assert s + Template(rest) == s;
      SplitLast(s, '/');
    } else {
      var tail := rest[0] + Template(rest[1..]);
      assert s + Template(rest) == s + ['/'] + tail;
      SplitPiece(s, '/', tail);
      SplitSegments(rest);
      assert segments == [s] + rest;
    }
  }

  lemma {:induction false} NonEmptyKeeps(segments: seq<string>)
    requires forall i :: 0 <= i < |segments| ==> segments[i] != ""
    ensures NonEmpty([""] + segments) == segments
  {
    if segments != [] {
      NonEmptyKeeps(segments[1..]);
      assert ([""] + segments)[1..] == segments;
      assert ([""] + segments[1..])[1..] == segments[1..];
      assert segments == [segments[0]] + segments[1..];
    }
  }

  /** `xs.reverse()`. */
  function Reverse<T>(xs: seq<T>): (r: seq<T>)
    ensures |r| == |xs|
    ensures forall k :: 0 <= k < |xs| ==> r[k] == xs[|xs| - 1 - k]
  {
    if xs == [] then [] else Reverse(xs[1..]) + [xs[0]]
  }

  /** A sentinel segment such as `@me`. */
  predicate IsSentinel(segment: string) {
    StartsWith(segment, '@')
  }

  /** `xs.findIndex(x => x.startsWith("@"))`, with `None` for -1. */
  function FirstSentinel(xs: seq<string>): (r: Option<nat>)
    ensures r.Some? ==> r.value < |xs| && IsSentinel(xs[r.value])
    ensures r.Some? ==> forall j :: 0 <= j < r.value ==> !IsSentinel(xs[j])
    ensures r.None? <==> forall j :: 0 <= j < |xs| ==> !IsSentinel(xs[j])
  {
    if xs == [] then None
    else if IsSentinel(xs[0]) then Some(0)
    else
      match FirstSentinel(xs[1..])
      case None => None
      case Some(k) => Some(k + 1)
  }

  /**
   * The index filter of `pathToString`: when some segment is a sentinel,
   * keep the indices up to and including the first one; otherwise keep all.
   */
  function KeepUpToSentinel(xs: seq<string>): (r: seq<string>)
    ensures |r| <= |xs| && r == xs[..|r|]
    ensures forall k :: 0 <= k < |r| - 1 ==> !IsSentinel(r[k])
    ensures (exists j :: 0 <= j < |xs| && IsSentinel(xs[j])) ==> |r| > 0 && IsSentinel(r[|r| - 1])
    ensures (forall j :: 0 <= j < |xs| ==> !IsSentinel(xs[j])) ==> r == xs
  {
    match FirstSentinel(xs)
    case None => xs
    case Some(i) => xs[..i + 1]
  }

  /** The segments that reach the naming step, innermost first. */
  function Selected(path: string): seq<string> {
    KeepUpToSentinel(Reverse(Pieces(path)))
  }

  /** `name.startsWith(":") ? name.replace("Id", "") : name`. */
  function StripId(segment: string): string {
    if StartsWith(segment, ':') then ReplaceFirst(segment, "Id", "") else segment
  }

  function MapStrings(f: string -> string, xs: seq<string>): (r: seq<string>)
    ensures |r| == |xs| && forall k :: 0 <= k < |xs| ==> r[k] == f(xs[k])
  {
    if xs == [] then [] else [f(xs[0])] + MapStrings(f, xs[1..])
  }

  /** The tokens handed to the casing function, in order. */
  function Tokens(path: string): seq<string> {
    MapStrings(StripId, Selected(path))
  }

  /** `pathToString(path)`, with `pascal` standing for `pascalCase`. */
  function PathToString(pascal: string -> string, path: string): string {
    Join(MapStrings(pascal, Tokens(path)), "By")
  }

  // ------------------------------------------------------------ properties

  /**
   * Segment selection: the selected segments are the template's non-empty
   * pieces read from the innermost outwards; when a piece is a sentinel the
   * list stops at the innermost sentinel (it is the last token and no other
   * token is one), so no piece to its left in the template contributes;
   * without a sentinel every piece is kept.
   */
  lemma SelectedSegments(path: string)
    ensures var p := Pieces(path); var s := Selected(path);
      |s| <= |p| &&
      (forall k :: 0 <= k < |s| ==> s[k] == p[|p| - 1 - k]) &&
      ((exists j :: 0 <= j < |p| && IsSentinel(p[j])) ==>
         |s| > 0 && IsSentinel(s[|s| - 1]) &&
         (forall k :: 0 <= k < |s| - 1 ==> !IsSentinel(s[k])) &&
         (forall j :: 0 <= j < |p| && IsSentinel(p[j]) ==> |p| - |s| >= j)) &&
      ((forall j :: 0 <= j < |p| ==> !IsSentinel(p[j])) ==> |s| == |p|)
  {
    var p := Pieces(path);
    var rev := Reverse(p);
    var s := Selected(path);
    match FirstSentinel(rev)
    case None =>
      forall j | 0 <= j < |p| ensures !IsSentinel(p[j]) {
        assert p[j] == rev[|p| - 1 - j];
      }
    case Some(i) =>
      assert s == rev[..i + 1];
      forall j | 0 <= j < |p| && IsSentinel(p[j]) ensures |p| - |s| >= j {
        assert p[j] == rev[|p| - 1 - j];
      }
  }

  /**
   * The shape of the derived name: empty when no token is selected;
   * otherwise the cased innermost token comes first, followed by `By` when
   * there are more tokens, and the cased outermost selected token comes last.
   */
  lemma NameShape(pascal: string -> string, path: string)
    ensures var t := Tokens(path); var r := PathToString(pascal, path);
      (t == [] ==> r == "") &&
      (t != [] ==> |pascal(t[0])| <= |r| && r[..|pascal(t[0])|] == pascal(t[0]) &&
                   |pascal(t[|t| - 1])| <= |r| && r[|r| - |pascal(t[|t| - 1])|..] == pascal(t[|t| - 1])) &&
      (|t| > 1 ==> |pascal(t[0])| + 2 <= |r| && r[|pascal(t[0])|..|pascal(t[0])| + 2] == "By")
  {
    JoinEnds(MapStrings(pascal, Tokens(path)), "By");
  }

  /**
   * The token a segment becomes: a `:` parameter loses its first `Id` (and
   * only that one; the leading `:` stays, since `Id` cannot start at 0), so
   * putting `Id` back where it was gives the segment again; every other
   * segment is handed on unchanged.
   */
  lemma StripIdToken(segment: string)
    ensures !StartsWith(segment, ':') ==> StripId(segment) == segment
    ensures StartsWith(segment, ':') && IndexOf(segment, "Id").None? ==> StripId(segment) == segment
    ensures StartsWith(segment, ':') && IndexOf(segment, "Id").Some? ==>
      var i := IndexOf(segment, "Id").value;
      var t := StripId(segment);
      1 <= i <= |t| && |t| == |segment| - 2 && t[..i] + "Id" + t[i..] == segment &&
      StartsWith(t, ':')
  {
    if StartsWith(segment, ':') {
      ReplaceFirstRemoves(segment, "Id");
    }
  }
}
