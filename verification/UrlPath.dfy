/** `normalize_url_path` of the client builder. */
module UrlPath {
  /** `split('/')`: the pieces between slashes, empty ones included. */
  function Split(path: string): (pieces: seq<string>)
    ensures pieces != [] && forall i :: 0 <= i < |pieces| ==> '/' !in pieces[i]
  {
    if path == "" then [""]
    else
      var rest := Split(path[1..]);
      if path[0] == '/' then [""] + rest else [[path[0]] + rest[0]] + rest[1..]
  }

  /** `filter(|s| !s.is_empty())` */
  function NonEmpty(pieces: seq<string>): (kept: seq<string>)
    ensures forall i :: 0 <= i < |kept| ==> kept[i] != "" && kept[i] in pieces
  {
    if pieces == [] then []
    else if pieces[0] == "" then NonEmpty(pieces[1..])
    else [pieces[0]] + NonEmpty(pieces[1..])
  }

  /** `join("/")` */
  function JoinSlash(pieces: seq<string>): string
  {
    if pieces == [] then ""
    else if |pieces| == 1 then pieces[0]
    else pieces[0] + "/" + JoinSlash(pieces[1..])
  }

  function Segments(path: string): (segments: seq<string>)
    ensures IsSegments(segments)
  {
    NonEmpty(Split(path))
  }

  /** Non-empty pieces without a slash. */
  predicate IsSegments(pieces: seq<string>)
  {
    forall i :: 0 <= i < |pieces| ==> pieces[i] != "" && '/' !in pieces[i]
  }

  function Normalize(path: string): string
  {
    "/" + JoinSlash(Segments(path))
  }

  /** A piece without a slash, followed by a slash or by nothing, splits off as it is. */
  lemma {:induction false} SplitPiece(piece: string, rest: string)
    requires '/' !in piece
    ensures Split(piece) == [piece]
    ensures Split(piece + "/" + rest) == [piece] + Split(rest)
  {
    if piece == "" {
      assert piece + "/" + rest == "/" + rest;
      assert ("/" + rest)[1..] == rest;
    } else {
      SplitPiece(piece[1..], rest);
      var whole := piece + "/" + rest;
      assert whole[1..] == piece[1..] + "/" + rest;
      assert [piece[0]] + piece[1..] == piece;
      assert whole[0] == piece[0] && piece[0] in piece;
    }
  }

  lemma {:induction false} SplitUndoesJoin(pieces: seq<string>)
    requires IsSegments(pieces)
    ensures Split(JoinSlash(pieces)) == if pieces == [] then [""] else pieces
  {
    if pieces == [] {
    } else if |pieces| == 1 {
      SplitPiece(pieces[0], "");
    } else {
      SplitUndoesJoin(pieces[1..]);
      SplitPiece(pieces[0], JoinSlash(pieces[1..]));
    }
  }

  lemma {:induction false} NonEmptyKeepsAll(pieces: seq<string>)
    requires IsSegments(pieces)
    ensures NonEmpty(pieces) == pieces
  {
    if pieces != [] {
      NonEmptyKeepsAll(pieces[1..]);
    }
  }

  /** Normalisation keeps the list of non-empty segments. */
  lemma SegmentsKept(path: string)
    ensures Segments(Normalize(path)) == Segments(path)
  {
    var segments := Segments(path);
    var joined := JoinSlash(segments);
    assert Normalize(path)[1..] == joined;
    assert Split(Normalize(path)) == [""] + Split(joined);
    SplitUndoesJoin(segments);
    NonEmptyKeepsAll(segments);
    assert NonEmpty([""] + Split(joined)) == NonEmpty(([""] + Split(joined))[1..]);
    assert ([""] + Split(joined))[1..] == Split(joined);
    assert NonEmpty([""]) == [];
  }

  /** Two paths normalise to the same string exactly when they have the same non-empty segments. */
  lemma SameNormalFormIffSameSegments(p: string, q: string)
    ensures Normalize(p) == Normalize(q) <==> Segments(p) == Segments(q)
  {
    SegmentsKept(p);
    SegmentsKept(q);
  }

  lemma NormalizeIdempotent(path: string)
    ensures Normalize(Normalize(path)) == Normalize(path)
  {
    SegmentsKept(path);
  }

  lemma {:induction false} NonEmptyConcat(a: seq<string>, b: seq<string>)
    ensures NonEmpty(a + b) == NonEmpty(a) + NonEmpty(b)
  {
    if a == [] {
      assert a + b == b;
    } else {
      NonEmptyConcat(a[1..], b);
      assert (a + b)[1..] == a[1..] + b && (a + b)[0] == a[0];
      assert [a[0]] + (NonEmpty(a[1..]) + NonEmpty(b)) == [a[0]] + NonEmpty(a[1..]) + NonEmpty(b);
    }
  }

  /** Segments are what they should be: a slash between two paths separates their segments. */
  lemma {:induction false} SegmentsOfSlash(p: string, q: string)
    ensures Segments(p + "/" + q) == Segments(p) + Segments(q)
  {
    SplitOfSlash(p, q);
    NonEmptyConcat(Split(p), Split(q));
  }

  lemma {:induction false} SplitOfSlash(p: string, q: string)
    ensures Split(p + "/" + q) == Split(p) + Split(q)
  {
    if p == "" {
      assert p + "/" + q == "/" + q;
      assert ("/" + q)[1..] == q;
    } else {
      SplitOfSlash(p[1..], q);
      var whole := p + "/" + q;
      assert whole[1..] == p[1..] + "/" + q && whole[0] == p[0];
      if p[0] == '/' {
        assert [""] + (Split(p[1..]) + Split(q)) == [""] + Split(p[1..]) + Split(q);
      } else {
        HeadConcat(p[0], Split(p[1..]), Split(q));
      }
    }
  }

  lemma HeadConcat(c: char, a: seq<string>, b: seq<string>)
    requires a != []
    ensures [[c] + (a + b)[0]] + (a + b)[1..] == [[c] + a[0]] + a[1..] + b
  {
  }
}
