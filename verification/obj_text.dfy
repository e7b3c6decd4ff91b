/** Line and token handling shared by the two Wavefront OBJ parsers
    (scripts/ObjModule.mjs and src/lib/wavefront.ts). */
module ObjText {
  import opened Wrappers

  /** The whitespace characters of a JavaScript `\s` that can occur in an
      ASCII file. */
  predicate IsSpace(c: char) {
    c == ' ' || c == '\t' || c == '\n' || c == '\r' || c == '\U{000B}' || c == '\U{000C}'
  }

  /** Position of the first `sep` in s. */
  function FirstIndex(s: string, sep: char): (k: nat)
    requires sep in s
    ensures k < |s| && s[k] == sep && sep !in s[..k]
  {
    if s[0] == sep then 0 else
      assert sep in s[1..] by { var j :| 0 <= j < |s| && s[j] == sep; assert s[1..][j - 1] == sep; }
      var k := 1 + FirstIndex(s[1..], sep);
      assert s[..k] == [s[0]] + s[1..][..k - 1];
      k
  }

  /** `s.split(sep)` for a one-character separator: the pieces between
      separators, always at least one. */
  function Split(s: string, sep: char): (pieces: seq<string>)
    ensures |pieces| >= 1
    ensures forall i :: 0 <= i < |pieces| ==> sep !in pieces[i]
    decreases |s|
  {
    if sep !in s then [s]
    else
      var k := FirstIndex(s, sep);
      [s[..k]] + Split(s[k + 1..], sep)
  }

  /** `parts.join(sep)`. */
  function Join(parts: seq<string>, sep: char): string {
    if |parts| == 0 then ""
    else if |parts| == 1 then parts[0]
    else parts[0] + [sep] + Join(parts[1..], sep)
  }

  /** Joining a piece in front of at least one more. */
  lemma JoinCons(piece: string, pieces: seq<string>, sep: char)
    requires |pieces| >= 1
    ensures Join([piece] + pieces, sep) == piece + [sep] + Join(pieces, sep)
  {
    assert ([piece] + pieces)[1..] == pieces;
  }

  /** A text around its first separator. */
  lemma SplitAtFirst(s: string, sep: char)
    requires sep in s
    ensures var k := FirstIndex(s, sep);
      s == s[..k] + [sep] + s[k + 1..] && Split(s, sep) == [s[..k]] + Split(s[k + 1..], sep)
  {
  }

  /** Joining the pieces of a split gives back the original text. */
  lemma {:induction false} JoinSplit(s: string, sep: char)
    ensures Join(Split(s, sep), sep) == s
    decreases |s|
  {
    if sep in s {
      var k := FirstIndex(s, sep);
      var rest := s[k + 1..];
      JoinSplit(rest, sep);
      SplitAtFirst(s, sep);
      JoinCons(s[..k], Split(rest, sep), sep);
    }
  }

  /** `line.split("#")[0]`: the text before the first `#`. */
  function StripComment(line: string): (r: string)
    ensures '#' !in r
    ensures r <= line
    ensures r == line || line[|r|] == '#'
  {
    var r := Split(line, '#')[0];
    if '#' in line then
      assert r == line[..FirstIndex(line, '#')];
      r
    else
      r
  }

  /** Stripping is idempotent: nothing after the first `#` survives. */
  lemma StripCommentIdempotent(line: string)
    ensures StripComment(StripComment(line)) == StripComment(line)
  {
  }

  /** Length of the run of non-space characters that starts s. */
  function WordLength(s: string): (n: nat)
    requires |s| > 0 && !IsSpace(s[0])
    ensures 1 <= n <= |s|
    ensures forall i :: 0 <= i < n ==> !IsSpace(s[i])
    ensures n == |s| || IsSpace(s[n])
    decreases |s|
  {
    if |s| == 1 || IsSpace(s[1]) then 1 else 1 + WordLength(s[1..])
  }

  /** `s.split(/\s/)`: the pieces between single whitespace characters,
      empty where two of them are adjacent. */
  function Pieces(s: string): (ps: seq<string>)
    ensures |ps| >= 1
    decreases |s|
  {
    if |s| == 0 then [""]
    else if IsSpace(s[0]) then [""] + Pieces(s[1..])
    else
      var p := Pieces(s[1..]);
      [[s[0]] + p[0]] + p[1..]
  }

  /** The non-empty pieces, in order. */
  function NonEmpty(ps: seq<string>): seq<string>
    decreases |ps|
  {
    if |ps| == 0 then [] else (if |ps[0]| == 0 then [] else [ps[0]]) + NonEmpty(ps[1..])
  }

  lemma NonEmptyCons(p: string, ps: seq<string>)
    ensures NonEmpty([p] + ps) == (if |p| == 0 then [] else [p]) + NonEmpty(ps)
  {
    assert ([p] + ps)[1..] == ps;
  }

  /** A run w without whitespace in front of r joins the first piece of r. */
  lemma {:induction false} PiecesAfterRun(w: string, r: string)
    requires forall i :: 0 <= i < |w| ==> !IsSpace(w[i])
    ensures Pieces(w + r) == [w + Pieces(r)[0]] + Pieces(r)[1..]
    decreases |w|
  {
    if |w| > 0 {
      PiecesAfterRun(w[1..], r);
      assert (w + r)[1..] == w[1..] + r;
      assert [w[0]] + (w[1..] + Pieces(r)[0]) == w + Pieces(r)[0];
    } else {
      assert w + r == r;
      assert w + Pieces(r)[0] == Pieces(r)[0];
      assert Pieces(r) == [Pieces(r)[0]] + Pieces(r)[1..];
    }
  }

  /** Text that is empty or starts with whitespace begins with an empty
      piece. */
  lemma PiecesAtSpace(r: string)
    requires |r| == 0 || IsSpace(r[0])
    ensures Pieces(r) == [""] + (if |r| == 0 then [] else Pieces(r[1..]))
  {
  }

  /** A word w followed by whitespace or nothing is the first non-empty
      piece. */
  lemma WordThenSpace(w: string, r: string)
    requires |w| >= 1 && forall i :: 0 <= i < |w| ==> !IsSpace(w[i])
    requires |r| == 0 || IsSpace(r[0])
    ensures NonEmpty(Pieces(w + r)) == [w] + NonEmpty(Pieces(r))
  {
    var tail := if |r| == 0 then [] else Pieces(r[1..]);
    PiecesAfterRun(w, r);
    PiecesAtSpace(r);
    FirstPieceJoins(w, Pieces(r), tail);
    NonEmptyCons(w, tail);
    NonEmptyCons("", tail);
  }

  lemma FirstPieceJoins(w: string, pr: seq<string>, tail: seq<string>)
    requires pr == [""] + tail
    ensures [w + pr[0]] + pr[1..] == [w] + tail
  {
    assert w + "" == w;
    assert pr[1..] == tail;
  }

  /** A word of length n at the front of s is the first non-empty piece. */
  lemma PiecesAfterWord(s: string, n: nat)
    requires 1 <= n <= |s|
    requires forall i :: 0 <= i < n ==> !IsSpace(s[i])
    requires n == |s| || IsSpace(s[n])
    ensures NonEmpty(Pieces(s)) == [s[..n]] + NonEmpty(Pieces(s[n..]))
  {
    assert s == s[..n] + s[n..];
    WordThenSpace(s[..n], s[n..]);
  }

  /** `line.trim().replace(/\s+/g, " ").split(" ")` of a line that is not
      blank: the maximal runs of non-space characters, in order. */
  function Words(s: string): (words: seq<string>)
    ensures forall i :: 0 <= i < |words| ==> |words[i]| > 0
    ensures forall i, j :: 0 <= i < |words| && 0 <= j < |words[i]| ==> !IsSpace(words[i][j])
    decreases |s|
  {
    if |s| == 0 then []
    else if IsSpace(s[0]) then Words(s[1..])
    else
      var n := WordLength(s);
      [s[..n]] + Words(s[n..])
  }

  /** The words of a line are exactly its non-empty pieces between
      whitespace characters, in order: nothing is lost, reordered or split
      inside a run. */
  lemma {:induction false} WordsArePieces(s: string)
    ensures Words(s) == NonEmpty(Pieces(s))
    decreases |s|
  {
    if |s| > 0 {
      if IsSpace(s[0]) {
        WordsArePieces(s[1..]);
        NonEmptyCons("", Pieces(s[1..]));
      } else {
        var n := WordLength(s);
        WordsArePieces(s[n..]);
        PiecesAfterWord(s, n);
      }
    }
  }

  /** A line has no words exactly when it is blank (the trimmed line is
      empty). */
  lemma {:induction false} NoWordsIffBlank(s: string)
    ensures Words(s) == [] <==> forall i :: 0 <= i < |s| ==> IsSpace(s[i])
    decreases |s|
  {
    if |s| > 0 {
      if IsSpace(s[0]) {
        NoWordsIffBlank(s[1..]);
        assert forall i :: 1 <= i < |s| ==> s[i] == s[1..][i - 1];
      }
    }
  }

  /** The element at position i of an array destructuring: `undefined`
      past the end. */
  function At<T>(xs: seq<T>, i: nat): (r: Option<T>)
    ensures r.Some? <==> i < |xs|
    ensures r.Some? ==> r.value == xs[i]
  {
    if i < |xs| then Some(xs[i]) else None
  }

  /** A vertex normal (x, y, z) or a three-component vertex; a missing
      number is `undefined`. */
  datatype Coord3 = Coord3(x: Option<real>, y: Option<real>, z: Option<real>)

  /** A texture coordinate: v defaults to 0. */
  datatype Coord2 = Coord2(u: Option<real>, v: real)

  /** `args.map(Number)`. */
  function Numbers(args: seq<string>, toNumber: string -> real): (nums: seq<real>)
    ensures |nums| == |args|
    ensures forall i :: 0 <= i < |args| ==> nums[i] == toNumber(args[i])
  {
    seq(|args|, i requires 0 <= i < |args| => toNumber(args[i]))
  }

  /** The numbers of a face element `v/t/n`: `element.split("/").map(Number)`. */
  function Parts(element: string, toIndex: string -> int): (parts: seq<int>)
    ensures |parts| >= 1
    ensures |parts| == |Split(element, '/')|
    ensures forall i :: 0 <= i < |parts| ==> parts[i] == toIndex(Split(element, '/')[i])
  {
    var pieces := Split(element, '/');
    seq(|pieces|, i requires 0 <= i < |pieces| => toIndex(pieces[i]))
  }

  /** `const [x, y, z] = args.map(Number)`. */
  function Coord3Of(args: seq<string>, toNumber: string -> real): (c: Coord3)
    ensures |args| >= 3 ==> c == Coord3(Some(toNumber(args[0])), Some(toNumber(args[1])), Some(toNumber(args[2])))
    ensures |args| < 3 ==> c.z == None
    ensures |args| < 2 ==> c.y == None
    ensures |args| == 0 ==> c.x == None
  {
    var nums := Numbers(args, toNumber);
    Coord3(At(nums, 0), At(nums, 1), At(nums, 2))
  }

  /** `const [u, v] = args.map(Number)` with `v ?? 0`. */
  function Coord2Of(args: seq<string>, toNumber: string -> real): (c: Coord2)
    ensures |args| == 0 ==> c == Coord2(None, 0.0)
    ensures |args| == 1 ==> c == Coord2(Some(toNumber(args[0])), 0.0)
    ensures |args| >= 2 ==> c == Coord2(Some(toNumber(args[0])), toNumber(args[1]))
  {
    var nums := Numbers(args, toNumber);
    Coord2(At(nums, 0), At(nums, 1).GetOr(0.0))
  }
}
