/** What SpotLightRenderer's constructor reads from the proxy-mesh file, as a function
    of the file's lines: one pass over a subset of the Wavefront OBJ text format in
    which "v " lines carry positions and "f" lines carry 1-based vertex indices. */
module ProxyMesh {
  import opened Wrappers
  import opened ObjText
  import opened DecimalInt

  /** A vertex position; each coordinate is kept as the word std::stof converts. */
  datatype Vertex = Vertex(x: string, y: string, z: string)

  /** The renderer's m_vertices and m_indices; indices are the int values computed
      before push_back converts them to unsigned int. */
  datatype Mesh = Mesh(vertices: seq<Vertex>, indices: seq<int>)

  const EmptyMesh: Mesh := Mesh([], [])

  /** The lines on which the loader throws or has undefined behaviour. */
  datatype ParseError =
    | MissingCoordinate(line: string)               // a NULL word reaches std::stof
    | BadFaceToken(token: string, cause: StoiError) // std::stoi throws
    | IndexOverflow(token: string)                  // INT_MIN - 1 overflows int

  datatype LineKind = VertexLine | FaceLine | OtherLine

  /** The two strncmp tests on the line's C string, in the order the loader makes them. */
  function Classify(line: string): LineKind
  {
    var cs := CStr(line);
    if |cs| >= 2 && cs[0] == 'v' && cs[1] == ' ' then VertexLine
    else if |cs| >= 1 && cs[0] == 'f' then FaceLine
    else OtherLine
  }

  /** The words after the line's first strtok word (its tag). */
  function Operands(line: string): seq<string>
  {
    var ts := Tokens(CStr(line));
    if ts == [] then [] else ts[1..]
  }

  /** The 0-based index of one face word: std::stoi(token) - 1 in int arithmetic. */
  function FaceIndex(token: string): Result<int, ParseError>
  {
    match Stoi(token)
    case Failure(e) => Failure(BadFaceToken(token, e))
    case Success(v) => if v == IntMin then Failure(IndexOverflow(token)) else Success(v - 1)
  }

  /** The indices of a face line's words, in order; the first bad word stops the run. */
  function FaceIndices(tokens: seq<string>): Result<seq<int>, ParseError>
  {
    if tokens == [] then Success([])
    else
      match FaceIndices(tokens[..|tokens| - 1])
      case Failure(e) => Failure(e)
      case Success(done) =>
        match FaceIndex(tokens[|tokens| - 1])
        case Failure(e) => Failure(e)
        case Success(i) => Success(done + [i])
  }

  /** One iteration of the loader's getline loop. */
  function ParseLine(m: Mesh, line: string): Result<Mesh, ParseError>
  {
    match Classify(line)
    case VertexLine =>
      var ops := Operands(line);
      if |ops| < 3 then Failure(MissingCoordinate(line))
      else Success(m.(vertices := m.vertices + [Vertex(ops[0], ops[1], ops[2])]))
    case FaceLine =>
      (match FaceIndices(Operands(line))
       case Failure(e) => Failure(e)
       case Success(found) => Success(m.(indices := m.indices + found)))
    case OtherLine => Success(m)
  }

  /** The whole getline loop, starting from empty sequences. */
  function ParseLines(lines: seq<string>): Result<Mesh, ParseError>
  {
    if lines == [] then Success(EmptyMesh)
    else
      match ParseLines(lines[..|lines| - 1])
      case Failure(e) => Failure(e)
      case Success(m) => ParseLine(m, lines[|lines| - 1])
  }

  /** The value push_back stores: the int converted to a 32-bit unsigned int, which
      is the one unsigned value congruent to it modulo 2^32. */
  function UnsignedIndex(i: int): (r: nat)
    ensures r < 0x1_0000_0000 && (i - r) % 0x1_0000_0000 == 0
  {
    i % 0x1_0000_0000
  }

  /** The number of "v " lines. */
  function VertexLineCount(lines: seq<string>): nat
  {
    if lines == [] then 0
    else VertexLineCount(lines[..|lines| - 1]) + (if Classify(lines[|lines| - 1]) == VertexLine then 1 else 0)
  }

  /** The number of words after the tag, summed over the "f" lines. */
  function FaceWordCount(lines: seq<string>): nat
  {
    if lines == [] then 0
    else
      var last := lines[|lines| - 1];
      FaceWordCount(lines[..|lines| - 1]) + (if Classify(last) == FaceLine then |Operands(last)| else 0)
  }

  /** A face word naming one of the vertices 1..n. */
  predicate IndexWordIn(token: string, n: nat)
  {
    Stoi(token).Success? && 1 <= Stoi(token).value <= n
  }

  /** A "v " line with three coordinates, an "f" line whose words name vertices 1..n,
      or any other line. */
  predicate LineWellFormed(line: string, n: nat)
  {
    match Classify(line)
    case VertexLine => |Operands(line)| >= 3
    case FaceLine => forall k :: 0 <= k < |Operands(line)| ==> IndexWordIn(Operands(line)[k], n)
    case OtherLine => true
  }

  predicate WellFormed(lines: seq<string>, n: nat)
  {
    forall i :: 0 <= i < |lines| ==> LineWellFormed(lines[i], n)
  }

  /** A face line is converted in full exactly when each of its words converts, and
      then its k-th index is the k-th word's. */
  lemma {:induction false} FaceIndicesWordByWord(tokens: seq<string>)
    ensures FaceIndices(tokens).Success? <==> forall k :: 0 <= k < |tokens| ==> FaceIndex(tokens[k]).Success?
    ensures FaceIndices(tokens).Success? ==>
      |FaceIndices(tokens).value| == |tokens| &&
      forall k :: 0 <= k < |tokens| ==> FaceIndices(tokens).value[k] == FaceIndex(tokens[k]).value
  {
    if tokens != [] {
      var init := tokens[..|tokens| - 1];
      FaceIndicesWordByWord(init);
      assert forall k :: 0 <= k < |init| ==> init[k] == tokens[k];
    }
  }

  /** When the whole file loads, so does every prefix of it: the loop never meets an
      error before its end. */
  lemma {:induction false} ParsePrefix(lines: seq<string>, k: nat)
    requires k <= |lines|
    requires ParseLines(lines).Success?
    ensures ParseLines(lines[..k]).Success?
    decreases |lines| - k
  {
    if k < |lines| {
      var next := lines[..k + 1];
      ParsePrefix(lines, k + 1);
      assert next[..|next| - 1] == lines[..k];
    } else {
      assert lines[..k] == lines;
    }
  }

  /** One vertex per "v " line and one index per face word. */
  lemma {:induction false} ParseCounts(lines: seq<string>)
    requires ParseLines(lines).Success?
    ensures |ParseLines(lines).value.vertices| == VertexLineCount(lines)
    ensures |ParseLines(lines).value.indices| == FaceWordCount(lines)
  {
    if lines != [] {
      var last := lines[|lines| - 1];
      ParseCounts(lines[..|lines| - 1]);
      if Classify(last) == FaceLine {
        FaceIndicesWordByWord(Operands(last));
      }
    }
  }

  predicate AllBelow(indices: seq<int>, n: nat)
  {
    forall k :: 0 <= k < |indices| ==> 0 <= indices[k] < n && indices[k] < IntMax
  }

  /** One well-formed line keeps every index in [0, n). */
  lemma ParseLineBelow(m: Mesh, line: string, n: nat)
    requires LineWellFormed(line, n) && AllBelow(m.indices, n)
    ensures ParseLine(m, line).Success? && AllBelow(ParseLine(m, line).value.indices, n)
  {
    if Classify(line) == FaceLine {
      var ops := Operands(line);
      FaceIndicesWordByWord(ops);
      forall k | 0 <= k < |ops|
        ensures FaceIndex(ops[k]).Success? && 0 <= FaceIndex(ops[k]).value < n
        ensures FaceIndex(ops[k]).value < IntMax
      {
        assert IndexWordIn(ops[k], n);
      }
    }
  }

  /** With every face word naming one of the vertices 1..n, loading succeeds and every
      stored index lies in [0, n) (and below INT_MAX). */
  lemma {:induction false} IndicesBelow(lines: seq<string>, n: nat)
    requires WellFormed(lines, n)
    ensures ParseLines(lines).Success? && AllBelow(ParseLines(lines).value.indices, n)
  {
    if lines != [] {
      var init := lines[..|lines| - 1];
      assert forall i :: 0 <= i < |init| ==> init[i] == lines[i];
      IndicesBelow(init, n);
      ParseLineBelow(ParseLines(init).value, lines[|lines| - 1], n);
    }
  }

  /** The loader's guarantee for a well-formed file: every index names a loaded vertex. */
  lemma {:induction false} IndicesInBounds(lines: seq<string>)
    requires WellFormed(lines, VertexLineCount(lines))
    ensures ParseLines(lines).Success?
    ensures var m := ParseLines(lines).value;
      forall k :: 0 <= k < |m.indices| ==> 0 <= m.indices[k] < |m.vertices| && UnsignedIndex(m.indices[k]) == m.indices[k]
  {
    IndicesBelow(lines, VertexLineCount(lines));
    ParseCounts(lines);
  }

  /** A line made of the words [tag] + ws is tokenised back into them. */
  lemma LineOfWords(tag: string, ws: seq<string>)
    requires IsWord(tag) && NoNul(tag)
    requires forall k :: 0 <= k < |ws| ==> IsWord(ws[k]) && NoNul(ws[k])
    ensures var line := JoinWords([tag] + ws);
      CStr(line) == line && Operands(line) == ws &&
      |tag| <= |line| && line[..|tag|] == tag && (ws != [] ==> line[|tag|] == ' ')
  {
    var ts := [tag] + ws;
    var line := JoinWords(ts);
    JoinWordsNoNul(ts);
    CStrOfNoNul(line);
    TokensOfJoinWords(ts);
    assert ts[1..] == ws;
    if ws != [] {
      assert line == tag + " " + JoinWords(ws);
    }
  }

  /** A "v " line appends exactly one vertex, made of the three words after the tag;
      further words are ignored and the indices are untouched. */
  lemma {:induction false} VertexLineAppendsOneVertex(m: Mesh, ws: seq<string>)
    requires |ws| >= 3
    requires forall k :: 0 <= k < |ws| ==> IsWord(ws[k]) && NoNul(ws[k])
    ensures ParseLine(m, JoinWords(["v"] + ws)) ==
      Success(Mesh(m.vertices + [Vertex(ws[0], ws[1], ws[2])], m.indices))
  {
    LineOfWords("v", ws);
  }

  /** A line whose tag starts with 'f' appends one index per word after the tag, in
      order, each the word's number less one, and leaves the vertices untouched. */
  lemma {:induction false} FaceLineAppendsIndices(m: Mesh, tag: string, ws: seq<string>, idx: seq<int>)
    requires IsWord(tag) && NoNul(tag) && tag[0] == 'f'
    requires forall k :: 0 <= k < |ws| ==> IsWord(ws[k]) && NoNul(ws[k])
    requires |idx| == |ws|
    requires forall k :: 0 <= k < |ws| ==> IntMin <= idx[k] && Stoi(ws[k]) == Success(idx[k] + 1)
    ensures ParseLine(m, JoinWords([tag] + ws)) == Success(Mesh(m.vertices, m.indices + idx))
  {
    LineOfWords(tag, ws);
    FaceIndicesWordByWord(ws);
    assert forall k :: 0 <= k < |ws| ==> FaceIndex(ws[k]) == Success(idx[k]);
    assert FaceIndices(ws).value == idx;
  }

  /** Lines the loader only echoes leave the mesh as it was: empty lines, normals,
      texture coordinates, comments, object and group names. */
  lemma OtherLinesIgnored(m: Mesh, line: string)
    requires line == [] || line[0] in "#ogsu" || (|line| >= 2 && line[0] == 'v' && line[1] in "nt")
    ensures ParseLine(m, line) == Success(m)
  {
  }

  /** A vertex line for the coordinate words p. */
  function VertexText(p: seq<string>): string
  {
    JoinWords(["v"] + p)
  }

  predicate Coordinates(p: seq<string>)
  {
    |p| == 3 && forall k :: 0 <= k < 3 ==> IsWord(p[k]) && NoNul(p[k])
  }

  lemma {:induction false} ThreeVertexLines(p0: seq<string>, p1: seq<string>, p2: seq<string>)
    requires Coordinates(p0) && Coordinates(p1) && Coordinates(p2)
    ensures ParseLines([VertexText(p0), VertexText(p1), VertexText(p2)]) ==
      Success(Mesh([Vertex(p0[0], p0[1], p0[2]), Vertex(p1[0], p1[1], p1[2]), Vertex(p2[0], p2[1], p2[2])], []))
  {
    var l0, l1, l2 := VertexText(p0), VertexText(p1), VertexText(p2);
    var m1 := Mesh([Vertex(p0[0], p0[1], p0[2])], []);
    var m2 := Mesh(m1.vertices + [Vertex(p1[0], p1[1], p1[2])], []);
    var m3 := Mesh(m2.vertices + [Vertex(p2[0], p2[1], p2[2])], []);
    VertexLineAppendsOneVertex(EmptyMesh, p0);
    assert EmptyMesh.vertices + [Vertex(p0[0], p0[1], p0[2])] == m1.vertices;
    ParseLinesSnoc([], l0);
    assert [] + [l0] == [l0];
    VertexLineAppendsOneVertex(m1, p1);
    ParseLinesSnoc([l0], l1);
    assert [l0] + [l1] == [l0, l1];
    VertexLineAppendsOneVertex(m2, p2);
    ParseLinesSnoc([l0, l1], l2);
    assert [l0, l1] + [l2] == [l0, l1, l2];
    assert m3.vertices == [Vertex(p0[0], p0[1], p0[2]), Vertex(p1[0], p1[1], p1[2]), Vertex(p2[0], p2[1], p2[2])];
  }

  /** The loader on a file of three vertex lines and one face "f 1 2 3" (spelled with
      any words that std::stoi reads as 1, 2 and 3): a triangle over the three vertices. */
  lemma {:induction false} TriangleExample(p0: seq<string>, p1: seq<string>, p2: seq<string>, a: string, b: string, c: string)
    requires Coordinates(p0) && Coordinates(p1) && Coordinates(p2)
    requires forall w :: w in [a, b, c] ==> IsWord(w) && NoNul(w)
    requires Stoi(a) == Success(1) && Stoi(b) == Success(2) && Stoi(c) == Success(3)
    ensures ParseLines([VertexText(p0), VertexText(p1), VertexText(p2), JoinWords(["f", a, b, c])]) ==
      Success(Mesh([Vertex(p0[0], p0[1], p0[2]), Vertex(p1[0], p1[1], p1[2]), Vertex(p2[0], p2[1], p2[2])], [0, 1, 2]))
  {
    var init := [VertexText(p0), VertexText(p1), VertexText(p2)];
    var face := JoinWords(["f", a, b, c]);
    ThreeVertexLines(p0, p1, p2);
    var m3 := ParseLines(init).value;
    OneTwoThree(m3, a, b, c);
    ParseLinesSnoc(init, face);
    assert init + [face] == [VertexText(p0), VertexText(p1), VertexText(p2), face];
    assert m3.indices + [0, 1, 2] == [0, 1, 2];
  }

  /** The face line "f a b c", with a, b and c read as 1, 2 and 3, appends [0, 1, 2]. */
  lemma OneTwoThree(m: Mesh, a: string, b: string, c: string)
    requires forall w :: w in [a, b, c] ==> IsWord(w) && NoNul(w)
    requires Stoi(a) == Success(1) && Stoi(b) == Success(2) && Stoi(c) == Success(3)
    ensures ParseLine(m, JoinWords(["f", a, b, c])) == Success(Mesh(m.vertices, m.indices + [0, 1, 2]))
  {
    var ws, idx := [a, b, c], [0, 1, 2];
    assert ["f", a, b, c] == ["f"] + ws;
    forall k | 0 <= k < 3
      ensures IsWord(ws[k]) && NoNul(ws[k]) && IntMin <= idx[k] && Stoi(ws[k]) == Success(idx[k] + 1)
    {
      assert ws[k] in ws;
    }
    FaceLineAppendsIndices(m, "f", ws, idx);
  }

  lemma ParseLinesSnoc(init: seq<string>, line: string)
    ensures ParseLines(init + [line]) ==
      match ParseLines(init)
      case Failure(e) => Failure(e)
      case Success(m) => ParseLine(m, line)
  {
    assert (init + [line])[..|init|] == init;
  }

  /** The words "1", "2" and "3" are read as 1, 2 and 3, so the file
      "v 0 0 0", "v 1 0 0", "v 0 1 0", "f 1 2 3" loads as the triangle [0, 1, 2]. */
  lemma SmallNumerals()
    ensures Stoi("1") == Success(1) && Stoi("2") == Success(2) && Stoi("3") == Success(3)
  {
    StoiOfDecimalText(1, []);
    StoiOfDecimalText(2, []);
    StoiOfDecimalText(3, []);
    assert DecimalText(1) + [] == "1" && DecimalText(2) + [] == "2" && DecimalText(3) + [] == "3";
  }
}
