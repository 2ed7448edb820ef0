/** The per-instance light records and their memory layout. A record is copied
    verbatim into the instance buffer, so its fields' order and sizes fix the float
    offsets that the vertex attributes read. */
module LightLayout {
  import opened Wrappers


  /** A 32-bit float, kept as its bit pattern: no value is ever computed here. */
  type Float = bv32

  /** sizeof(float) */
  const FloatBytes: nat := 4

  datatype Vec3 = Vec3(x: Float, y: Float, z: Float)
  datatype Vec4 = Vec4(x: Float, y: Float, z: Float, w: Float)
  /** glm::mat4: four columns, stored one after the other. */
  datatype Mat4 = Mat4(c0: Vec4, c1: Vec4, c2: Vec4, c3: Vec4)

  /** struct SpotLight; its constructor stores each argument in its field unchanged
      (in particular range and angle are not folded into the world matrix). */
  datatype SpotLight = SpotLight(
    worldMatrix: Mat4, attenuation: Vec4, color: Vec4, range: Float, angle: Float, exponent: Float)

  /** struct PointLight, the other light record of the demo. */
  datatype PointLight = PointLight(position: Vec3, radius: Float, attenuation: Vec4, color: Vec4)

  function Vec3Floats(v: Vec3): seq<Float> { [v.x, v.y, v.z] }

  function Vec4Floats(v: Vec4): seq<Float> { [v.x, v.y, v.z, v.w] }

  function Column(m: Mat4, c: nat): Vec4
    requires c < 4
  {
    if c == 0 then m.c0 else if c == 1 then m.c1 else if c == 2 then m.c2 else m.c3
  }

  function Mat4Floats(m: Mat4): seq<Float>
  {
    Vec4Floats(m.c0) + Vec4Floats(m.c1) + Vec4Floats(m.c2) + Vec4Floats(m.c3)
  }

  /** The memory image of a SpotLight: its fields in declaration order, unpadded. */
  function SpotLightFloats(l: SpotLight): seq<Float>
  {
    Mat4Floats(l.worldMatrix) + Vec4Floats(l.attenuation) + Vec4Floats(l.color) + [l.range, l.angle, l.exponent]
  }

  /** The memory image of a PointLight. */
  function PointLightFloats(l: PointLight): seq<Float>
  {
    Vec3Floats(l.position) + [l.radius] + Vec4Floats(l.attenuation) + Vec4Floats(l.color)
  }

  function Vec4At(fs: seq<Float>): Vec4
    requires |fs| == 4
  {
    Vec4(fs[0], fs[1], fs[2], fs[3])
  }

  function Mat4At(fs: seq<Float>): Mat4
    requires |fs| == 16
  {
    Mat4(Vec4At(fs[0..4]), Vec4At(fs[4..8]), Vec4At(fs[8..12]), Vec4At(fs[12..16]))
  }

  /** Reading a SpotLight back from 27 floats. */
  function SpotLightAt(fs: seq<Float>): SpotLight
    requires |fs| == 27
  {
    SpotLight(Mat4At(fs[0..16]), Vec4At(fs[16..20]), Vec4At(fs[20..24]), fs[24], fs[25], fs[26])
  }

  /** A range of float offsets [offset, offset + count). */
  datatype Span = Span(offset: nat, count: nat)

  predicate Contains(s: Span, o: nat)
  {
    s.offset <= o < s.offset + s.count
  }

  predicate Within(inner: Span, outer: Span)
  {
    outer.offset <= inner.offset && inner.offset + inner.count <= outer.offset + outer.count
  }

  predicate Disjoint(a: Span, b: Span)
  {
    a.offset + a.count <= b.offset || b.offset + b.count <= a.offset
  }

  function Sum(sizes: seq<nat>): nat
  {
    if sizes == [] then 0 else sizes[0] + Sum(sizes[1..])
  }

  /** Members of the given sizes laid out one after the other from `start`, as a C++
      compiler places float-aligned members in declaration order. */
  function Layout(sizes: seq<nat>, start: nat): seq<Span>
  {
    if sizes == [] then [] else [Span(start, sizes[0])] + Layout(sizes[1..], start + sizes[0])
  }

  /** Field sizes in floats, in declaration order: worldMatrix, attenuation, color,
      range, angle, exponent. */
  const SpotLightFieldSizes: seq<nat> := [16, 4, 4, 1, 1, 1]

  /** The float ranges of the SpotLight fields. */
  const SpotLightFields: seq<Span> :=
    [Span(0, 16), Span(16, 4), Span(20, 4), Span(24, 1), Span(25, 1), Span(26, 1)]

  /** Field sizes of PointLight: position, radius, attenuation, color. */
  const PointLightFieldSizes: seq<nat> := [3, 1, 4, 4]

  /** sizeof(SpotLight) in floats, the stride of the instance attributes. */
  const SpotLightFloatCount: nat := 27

  /** sizeof(SpotLight) in bytes: 27 four-byte floats, no padding. */
  const SpotLightBytes: nat := 108

  /** The float ranges attributes 1..7 read from each SpotLight, as the renderer
      declares them (component count, offset sizeof(float) * n). */
  const SpotLightViews: seq<Span> :=
    [Span(0, 4), Span(4, 4), Span(8, 4), Span(12, 4), Span(16, 4), Span(20, 4), Span(24, 3)]

  /** The floats of field k of a SpotLight, by declaration position. */
  function SpotLightField(l: SpotLight, k: nat): seq<Float>
    requires k < 6
  {
    match k
    case 0 => Mat4Floats(l.worldMatrix)
    case 1 => Vec4Floats(l.attenuation)
    case 2 => Vec4Floats(l.color)
    case 3 => [l.range]
    case 4 => [l.angle]
    case _ => [l.exponent]
  }

  /** What attribute k + 1 carries for one SpotLight: a column of the world matrix,
      the attenuation, the color, or range, angle and exponent together. */
  function SpotLightAttribute(l: SpotLight, k: nat): seq<Float>
    requires k < 7
  {
    if k < 4 then Vec4Floats(Column(l.worldMatrix, k))
    else if k == 4 then Vec4Floats(l.attenuation)
    else if k == 5 then Vec4Floats(l.color)
    else [l.range, l.angle, l.exponent]
  }

  /** The contents of the instance buffer: the records' images one after another. */
  function Image(lights: seq<SpotLight>): (r: seq<Float>)
  {
    if lights == [] then [] else SpotLightFloats(lights[0]) + Image(lights[1..])
  }

  /** Reading the instance buffer back as records. */
  function Records(fs: seq<Float>): seq<SpotLight>
    requires |fs| % 27 == 0
  {
    if |fs| == 0 then [] else [SpotLightAt(fs[..27])] + Records(fs[27..])
  }

  /** What the vertex stage fetches for instance j through a float attribute of
      `size` components at byte offset `offsetBytes` with byte stride `strideBytes`;
      None when that address is not float-aligned or runs past the end of `data`. */
  function FetchInstance(data: seq<Float>, size: nat, strideBytes: nat, offsetBytes: nat, j: nat): (r: Option<seq<Float>>)
    ensures r.Some? ==> |r.value| == size
  {
    var at := offsetBytes + j * strideBytes;
    if at % FloatBytes != 0 || at / FloatBytes + size > |data| then None
    else Some(data[at / FloatBytes .. at / FloatBytes + size])
  }

  /** Some span of `spans` contains offset o. */
  predicate Covered(spans: seq<Span>, o: nat)
  {
    exists k :: 0 <= k < |spans| && Contains(spans[k], o)
  }

  /** Laying out members one after another covers [start, start + total) with no gap
      and no overlap, each member right after the previous one. */
  lemma {:induction false} LayoutTiles(sizes: seq<nat>, start: nat)
    ensures var spans := Layout(sizes, start);
      && |spans| == |sizes|
      && (forall k :: 0 <= k < |sizes| ==> spans[k].count == sizes[k])
      && (sizes != [] ==> spans[0].offset == start)
      && (forall k :: 0 < k < |sizes| ==> spans[k].offset == spans[k - 1].offset + spans[k - 1].count)
      && (forall o: nat :: Covered(spans, o) <==> start <= o < start + Sum(sizes))
      && (forall j, k, o: nat :: 0 <= j < |spans| && 0 <= k < |spans| && Contains(spans[j], o) && Contains(spans[k], o) ==> j == k)
  {
    LayoutShape(sizes, start);
    if sizes != [] {
      var spans := Layout(sizes, start);
      var rest := Layout(sizes[1..], start + sizes[0]);
      LayoutTiles(sizes[1..], start + sizes[0]);
      assert spans == [Span(start, sizes[0])] + rest;
      assert forall k :: 0 < k < |spans| ==> spans[k] == rest[k - 1];
      assert Sum(sizes) == sizes[0] + Sum(sizes[1..]);
      forall k, o: nat | 0 < k < |spans| && Contains(spans[k], o)
        ensures start + sizes[0] <= o < start + Sum(sizes)
      {
        assert Contains(rest[k - 1], o);
        assert Covered(rest, o);
      }
      forall o: nat
        ensures Covered(spans, o) <==> start <= o < start + Sum(sizes)
      {
        if start + sizes[0] <= o < start + Sum(sizes) {
          assert Covered(rest, o);
          var k :| 0 <= k < |rest| && Contains(rest[k], o);
          assert Contains(spans[k + 1], o);
        } else if start <= o < start + sizes[0] {
          assert Contains(spans[0], o);
        }
      }
    }
  }

  /** Lengths, sizes and offsets of a layout: each member right after the previous one. */
  lemma {:induction false} LayoutShape(sizes: seq<nat>, start: nat)
    ensures var spans := Layout(sizes, start);
      && |spans| == |sizes|
      && (forall k :: 0 <= k < |sizes| ==> spans[k].count == sizes[k])
      && (sizes != [] ==> spans[0].offset == start)
      && (forall k :: 0 < k < |sizes| ==> spans[k].offset == spans[k - 1].offset + spans[k - 1].count)
  {
    if sizes != [] {
      var rest := Layout(sizes[1..], start + sizes[0]);
      LayoutShape(sizes[1..], start + sizes[0]);
      assert Layout(sizes, start) == [Span(start, sizes[0])] + rest;
    }
  }

  /** The SpotLight fields, laid out in declaration order, sit at float offsets 0, 16,
      20, 24, 25 and 26 and fill the 27-float record exactly. */
  lemma SpotLightFieldLayout()
    ensures Layout(SpotLightFieldSizes, 0) == SpotLightFields
    ensures Sum(SpotLightFieldSizes) == SpotLightFloatCount
  {
    var sz := SpotLightFieldSizes;
    assert sz[1..] == [4, 4, 1, 1, 1] && sz[1..][1..] == [4, 1, 1, 1];
    assert sz[1..][1..][1..] == [1, 1, 1] && sz[1..][1..][1..][1..] == [1, 1];
    assert sz[1..][1..][1..][1..][1..] == [1];
  }

  /** Each SpotLight field holds its member's floats at the offset the layout gives it. */
  lemma SpotLightFieldsInImage(l: SpotLight)
    ensures |SpotLightFloats(l)| == SpotLightFloatCount
    ensures forall k :: 0 <= k < 6 ==>
      SpotLightFloats(l)[SpotLightFields[k].offset .. SpotLightFields[k].offset + SpotLightFields[k].count] == SpotLightField(l, k)
  {
    var fs := SpotLightFloats(l);
    FieldSlices(l);
    forall k | 0 <= k < 6
      ensures fs[SpotLightFields[k].offset .. SpotLightFields[k].offset + SpotLightFields[k].count] == SpotLightField(l, k)
    {
      if k == 0 {
      } else if k == 1 {
      } else if k == 2 {
      } else if k == 3 {
        assert fs[24..25] == fs[24..27][..1];
      } else if k == 4 {
        assert fs[25..26] == fs[24..27][1..2];
      } else {
        assert fs[26..27] == fs[24..27][2..];
      }
    }
  }

  /** Attributes 1..7 are laid out like members of sizes 4, 4, 4, 4, 4, 4, 3: consecutive
      and filling the 27-float record exactly. */
  lemma SpotLightViewLayout()
    ensures SpotLightViews == Layout([4, 4, 4, 4, 4, 4, 3], 0)
    ensures Sum([4, 4, 4, 4, 4, 4, 3]) == SpotLightFloatCount
  {
    var sz: seq<nat> := [4, 4, 4, 4, 4, 4, 3];
    assert sz[1..] == [4, 4, 4, 4, 4, 3] && sz[1..][1..] == [4, 4, 4, 4, 3];
    assert sz[1..][1..][1..] == [4, 4, 4, 3] && sz[1..][1..][1..][1..] == [4, 4, 3];
    assert sz[1..][1..][1..][1..][1..] == [4, 3] && sz[1..][1..][1..][1..][1..][1..] == [3];
  }

  /** The SpotLight members tile the record: every float of [0, 27) belongs to exactly
      one member, and no float past the record to any. */
  lemma SpotLightFieldsTile()
    ensures forall o: nat :: Covered(SpotLightFields, o) <==> o < SpotLightFloatCount
    ensures forall j, k, o: nat ::
      0 <= j < |SpotLightFields| && 0 <= k < |SpotLightFields| && Contains(SpotLightFields[j], o) && Contains(SpotLightFields[k], o)
      ==> j == k
  {
    SpotLightFieldLayout();
    LayoutTiles(SpotLightFieldSizes, 0);
  }

  /** The views of attributes 1..7 tile the record: they are disjoint and together
      cover exactly the 27 floats of a SpotLight. */
  lemma SpotLightViewsTile()
    ensures forall o: nat :: Covered(SpotLightViews, o) <==> o < SpotLightFloatCount
    ensures forall j, k, o: nat ::
      0 <= j < |SpotLightViews| && 0 <= k < |SpotLightViews| && Contains(SpotLightViews[j], o) && Contains(SpotLightViews[k], o)
      ==> j == k
  {
    SpotLightViewLayout();
    LayoutTiles([4, 4, 4, 4, 4, 4, 3], 0);
  }

  /** Attribute k + 1 reads a column of the world matrix, the attenuation, the color, or
      range, angle and exponent together. */
  lemma SpotLightViewsReadFields(l: SpotLight)
    ensures forall k :: 0 <= k < 7 ==>
      SpotLightFloats(l)[SpotLightViews[k].offset .. SpotLightViews[k].offset + SpotLightViews[k].count] == SpotLightAttribute(l, k)
  {
    var fs := SpotLightFloats(l);
    FieldSlices(l);
    forall k | 0 <= k < 7
      ensures fs[SpotLightViews[k].offset .. SpotLightViews[k].offset + SpotLightViews[k].count] == SpotLightAttribute(l, k)
    {
      if k == 0 {
      } else if k == 1 {
      } else if k == 2 {
      } else if k == 3 {
      } else if k == 4 {
      } else if k == 5 {
      } else {
      }
    }
  }

  /** Where each field of a record sits in its image. */
  lemma FieldSlices(l: SpotLight)
    ensures var fs := SpotLightFloats(l);
      && |fs| == 27 && fs[0..16] == Mat4Floats(l.worldMatrix)
      && fs[0..4] == Vec4Floats(l.worldMatrix.c0) && fs[4..8] == Vec4Floats(l.worldMatrix.c1)
      && fs[8..12] == Vec4Floats(l.worldMatrix.c2) && fs[12..16] == Vec4Floats(l.worldMatrix.c3)
      && fs[16..20] == Vec4Floats(l.attenuation) && fs[20..24] == Vec4Floats(l.color)
      && fs[24..27] == [l.range, l.angle, l.exponent]
  {
    var fs := SpotLightFloats(l);
    var m := Mat4Floats(l.worldMatrix);
    SplitAt(m, fs[16..]);
    assert m[0..4] == Vec4Floats(l.worldMatrix.c0);
    assert m[4..8] == Vec4Floats(l.worldMatrix.c1);
    assert m[8..12] == Vec4Floats(l.worldMatrix.c2);
    assert m[12..16] == Vec4Floats(l.worldMatrix.c3);
    assert fs[16..20] == Vec4Floats(l.attenuation);
    assert fs[20..24] == Vec4Floats(l.color);
  }

  /** The two halves of a concatenation. */
  lemma SplitAt<T>(a: seq<T>, b: seq<T>)
    ensures (a + b)[..|a|] == a && (a + b)[|a|..] == b
  {
  }

  /** No attribute straddles a field boundary: each lies inside one field or holds
      whole fields. */
  lemma SpotLightViewsRespectFields()
    ensures forall k, f :: 0 <= k < 7 && 0 <= f < 6 ==>
      Within(SpotLightViews[k], SpotLightFields[f]) || Within(SpotLightFields[f], SpotLightViews[k]) ||
      Disjoint(SpotLightViews[k], SpotLightFields[f])
  {
  }

  /** The PointLight fields sit at float offsets 0, 3, 4 and 8 and fill 12 floats. */
  lemma PointLightFieldOffsets(l: PointLight)
    ensures Layout(PointLightFieldSizes, 0) == [Span(0, 3), Span(3, 1), Span(4, 4), Span(8, 4)]
    ensures Sum(PointLightFieldSizes) == 12 == |PointLightFloats(l)|
    ensures PointLightFloats(l)[0..3] == Vec3Floats(l.position) && PointLightFloats(l)[3] == l.radius
    ensures PointLightFloats(l)[4..8] == Vec4Floats(l.attenuation)
    ensures PointLightFloats(l)[8..12] == Vec4Floats(l.color)
  {
    var fs := PointLightFloats(l);
    assert fs[0..3] == Vec3Floats(l.position);
    assert fs[4..8] == Vec4Floats(l.attenuation);
  }

  /** Every record's image is sizeof(SpotLight) bytes long. */
  lemma SpotLightSize(l: SpotLight)
    ensures FloatBytes * |SpotLightFloats(l)| == SpotLightBytes == FloatBytes * SpotLightFloatCount
  {
  }

  lemma Vec4RoundTrip(fs: seq<Float>)
    requires |fs| == 4
    ensures Vec4Floats(Vec4At(fs)) == fs
  {
  }

  /** Round trip of one record through its memory image. */
  lemma SpotLightImageRoundTrip(l: SpotLight, fs: seq<Float>)
    requires |fs| == 27
    ensures |SpotLightFloats(l)| == 27 && SpotLightAt(SpotLightFloats(l)) == l
    ensures SpotLightFloats(SpotLightAt(fs)) == fs
  {
    ReadBackImage(l);
    ImageOfReadBack(fs);
  }

  lemma ReadBackImage(l: SpotLight)
    ensures |SpotLightFloats(l)| == 27 && SpotLightAt(SpotLightFloats(l)) == l
  {
    var image := SpotLightFloats(l);
    var m := image[0..16];
    assert m == Mat4Floats(l.worldMatrix);
    assert m[0..4] == Vec4Floats(l.worldMatrix.c0);
    assert m[4..8] == Vec4Floats(l.worldMatrix.c1);
    assert m[8..12] == Vec4Floats(l.worldMatrix.c2);
    assert m[12..16] == Vec4Floats(l.worldMatrix.c3);
    assert image[16..20] == Vec4Floats(l.attenuation);
    assert image[20..24] == Vec4Floats(l.color);
  }

  lemma ImageOfReadBack(fs: seq<Float>)
    requires |fs| == 27
    ensures SpotLightFloats(SpotLightAt(fs)) == fs
  {
    var m := fs[0..16];
    Vec4RoundTrip(m[0..4]);
    Vec4RoundTrip(m[4..8]);
    Vec4RoundTrip(m[8..12]);
    Vec4RoundTrip(m[12..16]);
    assert m == m[0..4] + m[4..8] + m[8..12] + m[12..16];
    assert Mat4Floats(Mat4At(m)) == m;
    Vec4RoundTrip(fs[16..20]);
    Vec4RoundTrip(fs[20..24]);
    assert fs == m + fs[16..20] + fs[20..24] + [fs[24], fs[25], fs[26]];
  }

  /** Record j of the instance buffer starts at float 27 * j. */
  lemma {:induction false} ImageAt(lights: seq<SpotLight>, j: nat, o: nat)
    requires j < |lights| && o < 27
    ensures |Image(lights)| == 27 * |lights|
    ensures Image(lights)[27 * j + o] == SpotLightFloats(lights[j])[o]
  {
    ImageLength(lights);
    if j == 0 {
      ImageCons(lights, o);
    } else {
      var i := 27 * j + o;
      calc {
        Image(lights)[i];
      == { ImageCons(lights, i); }
        Image(lights[1..])[i - 27];
      == { assert i - 27 == 27 * (j - 1) + o; ImageAt(lights[1..], j - 1, o); }
        SpotLightFloats(lights[1..][j - 1])[o];
      == { assert lights[1..][j - 1] == lights[j]; }
        SpotLightFloats(lights[j])[o];
      }
    }
  }

  /** The instance buffer is the first record's image followed by the rest's. */
  lemma ImageCons(lights: seq<SpotLight>, i: nat)
    requires lights != [] && i < |Image(lights)|
    ensures Image(lights)[i] == if i < 27 then SpotLightFloats(lights[0])[i] else Image(lights[1..])[i - 27]
  {
    var head := SpotLightFloats(lights[0]);
    assert |head| == 27;
    assert Image(lights) == head + Image(lights[1..]);
  }

  lemma {:induction false} ImageLength(lights: seq<SpotLight>)
    ensures |Image(lights)| == 27 * |lights|
  {
    if lights != [] {
      ImageLength(lights[1..]);
    }
  }

  lemma RecordsCons(head: seq<Float>, tail: seq<Float>)
    requires |head| == 27 && |tail| % 27 == 0
    ensures |head + tail| % 27 == 0
    ensures Records(head + tail) == [SpotLightAt(head)] + Records(tail)
  {
    SplitAt(head, tail);
  }

  /** Reading the instance buffer back gives the lights, in order. */
  lemma {:induction false} RecordsOfImage(lights: seq<SpotLight>)
    ensures |Image(lights)| % 27 == 0 && Records(Image(lights)) == lights
  {
    ImageLength(lights);
    if lights != [] {
      var head, tail := SpotLightFloats(lights[0]), Image(lights[1..]);
      ReadBackImage(lights[0]);
      RecordsOfImage(lights[1..]);
      RecordsCons(head, tail);
    }
  }

  /** The vertex stage reads, for instance j through attribute k + 1 (the layout of
      SpotLightViews with stride sizeof(SpotLight)), exactly that field of lights[j]. */
  lemma InstanceAttribute(lights: seq<SpotLight>, j: nat, k: nat)
    requires j < |lights| && k < 7
    ensures FetchInstance(Image(lights), SpotLightViews[k].count, SpotLightBytes, FloatBytes * SpotLightViews[k].offset, j)
            == Some(SpotLightAttribute(lights[j], k))
  {
    var a, n := SpotLightViews[k].offset, SpotLightViews[k].count;
    SpotLightViewsReadFields(lights[j]);
    RecordSlice(lights, j, a, n);
    FetchRecordSlice(Image(lights), j, a, n);
  }

  /** With stride sizeof(SpotLight), instance j's attribute at float `offset` is the
      slice of the buffer starting at float 27 * j + offset. */
  lemma FetchRecordSlice(data: seq<Float>, j: nat, offset: nat, size: nat)
    requires 27 * j + offset + size <= |data|
    ensures FetchInstance(data, size, SpotLightBytes, FloatBytes * offset, j) == Some(data[27 * j + offset .. 27 * j + offset + size])
  {
    var first := 27 * j + offset;
    assert FloatBytes * offset + j * SpotLightBytes == 4 * first;
    WordAligned(first);
  }

  /** A slice of record j of the instance buffer is that slice of lights[j]'s image. */
  lemma RecordSlice(lights: seq<SpotLight>, j: nat, a: nat, n: nat)
    requires j < |lights| && a + n <= 27
    ensures |Image(lights)| == 27 * |lights| && |SpotLightFloats(lights[j])| == 27
    ensures Image(lights)[27 * j + a .. 27 * j + a + n] == SpotLightFloats(lights[j])[a .. a + n]
  {
    ImageLength(lights);
    var rec := SpotLightFloats(lights[j]);
    forall i | a <= i < a + n
      ensures Image(lights)[27 * j + i] == rec[i]
    {
      ImageAt(lights, j, i);
    }
  }

  lemma WordAligned(x: nat)
    ensures (4 * x) % 4 == 0 && (4 * x) / 4 == x
  {
  }
}
