/** SpotLightRenderer: loads the cone proxy mesh once, uploads it to a vertex and an
    index buffer, and draws one cone per spot light, feeding each light's record to
    the vertex stage as per-instance attributes 1..7. */
module SpotLightRenderers {
  import opened Wrappers
  import opened ObjText
  import opened DecimalInt
  import opened ProxyMesh
  import opened LightLayout
  import opened GlState

  /** The indices as m_indices holds them, each converted to unsigned int. */
  function UnsignedIndices(s: seq<int>): seq<nat>
  {
    if s == [] then [] else UnsignedIndices(s[..|s| - 1]) + [UnsignedIndex(s[|s| - 1])]
  }

  /** A file the constructor loads without throwing and without taking the address of
      the first element of an empty vector. */
  predicate Loadable(lines: seq<string>)
  {
    && ParseLines(lines).Success?
    && ParseLines(lines).value.vertices != []
    && ParseLines(lines).value.indices != []
  }

  /** Attribute 0: one vec3 per vertex, tightly packed in the vertex buffer. */
  function PositionPointer(vertexBuffer: nat): AttribPointer
  {
    AttribPointer(vertexBuffer, 3, Vec3Bytes, 0)
  }

  /** Attribute k + 1: view k of the SpotLight record, stride sizeof(SpotLight). */
  function InstancePointer(instanceBuffer: nat, k: nat): AttribPointer
    requires k < 7
  {
    AttribPointer(instanceBuffer, SpotLightViews[k].count, SpotLightBytes, FloatBytes * SpotLightViews[k].offset)
  }

  /** The attribute pointers after RenderLights has set attributes 0..7. */
  function SpotLightPointers(ps: seq<AttribPointer>, vertexBuffer: nat, instanceBuffer: nat): (r: seq<AttribPointer>)
    requires |ps| >= 8
    ensures |r| == |ps| && r[0] == PositionPointer(vertexBuffer)
    ensures forall k :: 1 <= k < 8 ==> r[k] == InstancePointer(instanceBuffer, k - 1)
    ensures forall k :: 8 <= k < |ps| ==> r[k] == ps[k]
  {
    ps[0 := PositionPointer(vertexBuffer)]
      [1 := InstancePointer(instanceBuffer, 0)][2 := InstancePointer(instanceBuffer, 1)]
      [3 := InstancePointer(instanceBuffer, 2)][4 := InstancePointer(instanceBuffer, 3)]
      [5 := InstancePointer(instanceBuffer, 4)][6 := InstancePointer(instanceBuffer, 5)]
      [7 := InstancePointer(instanceBuffer, 6)]
  }

  /** The draw call RenderLights issues from context state `v`: attributes 0..7
      enabled, 1..7 advancing per instance, the lights in the instance buffer. */
  function SpotLightDraw(v: GlView, indexCount: nat, lights: seq<SpotLight>,
                         vertexBuffer: nat, indexBuffer: nat, instanceBuffer: nat, program: nat): DrawCall
    requires |v.enabled| >= 8 && |v.divisor| >= 8 && |v.pointers| >= 8
  {
    DrawCall(indexCount, |lights|, indexBuffer, program,
             Fill(v.enabled, 0, 8, true), Fill(v.divisor, 1, 8, 1),
             SpotLightPointers(v.pointers, vertexBuffer, instanceBuffer),
             v.store[instanceBuffer := Floats(Image(lights))])
  }

  /** The draw covers every index once per light; for instance j each of attributes
      1..7 is enabled, advances once per instance and reads the matching part of
      lights[j]; attribute 0 reads positions from the untouched vertex buffer, and its
      divisor is whatever it was before. */
  lemma SpotLightDrawReadsLights(v: GlView, indexCount: nat, lights: seq<SpotLight>,
                                 vertexBuffer: nat, indexBuffer: nat, instanceBuffer: nat, program: nat)
    requires |v.enabled| >= 8 && |v.divisor| >= 8 && |v.pointers| >= 8
    requires vertexBuffer != instanceBuffer
    ensures var call := SpotLightDraw(v, indexCount, lights, vertexBuffer, indexBuffer, instanceBuffer, program);
      && call.count == indexCount && call.instances == |lights|
      && call.elementBuffer == indexBuffer && call.program == program
      && call.enabled[0] && call.pointers[0] == PositionPointer(vertexBuffer)
      && call.divisor[0] == v.divisor[0]
      && (vertexBuffer in v.store ==> vertexBuffer in call.buffers && call.buffers[vertexBuffer] == v.store[vertexBuffer])
      && ByteSize(call.buffers[instanceBuffer]) == |lights| * SpotLightBytes
      && (forall k :: 1 <= k < 8 ==> call.enabled[k] && call.divisor[k] == 1)
      && forall j, k :: 0 <= j < |lights| && 1 <= k < 8 ==>
           InstanceFetch(call, k, j) == Some(SpotLightAttribute(lights[j], k - 1))
  {
    var call := SpotLightDraw(v, indexCount, lights, vertexBuffer, indexBuffer, instanceBuffer, program);
    ImageLength(lights);
    forall j, k | 0 <= j < |lights| && 1 <= k < 8
      ensures InstanceFetch(call, k, j) == Some(SpotLightAttribute(lights[j], k - 1))
    {
      InstanceFetchReadsLight(call, lights, instanceBuffer, j, k);
    }
  }

  /** Through attribute k's pointer into a buffer holding the lights' images,
      instance j reads the matching part of lights[j]. */
  lemma InstanceFetchReadsLight(call: DrawCall, lights: seq<SpotLight>, instanceBuffer: nat, j: nat, k: nat)
    requires 1 <= k < 8 && k < |call.pointers| && j < |lights|
    requires call.pointers[k] == InstancePointer(instanceBuffer, k - 1)
    requires instanceBuffer in call.buffers && call.buffers[instanceBuffer] == Floats(Image(lights))
    ensures InstanceFetch(call, k, j) == Some(SpotLightAttribute(lights[j], k - 1))
  {
    InstanceAttribute(lights, j, k - 1);
  }

  /** glDeleteBuffers on three distinct nonzero names frees exactly those three:
      their contents go, every binding to them (the two buffer targets and the
      attribute pointers) reverts to 0, and nothing else changes. */
  lemma ReleaseFreesHandles(v: GlView, a: nat, b: nat, c: nat)
    requires a != 0 && b != 0 && c != 0
    ensures var r := Deleted(Deleted(Deleted(v, a), b), c);
      && r.live == v.live - {a, b, c}
      && r.store.Keys == v.store.Keys - {a, b, c}
      && (forall n :: n in r.store ==> r.store[n] == v.store[n])
      && r.arrayBuffer == (if v.arrayBuffer in {a, b, c} then 0 else v.arrayBuffer)
      && r.elementBuffer == (if v.elementBuffer in {a, b, c} then 0 else v.elementBuffer)
      && |r.pointers| == |v.pointers|
      && (forall k :: 0 <= k < |v.pointers| ==>
            r.pointers[k] == if v.pointers[k].buffer in {a, b, c} then v.pointers[k].(buffer := 0) else v.pointers[k])
      && r.(live := v.live, store := v.store, arrayBuffer := v.arrayBuffer, elementBuffer := v.elementBuffer,
            pointers := v.pointers) == v
  {
  }

  /** After RenderLights has pointed attributes 0..7 at the vertex and instance
      buffers, the destructor's three deletions leave all eight pointers on buffer 0. */
  lemma ReleaseDetachesAttributes(v: GlView, vertexBuffer: nat, indexBuffer: nat, instanceBuffer: nat)
    requires vertexBuffer != 0 && indexBuffer != 0 && instanceBuffer != 0
    requires |v.pointers| >= 8
    ensures var r := Deleted(Deleted(Deleted(v.(pointers := SpotLightPointers(v.pointers, vertexBuffer, instanceBuffer)),
                                             vertexBuffer), indexBuffer), instanceBuffer);
      forall k :: 0 <= k < 8 ==> r.pointers[k].buffer == 0
  {
    ReleaseFreesHandles(v.(pointers := SpotLightPointers(v.pointers, vertexBuffer, instanceBuffer)),
                        vertexBuffer, indexBuffer, instanceBuffer);
  }

  /** glGenBuffers, then glBindBuffer(GL_ARRAY_BUFFER, name), glBufferData with
      `size` bytes of `data` and glBindBuffer(GL_ARRAY_BUFFER, 0): a new buffer
      holding `data`. */
  method FilledBuffer(gl: Gl, size: nat, data: BufferData) returns (name: nat)
    requires gl.Valid()
    requires size == ByteSize(data)
    modifies gl
    ensures gl.Valid()
    ensures name != 0 && name !in old(gl.live)
    ensures gl.View() == old(gl.View()).(live := old(gl.live) + {name}, nextName := name + 1,
                                         arrayBuffer := 0, store := old(gl.store)[name := data])
  {
    name := gl.GenBuffer();
    gl.BindBuffer(ArrayBuffer, name);
    gl.BufferData(ArrayBuffer, size, data);
    gl.BindBuffer(ArrayBuffer, 0);
  }

  /** glVertexAttribDivisor(i, d) for the instance attributes i = 1..7. */
  method SetDivisors(gl: Gl, d: nat)
    requires gl.Valid()
    modifies gl.divisor
    ensures gl.Valid()
    ensures gl.View() == old(gl.View()).(divisor := Fill(old(gl.divisor[..]), 1, 8, d))
  {
    ghost var v := gl.View();
    for i := 1 to 8
      invariant gl.Valid()
      invariant gl.View() == v.(divisor := Fill(v.divisor, 1, i, d))
    {
      gl.VertexAttribDivisor(i, d);
      FillStep(v.divisor, 1, i, d);
    }
  }

  /** glEnableVertexAttribArray(i) for attributes i = 0..7. */
  method EnableAttributes(gl: Gl)
    requires gl.Valid()
    modifies gl.enabled
    ensures gl.Valid()
    ensures gl.View() == old(gl.View()).(enabled := Fill(old(gl.enabled[..]), 0, 8, true))
  {
    ghost var v := gl.View();
    for i := 0 to 8
      invariant gl.Valid()
      invariant gl.View() == v.(enabled := Fill(v.enabled, 0, i, true))
    {
      gl.EnableVertexAttribArray(i);
      FillStep(v.enabled, 0, i, true);
    }
  }

  /** glDisableVertexAttribArray(i) for attributes i = 0..7. */
  method DisableAttributes(gl: Gl)
    requires gl.Valid()
    modifies gl.enabled
    ensures gl.Valid()
    ensures gl.View() == old(gl.View()).(enabled := Fill(old(gl.enabled[..]), 0, 8, false))
  {
    ghost var v := gl.View();
    for i := 0 to 8
      invariant gl.Valid()
      invariant gl.View() == v.(enabled := Fill(v.enabled, 0, i, false))
    {
      gl.DisableVertexAttribArray(i);
      FillStep(v.enabled, 0, i, false);
    }
  }

  class SpotLightRenderer {
    var vertexBuffer: nat
    var indexBuffer: nat
    var instanceBuffer: nat
    var vertices: seq<Vertex>
    var indices: seq<nat>
    /** Whether the constructor got past the file check and generated the buffers. */
    ghost var created: bool

    /** The buffers exist: three distinct nonzero names. */
    ghost predicate Ready()
      reads this
    {
      && created
      && vertexBuffer != 0 && indexBuffer != 0 && instanceBuffer != 0
      && vertexBuffer != indexBuffer && vertexBuffer != instanceBuffer && indexBuffer != instanceBuffer
    }

    /** The three buffers still exist in `gl`, the context that created them. */
    ghost predicate Attached(gl: Gl)
      reads this, gl
    {
      vertexBuffer in gl.live && indexBuffer in gl.live && instanceBuffer in gl.live
    }

    /** `file` holds the lines of "../assets/cone.obj", or None when it cannot be opened; in that
        case the constructor stops before generating any buffer. Otherwise it parses
        every line, then generates the instance, vertex and index buffers and fills
        the latter two. */
    constructor (file: Option<seq<string>>, gl: Gl)
      requires gl.Valid()
      requires file.Some? ==> Loadable(file.value)
      modifies gl
      ensures gl.Valid()
      ensures file.None? ==> !created && vertices == [] && indices == [] && gl.View() == old(gl.View())
      ensures file.Some? ==>
        var m := ParseLines(file.value).value;
        && Ready() && Attached(gl) && vertices == m.vertices && indices == UnsignedIndices(m.indices)
        && vertexBuffer !in old(gl.live) && indexBuffer !in old(gl.live) && instanceBuffer !in old(gl.live)
        && instanceBuffer !in gl.store
        && gl.View() == old(gl.View()).(
             live := old(gl.live) + {instanceBuffer, vertexBuffer, indexBuffer},
             nextName := gl.nextName, arrayBuffer := 0,
             store := old(gl.store)[vertexBuffer := Positions(vertices)][indexBuffer := UnsignedInts(indices)])
    {
      vertexBuffer, indexBuffer, instanceBuffer := 0, 0, 0;
      vertices, indices := [], [];
      created := false;
      new;
      if file.None? {
        return;
      }
      ReadLines(file.value);
      CreateBuffers(gl);
    }

    /** The getline loop: every line of the file, in order, is classified and read. */
    method ReadLines(lines: seq<string>)
      requires ParseLines(lines).Success?
      requires vertices == [] && indices == []
      modifies this`vertices, this`indices
      ensures vertices == ParseLines(lines).value.vertices
      ensures indices == UnsignedIndices(ParseLines(lines).value.indices)
    {
      ghost var ints: seq<int> := [];
      var k := 0;
      while k < |lines|
        invariant k <= |lines|
        invariant ParseLines(lines[..k]) == Success(Mesh(vertices, ints))
        invariant indices == UnsignedIndices(ints)
      {
        ParsePrefix(lines, k + 1);
        assert lines[..k + 1][..k] == lines[..k];
        ints := ReadLine(lines[k], ints);
        k := k + 1;
      }
      assert lines[..k] == lines;
    }

    /** One pass of the getline loop: a vertex line adds a vertex, a face line adds
        its indices, any other line changes nothing. `ints` are the indices read so
        far before their conversion to unsigned int. */
    method ReadLine(line: string, ghost ints: seq<int>) returns (ghost found: seq<int>)
      requires indices == UnsignedIndices(ints)
      requires ParseLine(Mesh(vertices, ints), line).Success?
      modifies this`vertices, this`indices
      ensures ParseLine(Mesh(old(vertices), ints), line) == Success(Mesh(vertices, found))
      ensures indices == UnsignedIndices(found)
    {
      found := ints;
      var cs := CStr(line);
      if |cs| >= 2 && cs[0] == 'v' && cs[1] == ' ' {
        ReadVertexLine(line);
      } else if |cs| >= 1 && cs[0] == 'f' {
        ReadFaceLine(line);
        UnsignedIndicesAppend(ints, FaceIndices(Operands(line)).value);
        found := ints + FaceIndices(Operands(line)).value;
      }
    }

    /** Generates the instance, vertex and index buffers, in that order, and fills the
        vertex and index buffers with m_vertices and m_indices through the
        GL_ARRAY_BUFFER binding, which is left at 0. */
    method CreateBuffers(gl: Gl)
      requires gl.Valid()
      modifies this`vertexBuffer, this`indexBuffer, this`instanceBuffer, this`created, gl
      ensures gl.Valid() && Ready() && Attached(gl)
      ensures vertexBuffer !in old(gl.live) && indexBuffer !in old(gl.live) && instanceBuffer !in old(gl.live)
      ensures instanceBuffer !in gl.store
      ensures gl.View() == old(gl.View()).(
        live := old(gl.live) + {instanceBuffer, vertexBuffer, indexBuffer},
        nextName := gl.nextName, arrayBuffer := 0,
        store := old(gl.store)[vertexBuffer := Positions(vertices)][indexBuffer := UnsignedInts(indices)])
    {
      instanceBuffer := gl.GenBuffer();
      vertexBuffer := FilledBuffer(gl, |vertices| * Vec3Bytes, Positions(vertices));
      indexBuffer := FilledBuffer(gl, |indices| * UintBytes, UnsignedInts(indices));
      created := true;
    }

    /** A line whose C string starts with "v ": the three words after the tag become
        one vertex; further words are ignored. */
    method ReadVertexLine(line: string)
      requires Classify(line) == VertexLine && |Operands(line)| >= 3
      modifies this`vertices
      ensures vertices == old(vertices) + [Vertex(Operands(line)[0], Operands(line)[1], Operands(line)[2])]
    {
      var cs := CStr(line);
      assert cs[0..] == cs;
      var tag, pos := StrTok(cs, 0);
      var x, y, z;
      x, pos := StrTok(cs, pos);
      y, pos := StrTok(cs, pos);
      z, pos := StrTok(cs, pos);
      vertices := vertices + [Vertex(x.value, y.value, z.value)];
    }

    /** A line whose C string starts with "f": each word after the tag, in order, is
        converted with std::stoi, decremented, and pushed as an unsigned int. */
    method ReadFaceLine(line: string)
      requires Classify(line) == FaceLine && FaceIndices(Operands(line)).Success?
      modifies this`indices
      ensures indices == old(indices) + UnsignedIndices(FaceIndices(Operands(line)).value)
    {
      var cs := CStr(line);
      assert cs[0..] == cs;
      var tag, pos := StrTok(cs, 0);
      OperandsAfterTag(line, tag, pos);
      ReadFaceWords(cs, pos, Operands(line));
    }

    /** The loop `while ((token = strtok(0, " ")) != NULL)` over the words `ops` left in
        `cs` from `pos` on: each one's index is pushed as an unsigned int, in order. */
    method ReadFaceWords(cs: string, pos: nat, ghost ops: seq<string>)
      requires pos <= |cs| && Tokens(cs[pos..]) == ops && FaceIndices(ops).Success?
      modifies this`indices
      ensures indices == old(indices) + UnsignedIndices(FaceIndices(ops).value)
    {
      FaceIndexCount(ops);
      ghost var done := 0;
      assert ops[done..] == ops;
      var token: Option<string>, next: nat := NextWord(cs, pos, ops, done);
      while token.Some?
        invariant next <= |cs| && done <= |ops|
        invariant token.Some? ==> done < |ops| && token.value == ops[done] && Tokens(cs[next..]) == ops[done + 1..]
        invariant token.None? ==> done == |ops|
        invariant indices == old(indices) + UnsignedIndices(FaceIndices(ops).value[..done])
        decreases |ops| - done
      {
        PushFaceIndex(token.value, ops, done, old(indices));
        token, next := NextWord(cs, next, ops, done + 1);
        done := done + 1;
      }
      assert FaceIndices(ops).value[..done] == FaceIndices(ops).value;
    }

    /** One pass of the face loop: int i = std::stoi(token) - 1 for word `done` of a
        face line that converts, pushed as an unsigned int. */
    method PushFaceIndex(token: string, ghost ops: seq<string>, ghost done: nat, ghost base: seq<nat>)
      requires FaceIndices(ops).Success? && done < |ops| && token == ops[done]
      requires done < |FaceIndices(ops).value| && indices == base + UnsignedIndices(FaceIndices(ops).value[..done])
      modifies this`indices
      ensures |FaceIndices(ops).value| == |ops|
      ensures indices == old(indices) + [UnsignedIndex(FaceIndices(ops).value[done])]
      ensures indices == base + UnsignedIndices(FaceIndices(ops).value[..done + 1])
    {
      FaceIndexAt(ops, done);
      var i := Stoi(token).value - 1;
      indices := indices + [UnsignedIndex(i)];
      UnsignedIndicesSnoc(base, FaceIndices(ops).value, done);
    }

    /** One instanced draw of the cone per light. The light records replace the
        instance buffer; attributes 0..7 are pointed at the two buffers, 1..7 get
        divisor 1, all eight are enabled, the draw runs between the material's Bind and
        Unbind, and afterwards 0..7 are disabled, divisors 1..7 are 0 and both buffer
        bindings are 0. The renderer's own fields are not touched. */
    method RenderLights(lights: seq<SpotLight>, material: Material, gl: Gl)
      requires Ready() && gl.Valid() && Attached(gl)
      modifies gl, gl.enabled, gl.divisor, gl.pointers
      ensures gl.Valid()
      ensures gl.View() == old(gl.View()).(
        enabled := Fill(old(gl.enabled[..]), 0, 8, false),
        divisor := Fill(old(gl.divisor[..]), 1, 8, 0),
        pointers := SpotLightPointers(old(gl.pointers[..]), vertexBuffer, instanceBuffer),
        arrayBuffer := 0, elementBuffer := 0, program := 0,
        store := old(gl.store)[instanceBuffer := Floats(Image(lights))],
        log := old(gl.log) + [
          ProgramSwitch(material.program),
          Draw(SpotLightDraw(old(gl.View()), |indices|, lights, vertexBuffer, indexBuffer, instanceBuffer, material.program)),
          ProgramSwitch(0)])
    {
      ghost var v0 := gl.View();
      PrepareDraw(lights, gl);

      material.Bind(gl);
      gl.DrawElementsInstanced(|indices|, |lights|);
      material.Unbind(gl);
      assert gl.log == v0.log + [
        ProgramSwitch(material.program),
        Draw(SpotLightDraw(v0, |indices|, lights, vertexBuffer, indexBuffer, instanceBuffer, material.program)),
        ProgramSwitch(0)];

      gl.BindBuffer(ElementArrayBuffer, 0);
      DisableAttributes(gl);
      SetDivisors(gl, 0);
      FillTwice(v0.enabled, 0, 8, true, false);
      FillTwice(v0.divisor, 1, 8, 1, 0);
    }

    /** Everything RenderLights does before binding the material: the attributes are
        attached, attributes 1..7 advance once per instance, attributes 0..7 are
        enabled, and the index buffer is bound to GL_ELEMENT_ARRAY_BUFFER. */
    method PrepareDraw(lights: seq<SpotLight>, gl: Gl)
      requires gl.Valid() && Attached(gl)
      modifies gl, gl.enabled, gl.divisor, gl.pointers
      ensures gl.Valid()
      ensures gl.View() == old(gl.View()).(
        enabled := Fill(old(gl.enabled[..]), 0, 8, true),
        divisor := Fill(old(gl.divisor[..]), 1, 8, 1),
        pointers := SpotLightPointers(old(gl.pointers[..]), vertexBuffer, instanceBuffer),
        arrayBuffer := 0, elementBuffer := indexBuffer,
        store := old(gl.store)[instanceBuffer := Floats(Image(lights))])
    {
      AttachAttributes(lights, gl);
      SetDivisors(gl, 1);
      gl.BindBuffer(ArrayBuffer, 0);
      EnableAttributes(gl);
      gl.BindBuffer(ElementArrayBuffer, indexBuffer);
    }

    /** Points attribute 0 at the cone's positions, uploads the lights to the instance
        buffer and points attributes 1 to 7 at the parts of each record. */
    method AttachAttributes(lights: seq<SpotLight>, gl: Gl)
      requires gl.Valid() && Attached(gl)
      modifies gl, gl.pointers
      ensures gl.Valid()
      ensures gl.View() == old(gl.View()).(
        pointers := SpotLightPointers(old(gl.pointers[..]), vertexBuffer, instanceBuffer),
        arrayBuffer := instanceBuffer,
        store := old(gl.store)[instanceBuffer := Floats(Image(lights))])
    {
      gl.BindBuffer(ArrayBuffer, vertexBuffer);
      gl.VertexAttribPointer(0, 3, Vec3Bytes, 0);

      gl.BindBuffer(ArrayBuffer, instanceBuffer);
      ImageLength(lights);
      gl.BufferData(ArrayBuffer, |lights| * SpotLightBytes, Floats(Image(lights)));
      gl.VertexAttribPointer(1, 4, SpotLightBytes, FloatBytes * 0);
      gl.VertexAttribPointer(2, 4, SpotLightBytes, FloatBytes * 4);
      gl.VertexAttribPointer(3, 4, SpotLightBytes, FloatBytes * 8);
      gl.VertexAttribPointer(4, 4, SpotLightBytes, FloatBytes * 12);
      gl.VertexAttribPointer(5, 4, SpotLightBytes, FloatBytes * 16);
      gl.VertexAttribPointer(6, 4, SpotLightBytes, FloatBytes * 20);
      gl.VertexAttribPointer(7, 3, SpotLightBytes, FloatBytes * 24);
    }

    /** ~SpotLightRenderer: deletes the vertex, index and instance buffers, in that
        order. */
    method Release(gl: Gl)
      requires Ready() && gl.Valid()
      modifies gl, gl.pointers
      ensures gl.Valid()
      ensures gl.View() == Deleted(Deleted(Deleted(old(gl.View()), vertexBuffer), indexBuffer), instanceBuffer)
    {
      gl.DeleteBuffer(vertexBuffer);
      gl.DeleteBuffer(indexBuffer);
      gl.DeleteBuffer(instanceBuffer);
    }
  }

  lemma {:induction false} UnsignedIndicesAppend(a: seq<int>, b: seq<int>)
    ensures UnsignedIndices(a + b) == UnsignedIndices(a) + UnsignedIndices(b)
  {
    if b == [] {
      assert a + b == a;
    } else {
      UnsignedIndicesAppend(a, b[..|b| - 1]);
      assert (a + b)[..|a + b| - 1] == a + b[..|b| - 1];
    }
  }

  /** For a file whose face words all name loaded vertices, m_indices holds the parsed
      indices unchanged by the unsigned conversion, and every one of them, which the
      draw reads through the element buffer, names a vertex of the vertex buffer. */
  lemma LoadedIndicesInBounds(lines: seq<string>)
    requires WellFormed(lines, VertexLineCount(lines))
    ensures ParseLines(lines).Success?
    ensures var m := ParseLines(lines).value;
      && |UnsignedIndices(m.indices)| == |m.indices|
      && forall k :: 0 <= k < |m.indices| ==> UnsignedIndices(m.indices)[k] == m.indices[k] < |m.vertices|
  {
    IndicesInBounds(lines);
    UnsignedIndicesOfSmall(ParseLines(lines).value.indices);
  }

  /** Indices that fit an unsigned int convert to themselves. */
  lemma {:induction false} UnsignedIndicesOfSmall(s: seq<int>)
    requires forall k :: 0 <= k < |s| ==> UnsignedIndex(s[k]) == s[k]
    ensures |UnsignedIndices(s)| == |s|
    ensures forall k :: 0 <= k < |s| ==> UnsignedIndices(s)[k] == s[k]
  {
    if s != [] {
      UnsignedIndicesOfSmall(s[..|s| - 1]);
    }
  }

  /** A face line that converts yields one index per word. */
  /** On a face line the first strtok call returns the tag, and the words left after
      it are the line's operands. */
  lemma OperandsAfterTag(line: string, tag: Option<string>, pos: nat)
    requires Classify(line) == FaceLine && pos <= |CStr(line)|
    requires tag.None? <==> Tokens(CStr(line)[0..]) == []
    requires tag.Some? ==> Tokens(CStr(line)[0..]) == [tag.value] + Tokens(CStr(line)[pos..])
    ensures Tokens(CStr(line)[pos..]) == Operands(line)
  {
    var cs := CStr(line);
    assert cs[0..] == cs;
    assert cs[0] == 'f';
  }

  /** The index a converting face line gives word k is that word's own index. */
  lemma FaceIndexAt(ops: seq<string>, k: nat)
    requires FaceIndices(ops).Success? && k < |ops|
    ensures |FaceIndices(ops).value| == |ops|
    ensures FaceIndex(ops[k]).Success? && FaceIndices(ops).value[k] == FaceIndex(ops[k]).value
  {
    FaceIndicesWordByWord(ops);
  }

  lemma FaceIndexCount(ops: seq<string>)
    requires FaceIndices(ops).Success?
    ensures |FaceIndices(ops).value| == |ops|
  {
    FaceIndicesWordByWord(ops);
  }

  /** Converting one more index of `s` appends its unsigned value. */
  lemma UnsignedIndicesSnoc(base: seq<nat>, s: seq<int>, n: nat)
    requires n < |s|
    ensures base + UnsignedIndices(s[..n]) + [UnsignedIndex(s[n])] == base + UnsignedIndices(s[..n + 1])
  {
    assert s[..n + 1][..n] == s[..n];
  }

  /** Filling a range twice leaves the second value. */
  lemma FillTwice<T>(s: seq<T>, lo: nat, hi: nat, a: T, b: T)
    requires lo <= hi <= |s|
    ensures Fill(Fill(s, lo, hi, a), lo, hi, b) == Fill(s, lo, hi, b)
  {
  }
}
