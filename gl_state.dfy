/** The part of the OpenGL context that the spot-light renderer drives: buffer names
    and their contents, the two buffer bindings, the generic vertex-attribute state
    (enable flag, instance divisor and pointer of each attribute), the current
    program, and a log of the program switches and draw calls. Driver behaviour
    (memory, rasterisation, GL errors) is not modelled. */
module GlState {
  import opened Wrappers
  import opened LightLayout
  import opened ProxyMesh

  /** GL_MAX_VERTEX_ATTRIBS: every implementation offers at least 16. */
  const MaxVertexAttribs: nat := 16

  /** sizeof(glm::vec3) and sizeof(unsigned int), in bytes. */
  const Vec3Bytes: nat := 12
  const UintBytes: nat := 4

  datatype Target = ArrayBuffer | ElementArrayBuffer

  /** What glBufferData stored in a buffer object, by element type. */
  datatype BufferData =
    | Positions(vertices: seq<Vertex>)
    | UnsignedInts(values: seq<nat>)
    | Floats(floats: seq<Float>)

  /** One glVertexAttribPointer setting for GL_FLOAT components, not normalised. */
  datatype AttribPointer = AttribPointer(buffer: nat, size: nat, strideBytes: nat, offsetBytes: nat)

  /** The pointer state of an attribute nobody has set. */
  const DefaultPointer: AttribPointer := AttribPointer(0, 4, 0, 0)

  /** The state a glDrawElementsInstanced call sees. */
  datatype DrawCall = DrawCall(
    count: nat, instances: nat, elementBuffer: nat, program: nat,
    enabled: seq<bool>, divisor: seq<nat>, pointers: seq<AttribPointer>,
    buffers: map<nat, BufferData>)

  datatype Event = ProgramSwitch(program: nat) | Draw(call: DrawCall)

  /** What attribute k of a draw reads for instance j when it advances once per
      instance: `size` floats at byte offset offsetBytes + j * strideBytes of its buffer,
      or None when that buffer does not exist, does not hold floats, or is too short. */
  function InstanceFetch(call: DrawCall, k: nat, j: nat): Option<seq<Float>>
    requires k < |call.pointers|
  {
    var p := call.pointers[k];
    if p.buffer !in call.buffers || !call.buffers[p.buffer].Floats? then None
    else FetchInstance(call.buffers[p.buffer].floats, p.size, p.strideBytes, p.offsetBytes, j)
  }

  /** The whole context state as a value. */
  datatype GlView = GlView(
    enabled: seq<bool>, divisor: seq<nat>, pointers: seq<AttribPointer>,
    arrayBuffer: nat, elementBuffer: nat,
    store: map<nat, BufferData>, nextName: nat, live: set<nat>,
    program: nat, log: seq<Event>)

  /** The number of bytes these contents occupy: what a glBufferData call that
      copies all of them must give as its size. */
  function ByteSize(d: BufferData): nat
  {
    match d
    case Positions(vs) => |vs| * Vec3Bytes
    case UnsignedInts(us) => |us| * UintBytes
    case Floats(fs) => |fs| * FloatBytes
  }

  /** `s` with positions lo..hi-1 set to v. */
  function Fill<T>(s: seq<T>, lo: nat, hi: nat, v: T): (r: seq<T>)
    requires lo <= hi <= |s|
    ensures |r| == |s|
    ensures forall i :: 0 <= i < |s| ==> r[i] == if lo <= i < hi then v else s[i]
  {
    s[..lo] + seq(hi - lo, _ => v) + s[hi..]
  }

  lemma FillStep<T>(s: seq<T>, lo: nat, hi: nat, v: T)
    requires lo <= hi < |s|
    ensures Fill(s, lo, hi + 1, v) == Fill(s, lo, hi, v)[hi := v]
  {
  }

  /** An attribute pointer once buffer `name` is deleted: one that read from it is
      detached and reads from buffer 0. */
  function Detach(p: AttribPointer, name: nat): AttribPointer
  {
    if p.buffer == name then p.(buffer := 0) else p
  }

  /** glDeleteBuffers on one name: the name 0 is ignored; otherwise the buffer and its
      contents go away, and every binding of the context that held it reverts to 0:
      GL_ARRAY_BUFFER, GL_ELEMENT_ARRAY_BUFFER and the buffer of each attribute
      pointer of the default vertex array. */
  function Deleted(v: GlView, name: nat): (r: GlView)
  {
    if name == 0 then v
    else v.(live := v.live - {name}, store := v.store - {name},
            arrayBuffer := if v.arrayBuffer == name then 0 else v.arrayBuffer,
            elementBuffer := if v.elementBuffer == name then 0 else v.elementBuffer,
            pointers := seq(|v.pointers|, k requires 0 <= k < |v.pointers| => Detach(v.pointers[k], name)))
  }

  class Gl {
    const enabled: array<bool>
    const divisor: array<nat>
    const pointers: array<AttribPointer>
    var arrayBuffer: nat
    var elementBuffer: nat
    var store: map<nat, BufferData>
    var nextName: nat
    var live: set<nat>
    var program: nat
    var log: seq<Event>

    ghost predicate Valid()
      reads this
    {
      && enabled.Length == MaxVertexAttribs
      && divisor.Length == MaxVertexAttribs
      && pointers.Length == MaxVertexAttribs
      && 0 < nextName
      && (forall n :: n in live ==> 0 < n < nextName)
      && store.Keys <= live
      && (arrayBuffer == 0 || arrayBuffer in live)
      && (elementBuffer == 0 || elementBuffer in live)
    }

    ghost function View(): GlView
      reads this, enabled, divisor, pointers
    {
      GlView(enabled[..], divisor[..], pointers[..], arrayBuffer, elementBuffer,
             store, nextName, live, program, log)
    }

    /** A new context: no buffers, nothing bound, every attribute disabled with
        divisor 0, program 0. */
    constructor ()
      ensures Valid()
      ensures View() == GlView(seq(MaxVertexAttribs, _ => false), seq(MaxVertexAttribs, _ => 0),
                               seq(MaxVertexAttribs, _ => DefaultPointer), 0, 0, map[], 1, {}, 0, [])
    {
      enabled := new bool[MaxVertexAttribs](_ => false);
      divisor := new nat[MaxVertexAttribs](_ => 0);
      pointers := new AttribPointer[MaxVertexAttribs](_ => DefaultPointer);
      arrayBuffer, elementBuffer := 0, 0;
      store, nextName, live := map[], 1, {};
      program, log := 0, [];
    }

    /** glGenBuffers(1, &name): a nonzero name not in use. */
    method GenBuffer() returns (name: nat)
      requires Valid()
      modifies this
      ensures Valid()
      ensures name != 0 && name !in old(live)
      ensures View() == old(View()).(live := old(live) + {name}, nextName := name + 1)
    {
      name := nextName;
      nextName := nextName + 1;
      live := live + {name};
    }

    /** glBindBuffer: `name` must be 0 or a buffer that exists. */
    method BindBuffer(target: Target, name: nat)
      requires Valid()
      requires name == 0 || name in live
      modifies this
      ensures Valid()
      ensures target == ArrayBuffer ==> View() == old(View()).(arrayBuffer := name)
      ensures target == ElementArrayBuffer ==> View() == old(View()).(elementBuffer := name)
    {
      if target == ArrayBuffer {
        arrayBuffer := name;
      } else {
        elementBuffer := name;
      }
    }

    /** glBufferData(target, size, data, usage): replaces the whole contents of the
        buffer bound to `target` with the `size` bytes at `data`, which the caller
        must make exactly the bytes of `data`; with no buffer bound the call is an
        error and changes nothing. */
    method BufferData(target: Target, size: nat, data: BufferData)
      requires Valid()
      requires size == ByteSize(data)
      modifies this
      ensures Valid()
      ensures var b := if target == ArrayBuffer then old(arrayBuffer) else old(elementBuffer);
        View() == if b == 0 then old(View()) else old(View()).(store := old(store)[b := data])
    {
      var b := if target == ArrayBuffer then arrayBuffer else elementBuffer;
      if b != 0 {
        store := store[b := data];
      }
    }

    /** glVertexAttribPointer: attribute `index` reads from the buffer bound to
        GL_ARRAY_BUFFER now, whatever is bound later. */
    method VertexAttribPointer(index: nat, size: nat, strideBytes: nat, offsetBytes: nat)
      requires Valid() && index < MaxVertexAttribs
      modifies pointers
      ensures Valid()
      ensures View() == old(View()).(pointers := old(pointers[..])[index := AttribPointer(arrayBuffer, size, strideBytes, offsetBytes)])
    {
      pointers[index] := AttribPointer(arrayBuffer, size, strideBytes, offsetBytes);
    }

    /** glVertexAttribDivisor: 0 advances the attribute per vertex, d > 0 once every
        d instances. */
    method VertexAttribDivisor(index: nat, d: nat)
      requires Valid() && index < MaxVertexAttribs
      modifies divisor
      ensures Valid()
      ensures View() == old(View()).(divisor := old(divisor[..])[index := d])
    {
      divisor[index] := d;
    }

    method EnableVertexAttribArray(index: nat)
      requires Valid() && index < MaxVertexAttribs
      modifies enabled
      ensures Valid()
      ensures View() == old(View()).(enabled := old(enabled[..])[index := true])
    {
      enabled[index] := true;
    }

    method DisableVertexAttribArray(index: nat)
      requires Valid() && index < MaxVertexAttribs
      modifies enabled
      ensures Valid()
      ensures View() == old(View()).(enabled := old(enabled[..])[index := false])
    {
      enabled[index] := false;
    }

    method UseProgram(p: nat)
      requires Valid()
      modifies this
      ensures Valid()
      ensures View() == old(View()).(program := p, log := old(log) + [ProgramSwitch(p)])
    {
      program := p;
      log := log + [ProgramSwitch(p)];
    }

    /** glDrawElementsInstanced(GL_TRIANGLES, count, GL_UNSIGNED_INT, 0, instances):
        logged with the state it reads. */
    method DrawElementsInstanced(count: nat, instances: nat)
      requires Valid()
      modifies this
      ensures Valid()
      ensures View() == old(View()).(log := old(log) + [Draw(DrawCall(count, instances, elementBuffer, program,
                                                                       enabled[..], divisor[..], pointers[..], store))])
    {
      log := log + [Draw(DrawCall(count, instances, elementBuffer, program, enabled[..], divisor[..], pointers[..], store))];
    }

    /** glDeleteBuffers(1, &name). */
    method DeleteBuffer(name: nat)
      requires Valid()
      modifies this, pointers
      ensures Valid()
      ensures View() == Deleted(old(View()), name)
    {
      if name != 0 {
        live := live - {name};
        store := store - {name};
        if arrayBuffer == name {
          arrayBuffer := 0;
        }
        if elementBuffer == name {
          elementBuffer := 0;
        }
        for k := 0 to pointers.Length
          modifies pointers
          invariant forall i :: 0 <= i < k ==> pointers[i] == Detach(old(pointers[i]), name)
          invariant forall i :: k <= i < pointers.Length ==> pointers[i] == old(pointers[i])
        {
          pointers[k] := Detach(pointers[k], name);
        }
      }
    }
  }

  /** A material as the renderer uses it: binding it makes its shader program current,
      unbinding it returns to program 0. */
  class Material {
    const program: nat

    constructor (program: nat)
      ensures this.program == program
    {
      this.program := program;
    }

    method Bind(gl: Gl)
      requires gl.Valid()
      modifies gl
      ensures gl.Valid()
      ensures gl.View() == old(gl.View()).(program := program, log := old(gl.log) + [ProgramSwitch(program)])
    {
      gl.UseProgram(program);
    }

    method Unbind(gl: Gl)
      requires gl.Valid()
      modifies gl
      ensures gl.Valid()
      ensures gl.View() == old(gl.View()).(program := 0, log := old(gl.log) + [ProgramSwitch(0)])
    {
      gl.UseProgram(0);
    }
  }
}
