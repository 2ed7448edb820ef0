# Spot-light proxy renderer, modelled in Dafny

This project models `SpotLightRenderer`, the deferred-shading demo's renderer for spot lights. It has three parts:

- **Constructor.** Reads the cone proxy mesh `../assets/cone.obj`, a small subset of the Wavefront OBJ text format. `"v "` lines give positions. `"f"` lines give 1-based vertex indices. The constructor then uploads both into OpenGL buffers.
- **`RenderLights`.** Copies the `SpotLight` records into an instance buffer. It points vertex attributes 1..7 at the parts of each 27-float record and draws one instanced cone per light. It then resets the attribute state it touched.
- **Destructor.** Deletes the three buffers.

Modules:

- `ObjText`: the C string functions the loader applies to a line. It covers the line's C string (everything before a NUL) and `strtok(..., " ")` as a method that returns one word at a time. It also defines the word sequence that method walks through.
- `DecimalInt`: `std::stoi` in base 10. That is leading white space, an optional sign, the longest run of digits, and the `invalid_argument` and `out_of_range` exceptions.
- `ProxyMesh`: the two `strncmp` tests that classify a line, and the loader's getline loop as a pure function from lines to `m_vertices`/`m_indices`, or to the error the C++ code would throw or hit. It also holds lemmas about counts, per-line effects and index bounds.
- `LightLayout`: the `SpotLight` and `PointLight` records and their memory images as float sequences. It covers member offsets laid out in declaration order, the seven attribute views of `RenderLights`, and what the vertex stage fetches for instance `j`.
- `GlState`: the part of the OpenGL context the renderer drives, as a class `Gl`. It holds:
  - attribute enable flags, divisors and pointers, as arrays of `GL_MAX_VERTEX_ATTRIBS` = 16;
  - the `GL_ARRAY_BUFFER` and `GL_ELEMENT_ARRAY_BUFFER` bindings;
  - buffer names and contents;
  - the current program;
  - a log of program switches and draws.

  Each GL entry point the renderer calls is a method whose postcondition gives the whole new state. `Material` binds and unbinds a shader program.
- `SpotLightRenderers`: the class `SpotLightRenderer`. Its fields are the three buffer handles, `m_vertices` and `m_indices`. It has the constructor (parse loop, inner `strtok` loop and buffer creation), `RenderLights` and `Release` (the destructor).

Floats are opaque throughout:

- A `Float` is a 32-bit pattern that is never computed with.
- A vertex coordinate is kept as the word `std::stof` would convert.

## Model

| member | source | states |
|---|---|---|
| ObjText.CStr | DeferredSpot3D/spotLightRenderer.cpp:53 | `&line[0]` seen as a C string: the prefix of the line before its first NUL, with no NUL inside |
| ObjText.Tokens | DeferredSpot3D/spotLightRenderer.cpp:57-61 | definition: the words successive `strtok(..., " ")` calls return for a C string, in order; only the space delimits and runs of spaces give no empty word (its properties are the lemmas below) |
| ObjText.SkipSpaces | DeferredSpot3D/spotLightRenderer.cpp:71-74 | the first step of a `strtok` call: it stops at the end or at a non-space, and skipping the spaces leaves the remaining words unchanged |
| ObjText.WordEnd | DeferredSpot3D/spotLightRenderer.cpp:71-74 | the second step of a `strtok` call: from a non-space it stops at the end or at the next space, past a non-empty run with no space |
| ObjText.StrTok | DeferredSpot3D/spotLightRenderer.cpp:71-74 | one `strtok(NULL, " ")` call returns NULL exactly when no word is left; otherwise it returns the next word and leaves the remaining words to later calls |
| ObjText.NextWord | DeferredSpot3D/spotLightRenderer.cpp:74 | a `strtok(NULL, " ")` call inside the face loop returns the k-th operand word, or NULL exactly when all words have been taken, and the rest of the line holds the words after it |
| ObjText.TokensAreWords | DeferredSpot3D/spotLightRenderer.cpp:74 | every word `strtok` returns is non-empty and contains no space |
| ObjText.TokensKeepText | DeferredSpot3D/spotLightRenderer.cpp:57-61 | tokenising loses only spaces: the words, concatenated, are the line's non-space characters in order |
| ObjText.TokensOfJoinWords | DeferredSpot3D/spotLightRenderer.cpp:71-74 | round trip: words joined with single spaces tokenise back to the same words |
| DecimalInt.StoiOfNumeral | DeferredSpot3D/spotLightRenderer.cpp:78 | `std::stoi` on an optional `-`, a digit run and a non-digit rest gives the digits' value, or `out_of_range` outside the 32-bit int range |
| DecimalInt.StoiOfDecimalText | DeferredSpot3D/spotLightRenderer.cpp:78 | `std::stoi` of a printed integer followed by a non-digit is that integer when it fits in an int, and `out_of_range` otherwise |
| DecimalInt.StoiNeedsDigit | DeferredSpot3D/spotLightRenderer.cpp:78 | with no digit after the white space and the sign, `std::stoi` throws `invalid_argument` |
| DecimalInt.Stoi | DeferredSpot3D/spotLightRenderer.cpp:78 | `std::stoi` in base 10: leading white space, an optional sign and the longest digit run; `invalid_argument` with no digit, `out_of_range` outside int. A value it returns always lies in [INT_MIN, INT_MAX] |
| ProxyMesh.FaceIndicesWordByWord | DeferredSpot3D/spotLightRenderer.cpp:74-80 | a face line converts in full iff every word converts; then it yields one index per word, and the k-th index is `stoi(word k) - 1` |
| ProxyMesh.Classify | DeferredSpot3D/spotLightRenderer.cpp:53-65 | definition: the two `strncmp` tests in the order the loop makes them; a `"v "` prefix wins over an `"f"` prefix, and anything else is another line |
| ProxyMesh.Operands | DeferredSpot3D/spotLightRenderer.cpp:57-74 | definition: the words after the first `strtok` word, which is the line's tag |
| ProxyMesh.FaceIndex | DeferredSpot3D/spotLightRenderer.cpp:78 | definition: `std::stoi(token) - 1` in int, or the `stoi` exception, or the overflow of INT_MIN - 1 |
| ProxyMesh.FaceIndices | DeferredSpot3D/spotLightRenderer.cpp:74-80 | definition: the indices of a face line's words in order; the first bad word stops the run (properties in `FaceIndicesWordByWord`) |
| ProxyMesh.ParseLine | DeferredSpot3D/spotLightRenderer.cpp:53-87 | definition: one iteration of the getline loop on the mesh so far, with the error the line raises (properties in the per-line lemmas below) |
| ProxyMesh.ParseLines | DeferredSpot3D/spotLightRenderer.cpp:46-88 | definition: the whole getline loop from empty sequences; the first failing line stops it (properties in `ParsePrefix`, `ParseCounts`, `IndicesBelow`) |
| ProxyMesh.UnsignedIndex | DeferredSpot3D/spotLightRenderer.cpp:79 | the int that `push_back` converts to `unsigned int`: the one value below 2^32 congruent to it modulo 2^32 |
| ProxyMesh.ParsePrefix | DeferredSpot3D/spotLightRenderer.cpp:46-88 | if the whole file loads without throwing, so does every prefix of it |
| ProxyMesh.ParseCounts | DeferredSpot3D/spotLightRenderer.cpp:46-88 | the vertex count equals the number of `"v "` lines; the index count equals the number of words after the tags of the `"f"` lines |
| ProxyMesh.VertexLineAppendsOneVertex | DeferredSpot3D/spotLightRenderer.cpp:53-62 | a line written as the tag `v` and words separated by single spaces appends exactly one vertex made of the three words after the tag; further words are ignored and the indices are untouched. Other spacing is covered by the ensures of `ReadVertexLine` |
| ProxyMesh.FaceLineAppendsIndices | DeferredSpot3D/spotLightRenderer.cpp:65-81 | a line written as an `f...` tag and words separated by single spaces appends, in word order, each word's number less one, and leaves the vertices untouched. Other spacing is covered by the ensures of `ReadFaceLine` |
| ProxyMesh.OtherLinesIgnored | DeferredSpot3D/spotLightRenderer.cpp:84-87 | empty lines, comments, `vn`/`vt`, `o`/`g`/`s`/`usemtl` lines change neither sequence |
| ProxyMesh.LineOfWords | DeferredSpot3D/spotLightRenderer.cpp:53-71 | a line written as a tag and words is its own C string, starts with the tag, and its words after the tag are the given ones |
| ProxyMesh.IndicesBelow | DeferredSpot3D/spotLightRenderer.cpp:46-88 | when every face word names a vertex in 1..n and every `v` line has three coordinates, loading succeeds and every index lies in [0, n) |
| ProxyMesh.IndicesInBounds | DeferredSpot3D/spotLightRenderer.cpp:46-88 | the bound the code never checks, under that precondition with n = the number of `v` lines: every index names a loaded vertex and survives the unsigned conversion unchanged |
| ProxyMesh.SmallNumerals | DeferredSpot3D/spotLightRenderer.cpp:78 | `stoi` reads "1", "2", "3" as 1, 2, 3 |
| ProxyMesh.TriangleExample | DeferredSpot3D/spotLightRenderer.cpp:46-88 | three vertex lines and a face line `f a b c` with a, b, c read as 1, 2, 3 load as three vertices and the indices [0, 1, 2] |
| LightLayout.LayoutShape | header/spotLightRenderer.h:41-47 | members laid out in declaration order: one span per member, each of the member's size, each starting where the previous one ends |
| LightLayout.LayoutTiles | header/spotLightRenderer.h:41-47 | such a layout covers exactly [start, start + total size) and no two members overlap |
| LightLayout.SpotLightFieldLayout | header/spotLightRenderer.h:41-47 | the SpotLight members sit at float offsets 0, 16, 20, 24, 25, 26 and fill 27 floats |
| LightLayout.SpotLightFieldsTile | header/spotLightRenderer.h:41-47 | the six members are pairwise disjoint and together cover exactly the 27 floats of a record |
| LightLayout.SpotLightFieldsInImage | header/spotLightRenderer.h:41-47 | in a record's memory image, each member's floats are at exactly that member's offset |
| LightLayout.SpotLightFloats | header/spotLightRenderer.h:41-47 | definition: a record's memory image, its members' floats in declaration order (properties in `SpotLightFieldsInImage`, `SpotLightSize`, `SpotLightImageRoundTrip`) |
| LightLayout.SpotLightSize | header/spotLightRenderer.h:41-47 | a record is 27 floats, which is sizeof(SpotLight) = 108 bytes with no padding |
| LightLayout.SpotLightViewLayout | DeferredSpot3D/spotLightRenderer.cpp:131-139 | the views of attributes 1..7 (offsets 0, 4, …, 24; sizes 4, 4, 4, 4, 4, 4, 3) are the consecutive layout of those sizes, which sum to 27 |
| LightLayout.SpotLightViewsTile | DeferredSpot3D/spotLightRenderer.cpp:131-139 | the seven views are pairwise disjoint and together cover exactly the 27 floats of a record |
| LightLayout.SpotLightViewsRespectFields | DeferredSpot3D/spotLightRenderer.cpp:131-139 | no attribute view straddles a member boundary: each view and each member are nested or disjoint |
| LightLayout.SpotLightViewsReadFields | DeferredSpot3D/spotLightRenderer.cpp:131-139 | attributes 1..4 read the matrix columns, 5 the attenuation, 6 the color, 7 range, angle and exponent |
| LightLayout.PointLightFieldOffsets | header/pointLightRenderer.h:39-53 | the same layout rule places PointLight's position, radius, attenuation and color at floats 0, 3, 4, 8 of a 12-float record |
| LightLayout.SpotLightImageRoundTrip | DeferredSpot3D/spotLightRenderer.cpp:128 | a record read back from its memory image is the record; 27 floats read as a record and written again are the same floats |
| LightLayout.ImageLength | DeferredSpot3D/spotLightRenderer.cpp:128 | the instance buffer holds 27 floats per light |
| LightLayout.ImageAt | DeferredSpot3D/spotLightRenderer.cpp:128 | float 27·j + o of the instance buffer is float o of lights[j] |
| LightLayout.Image | DeferredSpot3D/spotLightRenderer.cpp:128 | definition: the bytes `lights.data()` points at, the records' images one after another (properties in `ImageLength`, `ImageAt`, `RecordsOfImage`) |
| LightLayout.FetchInstance | DeferredSpot3D/spotLightRenderer.cpp:131-145 | what a float attribute with a byte stride and offset fetches for instance j: exactly `size` floats, or nothing when the address is misaligned or past the end |
| LightLayout.RecordsOfImage | DeferredSpot3D/spotLightRenderer.cpp:128 | reading the instance buffer back as records gives the lights, in order |
| LightLayout.InstanceAttribute | DeferredSpot3D/spotLightRenderer.cpp:131-145 | with stride sizeof(SpotLight), instance j fetches through attribute k + 1 exactly that attribute's part of lights[j] |
| GlState.ByteSize | DeferredSpot3D/spotLightRenderer.cpp:101-128 | definition: the byte count of a buffer's contents, 12 per position, 4 per unsigned int and 4 per float. `Gl.BufferData` requires its size argument to equal it |
| GlState.Gl.GenBuffer | DeferredSpot3D/spotLightRenderer.cpp:96 | returns a nonzero name not in use and marks it in use; nothing else changes |
| GlState.Gl.constructor | source/main.cpp:85-86 | GL's initial state of the context the window creates and makes current: no buffers, nothing bound, every attribute disabled with divisor 0 and the default pointer, program 0, empty log |
| GlState.Gl.BindBuffer | DeferredSpot3D/spotLightRenderer.cpp:100 | the name must be 0 or an existing buffer; only the binding of the given target changes |
| GlState.Gl.BufferData | DeferredSpot3D/spotLightRenderer.cpp:101 | requires the size argument to be the byte count of the data. The buffer bound to the target gets the new contents; with 0 bound, nothing changes. The three calls (lines 101, 107, 128) pass `m_vertices.size() * sizeof(glm::vec3)`, `m_indices.size() * sizeof(unsigned int)` and `lights.size() * sizeof(SpotLight)`, and the model proves each equals its data's byte count |
| GlState.Gl.VertexAttribPointer | DeferredSpot3D/spotLightRenderer.cpp:124 | only that attribute's pointer changes, and it captures the buffer bound to GL_ARRAY_BUFFER now |
| GlState.Gl.VertexAttribDivisor | DeferredSpot3D/spotLightRenderer.cpp:144 | only that attribute's divisor changes |
| GlState.Gl.EnableVertexAttribArray | DeferredSpot3D/spotLightRenderer.cpp:153 | only that attribute's flag changes, to enabled |
| GlState.Gl.DisableVertexAttribArray | DeferredSpot3D/spotLightRenderer.cpp:170 | only that attribute's flag changes, to disabled |
| GlState.Gl.DrawElementsInstanced | DeferredSpot3D/spotLightRenderer.cpp:161 | appends one draw to the log with the count, the instance count and the state the draw reads; nothing else changes |
| GlState.Gl.DeleteBuffer | DeferredSpot3D/spotLightRenderer.cpp:114 | the name is freed and its contents go. Every binding that held it reverts to 0: GL_ARRAY_BUFFER, GL_ELEMENT_ARRAY_BUFFER and the buffer of each attribute pointer of the default vertex array. Name 0 is ignored |
| GlState.Deleted | DeferredSpot3D/spotLightRenderer.cpp:114-116 | definition: the state after deleting one name, as `Gl.DeleteBuffer` ensures it: the name, its contents and every binding to it, attribute pointers included, are gone (properties in `ReleaseFreesHandles`) |
| GlState.Gl.UseProgram | DeferredSpot3D/spotLightRenderer.cpp:159-163 | the program a material's Bind or Unbind selects becomes current, and the switch is logged; nothing else changes |
| GlState.Material.Bind | DeferredSpot3D/spotLightRenderer.cpp:159 | the material's program becomes current, and that switch is logged |
| GlState.Material.Unbind | DeferredSpot3D/spotLightRenderer.cpp:163 | program 0 becomes current, and that switch is logged |
| SpotLightRenderers.SpotLightPointers | DeferredSpot3D/spotLightRenderer.cpp:124-139 | attribute 0 reads vec3 positions from the vertex buffer, 1..7 read the record views from the instance buffer, and attributes 8 and up are untouched |
| SpotLightRenderers.PositionPointer | DeferredSpot3D/spotLightRenderer.cpp:123-124 | definition: attribute 0's pointer, three floats with stride sizeof(glm::vec3) at offset 0 of the vertex buffer |
| SpotLightRenderers.InstancePointer | DeferredSpot3D/spotLightRenderer.cpp:131-139 | definition: attribute k + 1's pointer into the instance buffer, with stride sizeof(SpotLight) and that view's size and offset |
| SpotLightRenderers.SpotLightDraw | DeferredSpot3D/spotLightRenderer.cpp:127-161 | definition: the state the instanced draw reads (properties in `SpotLightDrawReadsLights`) |
| SpotLightRenderers.UnsignedIndices | DeferredSpot3D/spotLightRenderer.cpp:79 | definition: `m_indices` as it holds them, each parsed index converted to unsigned int (properties in `LoadedIndicesInBounds`) |
| SpotLightRenderers.SpotLightDrawReadsLights | DeferredSpot3D/spotLightRenderer.cpp:127-161 | the draw covers every index once per light. The instance buffer holds `|lights|·108` bytes. Attributes 1..7 are enabled with divisor 1, and for each instance j they read exactly lights[j]'s parts. Attribute 0 reads the untouched vertex buffer |
| SpotLightRenderers.InstanceFetchReadsLight | DeferredSpot3D/spotLightRenderer.cpp:131-145 | through pointer k into a buffer holding the lights, instance j reads attribute k's part of lights[j] |
| SpotLightRenderers.LoadedIndicesInBounds | DeferredSpot3D/spotLightRenderer.cpp:65-80 | for a file whose face words name loaded vertices, `m_indices` holds the parsed indices unchanged, and each one names a vertex |
| SpotLightRenderers.ReleaseFreesHandles | DeferredSpot3D/spotLightRenderer.cpp:112-117 | deleting three distinct nonzero names frees exactly those three, drops their contents, resets to 0 every binding that held them (both buffer targets and the attribute pointers), and changes nothing else |
| SpotLightRenderers.ReleaseDetachesAttributes | DeferredSpot3D/spotLightRenderer.cpp:112-139 | after `RenderLights` has pointed attributes 0..7 at the vertex and instance buffers, the destructor's three deletions leave all eight pointers on buffer 0 |
| SpotLightRenderers.FilledBuffer | DeferredSpot3D/spotLightRenderer.cpp:99-102 | generate, bind to GL_ARRAY_BUFFER, fill, unbind: a new name holding the data, GL_ARRAY_BUFFER left at 0 |
| SpotLightRenderers.SetDivisors | DeferredSpot3D/spotLightRenderer.cpp:142-145 | the loop sets the divisors of attributes 1..7, and only those, to the given value |
| SpotLightRenderers.EnableAttributes | DeferredSpot3D/spotLightRenderer.cpp:151-154 | the loop enables attributes 0..7, and only those |
| SpotLightRenderers.DisableAttributes | DeferredSpot3D/spotLightRenderer.cpp:168-171 | the loop disables attributes 0..7, and only those |
| SpotLightRenderers.SpotLightRenderer.constructor | DeferredSpot3D/spotLightRenderer.cpp:27-110 | without a readable file: both sequences are empty and the GL state is untouched. Otherwise: `m_vertices`/`m_indices` are what `ParseLines` gives the file. Three new distinct names exist; the vertex and index buffers hold the two sequences, the instance buffer has no contents yet, and GL_ARRAY_BUFFER is 0 |
| SpotLightRenderers.SpotLightRenderer.ReadLines | DeferredSpot3D/spotLightRenderer.cpp:46-88 | the getline loop leaves `m_vertices` and `m_indices` (converted to unsigned) equal to the parse of all lines |
| SpotLightRenderers.SpotLightRenderer.ReadLine | DeferredSpot3D/spotLightRenderer.cpp:53-87 | one iteration of the loop does what `ParseLine` says for that line |
| SpotLightRenderers.SpotLightRenderer.ReadVertexLine | DeferredSpot3D/spotLightRenderer.cpp:53-62 | four `strtok` calls; the vertex made of words 1..3 after the tag is appended, and only `m_vertices` changes |
| SpotLightRenderers.SpotLightRenderer.ReadFaceLine | DeferredSpot3D/spotLightRenderer.cpp:65-81 | the `strtok` loop appends, as unsigned ints, the indices `FaceIndices` gives for the line's words; only `m_indices` changes |
| SpotLightRenderers.SpotLightRenderer.ReadFaceWords | DeferredSpot3D/spotLightRenderer.cpp:74-80 | the `while (token != NULL)` loop takes the words after the tag one `strtok` call at a time and appends their indices, as unsigned ints, in word order |
| SpotLightRenderers.SpotLightRenderer.PushFaceIndex | DeferredSpot3D/spotLightRenderer.cpp:78-79 | `int i = stoi(token) - 1; m_indices.push_back(i)` appends the word's index converted to unsigned int |
| SpotLightRenderers.SpotLightRenderer.CreateBuffers | DeferredSpot3D/spotLightRenderer.cpp:96-108 | instance, vertex and index buffers are generated. They are new, distinct and nonzero. Vertex and index buffers hold `m_vertices` and `m_indices`; the instance buffer is only reserved and has no contents. GL_ARRAY_BUFFER is back to 0 |
| SpotLightRenderers.SpotLightRenderer.AttachAttributes | DeferredSpot3D/spotLightRenderer.cpp:123-139 | the instance buffer is replaced by the lights' images, and attributes 0..7 point at their data |
| SpotLightRenderers.SpotLightRenderer.PrepareDraw | DeferredSpot3D/spotLightRenderer.cpp:123-155 | the steps before the draw call: the instance buffer holds the lights' images, attributes 0..7 are enabled and point at their data, divisors 1..7 are 1, no array buffer is bound and the index buffer is the element buffer |
| SpotLightRenderers.SpotLightRenderer.RenderLights | DeferredSpot3D/spotLightRenderer.cpp:119-179 | see the paragraph below the table |
| SpotLightRenderers.SpotLightRenderer.Release | DeferredSpot3D/spotLightRenderer.cpp:112-117 | the vertex, index and instance buffers are deleted, in that order |

`RenderLights` states the following:

- **Log.** Exactly three events are logged: switch to the material's program, one draw, switch to program 0.
- **The draw.** `|m_indices|` indices and `|lights|` instances, from the state `SpotLightDraw` describes.
- **Instance buffer.** Its whole contents are replaced by the lights.
- **Attribute state afterwards.** Attributes 0..7 are disabled, and divisors 1..7 are 0. Attribute 0's divisor is untouched, and so is every attribute from 8 up. Attribute 0..7 pointers are those of `SpotLightPointers`.
- **Bindings afterwards.** Both buffer bindings are 0.
- **Renderer fields.** None of them change.

## Left out

- `std::stof` (lines 59-61): coordinates stay as the words it would convert. A word it cannot read would throw; the model does not detect that.
- Console output:
  - the "Can't read file" message (line 38);
  - the echo of other lines (line 86).
- File access: the constructor receives the file's lines, or None when `file.good()` fails. Reading, `getline`'s line splitting and `file.close()` are I/O.
- Paths where the C++ code throws or has undefined behaviour are excluded by preconditions:
  - The constructor requires a file that loads and gives non-empty vertices and indices. Otherwise the code does one of three things: `std::stoi` throws; NULL reaches `std::stof` on a `v` line with fewer than three words; or `&m_vertices[0]`/`&m_indices[0]` is taken on an empty vector. `ParseLines` still models those failures as errors.
  - `RenderLights` and `Release` require the constructor to have created the buffers. After the early return the handles are uninitialised. `RenderLights` also requires the three buffers to still exist in the context. Binding a deleted or never generated name is a GL error, and the model's `Gl.BindBuffer` excludes it.
- `stoi(t) - 1` for t = INT_MIN overflows int. `ParseLines` reports it as an error instead of wrapping.
- OpenGL driver behaviour is not modelled: memory, rasterisation, blending, GL errors, shaders, and usage hints such as `GL_STATIC_DRAW`.
- The model assumes `GL_MAX_VERTEX_ATTRIBS` is 16, the minimum every implementation offers.
- `Material`'s own code is not part of this model. Binding is modelled as making its program current and unbinding as returning to program 0. Its textures and uniforms are left out.
- `RenderLights` takes `lights` by value (header/spotLightRenderer.h:68). In the model, a sequence argument is a value the method cannot change.

Where the code departs from usual OBJ conventions, the model follows the code:

- Face words are read with `std::stoi`, which stops at the first non-digit. A word such as `7/2/5` is therefore accepted as index 6, not rejected as a combined vertex/uv/normal group.
- Only the space character delimits words, since `strtok` is called with `" "`. A tab does not.
- A `v` line may carry more than three words; the extra ones are ignored.
- After `RenderLights`, attributes 0..7 are disabled and divisors 1..7 are 0, whatever they were before the call. The earlier state is not brought back.
