/** The WebGL2 renderer: builds a shader program when it is constructed,
    draws the cube once per frame and releases GPU objects on `destroy`.
    The WebGL2 context is modelled by the log of calls it received, and
    the GPU objects by the numbers the context hands out for them. */
module WebGL {
  import opened Base
  import opened Dom
  import opened Mesh

  datatype ShaderKind = VertexShader | FragmentShader

  datatype BufferTarget = ArrayBuffer | ElementArrayBuffer

  /** A 4x4 matrix as uploaded. The projection is kept as the arguments
      `createPerspectiveMatrix` receives: its numbers need `tan`. */
  datatype Matrix =
    | Entries(m: seq<real>)
    | Perspective(fovDegrees: real, width: real, height: real, near: real, far: real)

  /** The shader's uniforms and vertex attributes, named as in its GLSL. */
  datatype Uniform =
    | u_projectionMatrix | u_modelViewMatrix | u_normalMatrix | u_time | u_lightPosition
    | u_lightColor | u_ambientColor | u_serverColor | u_activity | u_roomType

  datatype Attribute = a_position | a_normal | a_texCoord

  datatype UniformValue = Float(x: real) | Int(i: int) | Floats3(v: seq<real>) | Mat4(matrix: Matrix)

  /** One call on the WebGL2 context. Shader sources are not modelled, so
      `shaderSource` followed by `compileShader` is the one call
      `CompileShader`; attribute and uniform locations are named by the
      GLSL variable they locate. */
  datatype GLCall =
    | Viewport(width: real, height: real)
    | CreateShader(kind: ShaderKind, shader: nat)
    | CompileShader(shader: nat)
    | DeleteShader(shader: nat)
    | CreateProgram(program: nat)
    | AttachShader(program: nat, shader: nat)
    | LinkProgram(program: nat)
    | UseProgram(program: nat)
    | GetUniformLocation(program: nat, uniform: Uniform)
    | CreateBuffer(buffer: nat)
    | BindBuffer(target: BufferTarget, buffer: nat)
    | BufferFloats(target: BufferTarget, floats: seq<real>)
    | BufferIndices(indices: seq<int>)
    | EnableVertexAttribArray(attribute: Attribute)
    | VertexAttribPointer(attribute: Attribute, size: nat)
    | SetUniform(uniform: Uniform, value: UniformValue)
    | EnableDepthTest
    | ClearColor(r: real, g: real, b: real, a: real)
    | ClearColorAndDepth
    | DrawTriangles(count: nat)
    | DeleteBuffer(buffer: nat)
    | DeleteProgram(program: nat)

  // ---------------------------------------------------------------------
  // GPU objects: created, deleted, live

  function CreatedBy(c: GLCall): set<nat> {
    match c
    case CreateShader(_, s) => {s}
    case CreateProgram(p) => {p}
    case CreateBuffer(b) => {b}
    case _ => {}
  }

  function DeletedBy(c: GLCall): set<nat> {
    match c
    case DeleteShader(s) => {s}
    case DeleteProgram(p) => {p}
    case DeleteBuffer(b) => {b}
    case _ => {}
  }

  /** The objects a log created, and those it deleted. */
  function Created(log: seq<GLCall>): set<nat> {
    if log == [] then {} else CreatedBy(log[0]) + Created(log[1..])
  }

  function Deleted(log: seq<GLCall>): set<nat> {
    if log == [] then {} else DeletedBy(log[0]) + Deleted(log[1..])
  }

  /** The objects a log created and has not deleted: what the GPU still holds. */
  function Live(log: seq<GLCall>): set<nat> {
    Created(log) - Deleted(log)
  }

  lemma {:induction false} CreatedAppend(a: seq<GLCall>, b: seq<GLCall>)
    ensures Created(a + b) == Created(a) + Created(b)
    ensures Deleted(a + b) == Deleted(a) + Deleted(b)
    decreases |a|
  {
    if a == [] {
      assert a + b == b;
    } else {
      assert (a + b)[1..] == a[1..] + b;
      CreatedAppend(a[1..], b);
    }
  }

  /** The value last uploaded to a uniform, if any. */
  function LastSet(log: seq<GLCall>, uniform: Uniform): Option<UniformValue> {
    if log == [] then None
    else
      var c := log[|log| - 1];
      if c.SetUniform? && c.uniform == uniform then Some(c.value)
      else LastSet(log[..|log| - 1], uniform)
  }

  lemma {:induction false} LastSetAppend(a: seq<GLCall>, b: seq<GLCall>, uniform: Uniform)
    ensures LastSet(a + b, uniform) == if LastSet(b, uniform).Some? then LastSet(b, uniform) else LastSet(a, uniform)
    decreases |b|
  {
    if b == [] {
      assert a + b == a;
    } else {
      assert (a + b)[..|a + b| - 1] == a + b[..|b| - 1];
      LastSetAppend(a, b[..|b| - 1], uniform);
    }
  }

  // ---------------------------------------------------------------------
  // createShader and initShaders

  /** The calls `createShader` makes with object number `shader`: none when
      the context returns no shader object; otherwise create and compile,
      and delete again when compilation fails. */
  function ShaderCalls(kind: ShaderKind, shader: nat, created: bool, compiles: bool): seq<GLCall> {
    if !created then []
    else [CreateShader(kind, shader), CompileShader(shader)] + (if compiles then [] else [DeleteShader(shader)])
  }

  /** A shader `createShader` gives up on is not left on the GPU. */
  lemma FailedShaderReleased(kind: ShaderKind, shader: nat, created: bool, compiles: bool)
    ensures var calls := ShaderCalls(kind, shader, created, compiles);
            && Created(calls) == (if created then {shader} else {})
            && Deleted(calls) == (if created && !compiles then {shader} else {})
            && Live(calls) == (if created && compiles then {shader} else {})
  {
    var calls := ShaderCalls(kind, shader, created, compiles);
    if created {
      var rest := [CompileShader(shader)] + (if compiles then [] else [DeleteShader(shader)]);
      assert calls == [CreateShader(kind, shader)] + rest;
      Single(CreateShader(kind, shader));
      if compiles {
        Single(CompileShader(shader));
      } else {
        Single(CompileShader(shader));
        Single(DeleteShader(shader));
        CreatedAppend([CompileShader(shader)], [DeleteShader(shader)]);
      }
      CreatedAppend([CreateShader(kind, shader)], rest);
    }
  }

  lemma Single(c: GLCall)
    ensures Created([c]) == CreatedBy(c) && Deleted([c]) == DeletedBy(c)
  {
    assert [c][1..] == [];
  }

  /** The GLSL names of the ten uniforms `initShaders` locates. */
  const UniformNames: seq<Uniform> := [
    u_projectionMatrix, u_modelViewMatrix, u_normalMatrix, u_time, u_lightPosition,
    u_lightColor, u_ambientColor, u_serverColor, u_activity, u_roomType]

  function UniformLookups(program: nat, names: seq<Uniform>): (calls: seq<GLCall>)
    ensures |calls| == |names|
    ensures forall k :: 0 <= k < |names| ==> calls[k] == GetUniformLocation(program, names[k])
  {
    seq(|names|, k requires 0 <= k < |names| => GetUniformLocation(program, names[k]))
  }

  /** One more name adds its lookup at the end. */
  lemma LookupsSnoc(program: nat, names: seq<Uniform>)
    requires names != []
    ensures UniformLookups(program, names)
         == UniformLookups(program, names[..|names| - 1]) + [GetUniformLocation(program, names[|names| - 1])]
  {
  }

  /** Both shaders were made and compiled. */
  predicate ShadersBuilt(gpu: Gpu) {
    gpu.createsShaders && gpu.vertexCompiles && gpu.fragmentCompiles
  }

  /** Why `initShaders` throws, checked in the order the source checks. */
  function InitFailure(gpu: Gpu): Option<InitError> {
    if !ShadersBuilt(gpu) then Some(ShaderCreationFailed)
    else if !gpu.createsPrograms then Some(ProgramCreationFailed)
    else if !gpu.links then Some(LinkFailed)
    else None
  }

  /** The calls after both shaders compiled: create the program, attach,
      link, and when it links use it and locate the uniforms. */
  function ProgramCalls(program: nat, vertex: nat, fragment: nat, links: bool): seq<GLCall> {
    [CreateProgram(program), AttachShader(program, vertex), AttachShader(program, fragment), LinkProgram(program)]
    + (if links then [UseProgram(program)] + UniformLookups(program, UniformNames) else [])
  }

  /** Everything `initShaders` sends to the context, when the next object
      number is `h`: the vertex shader gets `h`, the fragment shader `h + 1`
      and the program `h + 2`. */
  function InitCalls(gpu: Gpu, h: nat): seq<GLCall> {
    var next := if gpu.createsShaders then h + 1 else h;
    ShaderCalls(VertexShader, h, gpu.createsShaders, gpu.vertexCompiles)
    + ShaderCalls(FragmentShader, next, gpu.createsShaders, gpu.fragmentCompiles)
    + (if ShadersBuilt(gpu) && gpu.createsPrograms then ProgramCalls(h + 2, h, h + 1, gpu.links) else [])
  }

  /** How many object numbers `initShaders` uses. */
  function InitHandles(gpu: Gpu): nat {
    (if gpu.createsShaders then 2 else 0) + (if ShadersBuilt(gpu) && gpu.createsPrograms then 1 else 0)
  }

  lemma ProgramCallsObjects(program: nat, vertex: nat, fragment: nat, links: bool)
    ensures Created(ProgramCalls(program, vertex, fragment, links)) == {program}
    ensures Deleted(ProgramCalls(program, vertex, fragment, links)) == {}
  {
    var link := [AttachShader(program, vertex), AttachShader(program, fragment), LinkProgram(program)];
    var tail := if links then [UseProgram(program)] + UniformLookups(program, UniformNames) else [];
    assert ProgramCalls(program, vertex, fragment, links) == [CreateProgram(program)] + link + tail;
    Single(CreateProgram(program));
    NoObjects(link);
    NoObjectsInTail(program, links);
    CreatedAppend([CreateProgram(program)], link);
    CreatedAppend([CreateProgram(program)] + link, tail);
  }

  lemma NoObjectsInTail(program: nat, links: bool)
    ensures var tail := if links then [UseProgram(program)] + UniformLookups(program, UniformNames) else [];
            Created(tail) == {} && Deleted(tail) == {}
  {
    if links {
      LookupsNoObjects(program, UniformNames);
      CreatedAppend([UseProgram(program)], UniformLookups(program, UniformNames));
    }
  }

  lemma {:induction false} LookupsNoObjects(program: nat, names: seq<Uniform>)
    ensures Created(UniformLookups(program, names)) == {} && Deleted(UniformLookups(program, names)) == {}
    decreases |names|
  {
    if names != [] {
      LookupsNoObjects(program, names[..|names| - 1]);
      LookupsSnoc(program, names);
      CreatedAppend(UniformLookups(program, names[..|names| - 1]), [GetUniformLocation(program, names[|names| - 1])]);
    }
  }

  /** The objects `initShaders` leaves on the GPU: each shader that
      compiled, and the program once created, whatever happens after;
      a shader that failed to compile is deleted, and on any failure the
      shaders and program already made are not. All of them are numbered
      from `h` on. */
  lemma InitObjects(gpu: Gpu, h: nat)
    ensures var calls := InitCalls(gpu, h);
            && (forall k :: k in Created(calls) ==> h <= k < h + InitHandles(gpu))
            && Deleted(calls) <= Created(calls)
            && Live(calls) ==
                 (if gpu.createsShaders && gpu.vertexCompiles then {h} else {})
                 + (if gpu.createsShaders && gpu.fragmentCompiles then {h + 1} else {})
                 + (if ShadersBuilt(gpu) && gpu.createsPrograms then {h + 2} else {})
  {
    var next := if gpu.createsShaders then h + 1 else h;
    var vs := ShaderCalls(VertexShader, h, gpu.createsShaders, gpu.vertexCompiles);
    var fs := ShaderCalls(FragmentShader, next, gpu.createsShaders, gpu.fragmentCompiles);
    var ps := if ShadersBuilt(gpu) && gpu.createsPrograms then ProgramCalls(h + 2, h, h + 1, gpu.links) else [];
    FailedShaderReleased(VertexShader, h, gpu.createsShaders, gpu.vertexCompiles);
    FailedShaderReleased(FragmentShader, next, gpu.createsShaders, gpu.fragmentCompiles);
    if ShadersBuilt(gpu) && gpu.createsPrograms {
      ProgramCallsObjects(h + 2, h, h + 1, gpu.links);
    }
    InitRunsObjects(vs, fs, ps, h, gpu.createsShaders, gpu.vertexCompiles, gpu.fragmentCompiles,
                    ShadersBuilt(gpu) && gpu.createsPrograms);
  }

  /** The objects of a vertex shader run, a fragment shader run and a
      program run: `created` says whether the shaders were made,
      `vertex` and `fragment` whether each compiled, and `linked`
      whether the program was made. */
  lemma InitRunsObjects(vs: seq<GLCall>, fs: seq<GLCall>, ps: seq<GLCall>, h: nat,
                        created: bool, vertex: bool, fragment: bool, linked: bool)
    requires linked ==> created
    requires Created(vs) == (if created then {h} else {}) && Deleted(vs) == (if created && !vertex then {h} else {})
    requires Created(fs) == (if created then {h + 1} else {}) && Deleted(fs) == (if created && !fragment then {h + 1} else {})
    requires Created(ps) == (if linked then {h + 2} else {}) && Deleted(ps) == {}
    ensures forall k :: k in Created(vs + fs + ps) ==> h <= k < h + (if created then 2 else 0) + (if linked then 1 else 0)
    ensures Deleted(vs + fs + ps) <= Created(vs + fs + ps)
    ensures Live(vs + fs + ps) ==
              (if created && vertex then {h} else {})
              + (if created && fragment then {h + 1} else {})
              + (if linked then {h + 2} else {})
  {
    CreatedAppend(vs, fs);
    CreatedAppend(vs + fs, ps);
  }

  /** When `initShaders` succeeds, its last calls link a program with both
      shaders attached, make it current and locate all ten uniforms in it. */
  lemma InitSucceeds(gpu: Gpu, h: nat)
    requires InitFailure(gpu) == None
    ensures var calls := InitCalls(gpu, h);
            calls[..4] == [CreateShader(VertexShader, h), CompileShader(h), CreateShader(FragmentShader, h + 1), CompileShader(h + 1)]
            && calls[4..] == [CreateProgram(h + 2), AttachShader(h + 2, h), AttachShader(h + 2, h + 1), LinkProgram(h + 2),
                              UseProgram(h + 2)] + UniformLookups(h + 2, UniformNames)
  {
    var shaders := [CreateShader(VertexShader, h), CompileShader(h), CreateShader(FragmentShader, h + 1), CompileShader(h + 1)];
    var link := [CreateProgram(h + 2), AttachShader(h + 2, h), AttachShader(h + 2, h + 1), LinkProgram(h + 2)];
    var use := [UseProgram(h + 2)] + UniformLookups(h + 2, UniformNames);
    assert ShaderCalls(VertexShader, h, true, true) + ShaderCalls(FragmentShader, h + 1, true, true) == shaders;
    assert InitCalls(gpu, h) == shaders + (link + use);
    assert (shaders + (link + use))[..4] == shaders;
    assert (shaders + (link + use))[4..] == link + use;
  }


  // ---------------------------------------------------------------------
  // renderServerRoom

  /** `createBuffer`, `bindBuffer` and `bufferData` for one buffer. */
  function UploadCalls(buffer: nat, target: BufferTarget, data: GLCall): seq<GLCall> {
    [CreateBuffer(buffer), BindBuffer(target, buffer), data]
  }

  /** `bindBuffer`, `enableVertexAttribArray` and `vertexAttribPointer` for
      one vertex attribute. */
  function AttributeCalls(buffer: nat, attribute: Attribute, size: nat): seq<GLCall> {
    [BindBuffer(ArrayBuffer, buffer), EnableVertexAttribArray(attribute), VertexAttribPointer(attribute, size)]
  }

  /** The matrices, the time and the fixed lighting colours. */
  function SceneUniformCalls(time: real, width: real, height: real): seq<GLCall> {
    var modelView := ModelViewMatrix();
    [SetUniform(u_projectionMatrix, Mat4(Perspective(45.0, width, height, 0.1, 100.0))),
     SetUniform(u_modelViewMatrix, Mat4(Entries(modelView))),
     SetUniform(u_normalMatrix, Mat4(Entries(NormalMatrix(modelView)))),
     SetUniform(u_time, Float(time)),
     SetUniform(u_lightPosition, Floats3([2.0, 2.0, 2.0])),
     SetUniform(u_lightColor, Floats3([1.0, 1.0, 1.0])),
     SetUniform(u_ambientColor, Floats3([0.1, 0.1, 0.2])),
     SetUniform(u_serverColor, Floats3([0.3, 0.3, 0.4]))]
  }

  /** The two uniforms that come from the caller. */
  function RoomUniformCalls(roomType: int, activity: real): seq<GLCall> {
    [SetUniform(u_activity, Float(activity)), SetUniform(u_roomType, Int(roomType))]
  }

  /** Depth test on, clear, and draw `count` indexed vertices as triangles. */
  function DrawCalls(count: nat): seq<GLCall> {
    [EnableDepthTest, ClearColorAndDepth, DrawTriangles(count)]
  }

  /** The four buffers, numbered `h` .. `h + 3`, filled from the cube. */
  function BufferCalls(h: nat, cube: Cube): seq<GLCall> {
    UploadCalls(h, ArrayBuffer, BufferFloats(ArrayBuffer, cube.vertices))
    + UploadCalls(h + 1, ArrayBuffer, BufferFloats(ArrayBuffer, cube.normals))
    + UploadCalls(h + 2, ArrayBuffer, BufferFloats(ArrayBuffer, cube.texCoords))
    + UploadCalls(h + 3, ElementArrayBuffer, BufferIndices(cube.indices))
  }

  /** The three vertex attributes read from the first three buffers, the
      uniforms, and the draw of `count` indices. */
  function DrawSetupCalls(h: nat, count: nat, roomType: int, activity: real, time: real, width: real, height: real): seq<GLCall> {
    AttributeCalls(h, a_position, 3)
    + AttributeCalls(h + 1, a_normal, 3)
    + AttributeCalls(h + 2, a_texCoord, 2)
    + SceneUniformCalls(time, width, height)
    + RoomUniformCalls(roomType, activity)
    + DrawCalls(count)
  }

  /** What one `renderServerRoom` call sends for `cube`, on a canvas of the
      given size, when the next object number is `h`. */
  function FrameCalls(h: nat, cube: Cube, roomType: int, activity: real, time: real, width: real, height: real): seq<GLCall> {
    BufferCalls(h, cube) + DrawSetupCalls(h, |cube.indices|, roomType, activity, time, width, height)
  }

  lemma UploadObjects(buffer: nat, target: BufferTarget, data: GLCall)
    requires CreatedBy(data) == {} && DeletedBy(data) == {}
    ensures Created(UploadCalls(buffer, target, data)) == {buffer} && Deleted(UploadCalls(buffer, target, data)) == {}
  {
    var rest := [BindBuffer(target, buffer), data];
    assert UploadCalls(buffer, target, data) == [CreateBuffer(buffer)] + rest;
    Single(CreateBuffer(buffer));
    NoObjects(rest);
    CreatedAppend([CreateBuffer(buffer)], rest);
  }

  /** Calls that create and delete nothing leave the objects alone. */
  lemma {:induction false} NoObjects(calls: seq<GLCall>)
    requires forall k :: 0 <= k < |calls| ==> CreatedBy(calls[k]) == {} && DeletedBy(calls[k]) == {}
    ensures Created(calls) == {} && Deleted(calls) == {}
    decreases |calls|
  {
    if calls != [] {
      NoObjects(calls[1..]);
    }
  }

  lemma BufferObjects(h: nat, cube: Cube)
    ensures Created(BufferCalls(h, cube)) == {h, h + 1, h + 2, h + 3} && Deleted(BufferCalls(h, cube)) == {}
  {
    var u1 := UploadCalls(h, ArrayBuffer, BufferFloats(ArrayBuffer, cube.vertices));
    var u2 := UploadCalls(h + 1, ArrayBuffer, BufferFloats(ArrayBuffer, cube.normals));
    var u3 := UploadCalls(h + 2, ArrayBuffer, BufferFloats(ArrayBuffer, cube.texCoords));
    var u4 := UploadCalls(h + 3, ElementArrayBuffer, BufferIndices(cube.indices));
    UploadObjects(h, ArrayBuffer, BufferFloats(ArrayBuffer, cube.vertices));
    UploadObjects(h + 1, ArrayBuffer, BufferFloats(ArrayBuffer, cube.normals));
    UploadObjects(h + 2, ArrayBuffer, BufferFloats(ArrayBuffer, cube.texCoords));
    UploadObjects(h + 3, ElementArrayBuffer, BufferIndices(cube.indices));
    CreatedFour(u1, u2, u3, u4, h);
  }

  /** Four call runs that each create one object, numbered `h` on, and
      delete none create those four together. */
  lemma CreatedFour(u1: seq<GLCall>, u2: seq<GLCall>, u3: seq<GLCall>, u4: seq<GLCall>, h: nat)
    requires Created(u1) == {h} && Created(u2) == {h + 1} && Created(u3) == {h + 2} && Created(u4) == {h + 3}
    requires Deleted(u1) == {} && Deleted(u2) == {} && Deleted(u3) == {} && Deleted(u4) == {}
    ensures Created(u1 + u2 + u3 + u4) == {h, h + 1, h + 2, h + 3} && Deleted(u1 + u2 + u3 + u4) == {}
  {
    CreatedAppend(u1, u2);
    CreatedAppend(u1 + u2, u3);
    CreatedAppend(u1 + u2 + u3, u4);
  }

  /** A frame creates exactly its four buffers and deletes nothing. */
  lemma FrameObjects(h: nat, cube: Cube, roomType: int, activity: real, time: real, width: real, height: real)
    ensures Created(FrameCalls(h, cube, roomType, activity, time, width, height)) == {h, h + 1, h + 2, h + 3}
    ensures Deleted(FrameCalls(h, cube, roomType, activity, time, width, height)) == {}
  {
    var setup := DrawSetupCalls(h, |cube.indices|, roomType, activity, time, width, height);
    BufferObjects(h, cube);
    NoObjects(setup);
    CreatedAppend(BufferCalls(h, cube), setup);
  }

  /** Calls that set no uniform leave every uniform's last value alone. */
  lemma {:induction false} NoUniforms(calls: seq<GLCall>, uniform: Uniform)
    requires forall k :: 0 <= k < |calls| ==> !calls[k].SetUniform?
    ensures LastSet(calls, uniform) == None
    decreases |calls|
  {
    if calls != [] {
      NoUniforms(calls[..|calls| - 1], uniform);
    }
  }

  /** Whatever was uploaded before, after a frame the shader sees the
      activity and room type that frame was given. */
  lemma FrameUniforms(before: seq<GLCall>, h: nat, cube: Cube, roomType: int, activity: real, time: real, width: real, height: real)
    ensures var log := before + FrameCalls(h, cube, roomType, activity, time, width, height);
            LastSet(log, u_activity) == Some(Float(activity)) && LastSet(log, u_roomType) == Some(Int(roomType))
  {
    var room := RoomUniformCalls(roomType, activity);
    var d := DrawCalls(|cube.indices|);
    var frame := FrameCalls(h, cube, roomType, activity, time, width, height);
    var front := before + BufferCalls(h, cube)
                 + (AttributeCalls(h, a_position, 3) + AttributeCalls(h + 1, a_normal, 3) + AttributeCalls(h + 2, a_texCoord, 2)
                    + SceneUniformCalls(time, width, height));
    assert before + frame == front + room + d;
    NoUniforms(d, u_activity);
    NoUniforms(d, u_roomType);
    LastSetAppend(front + room, d, u_activity);
    LastSetAppend(front + room, d, u_roomType);
    assert LastSet(room, u_activity) == Some(Float(activity)) by {
      assert room[..1] == [SetUniform(u_activity, Float(activity))];
    }
    LastSetAppend(front, room, u_activity);
    LastSetAppend(front, room, u_roomType);
  }

  /** A frame draws once, as its last call, and draws every index of the
      cube: 36 of them, two triangles on each of six faces. */
  lemma FrameDraws(h: nat, roomType: int, activity: real, time: real, width: real, height: real)
    ensures var calls := FrameCalls(h, CreateCube(), roomType, activity, time, width, height);
            && calls[|calls| - 1] == DrawTriangles(36)
            && forall k :: 0 <= k < |calls| - 1 ==> !calls[k].DrawTriangles?
  {
  }

  // ---------------------------------------------------------------------
  // destroy

  function DeleteBuffers(buffers: seq<nat>): seq<GLCall> {
    if buffers == [] then [] else DeleteBuffers(buffers[..|buffers| - 1]) + [DeleteBuffer(buffers[|buffers| - 1])]
  }

  /** What `destroy` sends: delete every recorded buffer, then the program. */
  function DestroyCalls(buffers: seq<nat>, program: Option<nat>): seq<GLCall> {
    DeleteBuffers(buffers) + (if program.Some? then [DeleteProgram(program.value)] else [])
  }

  lemma {:induction false} DeleteBuffersObjects(buffers: seq<nat>)
    ensures Created(DeleteBuffers(buffers)) == {}
    ensures Deleted(DeleteBuffers(buffers)) == set k | k in buffers
    decreases |buffers|
  {
    if buffers != [] {
      var init := buffers[..|buffers| - 1];
      var last := buffers[|buffers| - 1];
      DeleteBuffersObjects(init);
      Single(DeleteBuffer(last));
      CreatedAppend(DeleteBuffers(init), [DeleteBuffer(last)]);
      assert buffers == init + [last];
    }
  }

  /** `destroy` deletes exactly the recorded buffers and the program. */
  lemma DestroyReleases(buffers: seq<nat>, program: Option<nat>)
    ensures Created(DestroyCalls(buffers, program)) == {}
    ensures Deleted(DestroyCalls(buffers, program)) == (set k | k in buffers) + (if program.Some? then {program.value} else {})
  {
    DeleteBuffersObjects(buffers);
    if program.Some? {
      Single(DeleteProgram(program.value));
    }
    CreatedAppend(DeleteBuffers(buffers), if program.Some? then [DeleteProgram(program.value)] else []);
  }

  /** The object a call creates or deletes, if any, is numbered below `n`. */
  predicate Below(c: GLCall, n: nat) {
    match c
    case CreateShader(_, s) => s < n
    case DeleteShader(s) => s < n
    case CreateProgram(p) => p < n
    case DeleteProgram(p) => p < n
    case CreateBuffer(b) => b < n
    case DeleteBuffer(b) => b < n
    case _ => true
  }

  predicate AllBelow(log: seq<GLCall>, n: nat) {
    forall i :: 0 <= i < |log| ==> Below(log[i], n)
  }

  /** A log whose calls all name objects below `n` neither creates nor
      deletes any object from `n` on. */
  lemma {:induction false} AboveUntouched(log: seq<GLCall>, n: nat, k: nat)
    requires AllBelow(log, n)
    requires n <= k
    ensures k !in Created(log) && k !in Deleted(log)
    decreases |log|
  {
    if log != [] {
      assert Below(log[0], n);
      AboveUntouched(log[1..], n, k);
    }
  }

  lemma BelowMonotone(log: seq<GLCall>, n: nat, m: nat)
    requires AllBelow(log, n) && n <= m
    ensures AllBelow(log, m)
  {
    forall i | 0 <= i < |log|
      ensures Below(log[i], m)
    {
      assert Below(log[i], n);
    }
  }

  lemma AppendBelow(a: seq<GLCall>, b: seq<GLCall>, n: nat)
    requires AllBelow(a, n) && AllBelow(b, n)
    ensures AllBelow(a + b, n)
  {
    forall i | 0 <= i < |a + b|
      ensures Below((a + b)[i], n)
    {
      if i < |a| {
        assert Below(a[i], n);
      } else {
        assert Below(b[i - |a|], n);
      }
    }
  }

  /** The buffers a frame creates are never recorded, so `destroy` leaves
      all four on the GPU: after a frame and a `destroy` with no recorded
      buffers, each of them is still live. */
  lemma FrameBuffersOutliveDestroy(before: seq<GLCall>, h: nat, program: Option<nat>,
                                   roomType: int, activity: real, time: real, width: real, height: real)
    requires AllBelow(before, h)
    requires program.Some? ==> program.value < h
    ensures var log := before + FrameCalls(h, CreateCube(), roomType, activity, time, width, height) + DestroyCalls([], program);
            forall k :: h <= k < h + 4 ==> k in Live(log)
  {
    var frame := FrameCalls(h, CreateCube(), roomType, activity, time, width, height);
    var destroy := DestroyCalls([], program);
    FrameObjects(h, CreateCube(), roomType, activity, time, width, height);
    DestroyReleases([], program);
    forall k | h <= k < h + 4
      ensures k !in Deleted(before) && k in Created(frame) && k !in Deleted(frame) && k !in Deleted(destroy)
    {
      AboveUntouched(before, h, k);
    }
    OutliveDestroy(before, frame, destroy, h);
  }

  /** Objects `h`..`h + 3` made by `frame`, deleted by none of the calls
      around it, are live after all three runs. */
  lemma OutliveDestroy(before: seq<GLCall>, frame: seq<GLCall>, destroy: seq<GLCall>, h: nat)
    requires forall k :: h <= k < h + 4 ==>
               k !in Deleted(before) && k in Created(frame) && k !in Deleted(frame) && k !in Deleted(destroy)
    ensures forall k :: h <= k < h + 4 ==> k in Live(before + frame + destroy)
  {
    CreatedAppend(before, frame);
    CreatedAppend(before + frame, destroy);
  }

  lemma AppendAssoc(a: seq<GLCall>, b: seq<GLCall>, c: seq<GLCall>)
    ensures a + b + c == a + (b + c)
  {
  }

  /** Appending the four uploads one at a time appends `BufferCalls`. */
  lemma UploadsAppend(log: seq<GLCall>, h: nat, cube: Cube)
    ensures log + UploadCalls(h, ArrayBuffer, BufferFloats(ArrayBuffer, cube.vertices))
                + UploadCalls(h + 1, ArrayBuffer, BufferFloats(ArrayBuffer, cube.normals))
                + UploadCalls(h + 2, ArrayBuffer, BufferFloats(ArrayBuffer, cube.texCoords))
                + UploadCalls(h + 3, ElementArrayBuffer, BufferIndices(cube.indices))
            == log + BufferCalls(h, cube)
  {
    var u1 := UploadCalls(h, ArrayBuffer, BufferFloats(ArrayBuffer, cube.vertices));
    var u2 := UploadCalls(h + 1, ArrayBuffer, BufferFloats(ArrayBuffer, cube.normals));
    var u3 := UploadCalls(h + 2, ArrayBuffer, BufferFloats(ArrayBuffer, cube.texCoords));
    var u4 := UploadCalls(h + 3, ElementArrayBuffer, BufferIndices(cube.indices));
    AppendAssoc(log, u1, u2);
    AppendAssoc(log, u1 + u2, u3);
    AppendAssoc(log, u1 + u2 + u3, u4);
  }

  /** Appending the attribute, uniform and draw calls one group at a time
      appends `DrawSetupCalls`. */
  lemma SetupAppend(log: seq<GLCall>, h: nat, count: nat, roomType: int, activity: real, time: real, width: real, height: real)
    ensures log + AttributeCalls(h, a_position, 3) + AttributeCalls(h + 1, a_normal, 3) + AttributeCalls(h + 2, a_texCoord, 2)
                + SceneUniformCalls(time, width, height) + RoomUniformCalls(roomType, activity) + DrawCalls(count)
            == log + DrawSetupCalls(h, count, roomType, activity, time, width, height)
  {
    var a1 := AttributeCalls(h, a_position, 3);
    var a2 := AttributeCalls(h + 1, a_normal, 3);
    var a3 := AttributeCalls(h + 2, a_texCoord, 2);
    var s := SceneUniformCalls(time, width, height);
    var r := RoomUniformCalls(roomType, activity);
    var d := DrawCalls(count);
    AppendAssoc(log, a1, a2);
    AppendAssoc(log, a1 + a2, a3);
    AppendAssoc(log, a1 + a2 + a3, s);
    AppendAssoc(log, a1 + a2 + a3 + s, r);
    AppendAssoc(log, a1 + a2 + a3 + s + r, d);
  }

  /** A frame names only its own four buffers. */
  lemma FrameBelow(h: nat, cube: Cube, roomType: int, activity: real, time: real, width: real, height: real)
    ensures AllBelow(FrameCalls(h, cube, roomType, activity, time, width, height), h + 4)
  {
    var u1 := UploadCalls(h, ArrayBuffer, BufferFloats(ArrayBuffer, cube.vertices));
    var u2 := UploadCalls(h + 1, ArrayBuffer, BufferFloats(ArrayBuffer, cube.normals));
    var u3 := UploadCalls(h + 2, ArrayBuffer, BufferFloats(ArrayBuffer, cube.texCoords));
    var u4 := UploadCalls(h + 3, ElementArrayBuffer, BufferIndices(cube.indices));
    var setup := DrawSetupCalls(h, |cube.indices|, roomType, activity, time, width, height);
    AppendBelow(u1, u2, h + 4);
    AppendBelow(u1 + u2, u3, h + 4);
    AppendBelow(u1 + u2 + u3, u4, h + 4);
    AppendBelow(BufferCalls(h, cube), setup, h + 4);
  }

  /** `initShaders` names only the objects it creates. */
  lemma InitBelow(gpu: Gpu, h: nat)
    ensures AllBelow(InitCalls(gpu, h), h + InitHandles(gpu))
  {
    var n := h + InitHandles(gpu);
    var next := if gpu.createsShaders then h + 1 else h;
    var vs := ShaderCalls(VertexShader, h, gpu.createsShaders, gpu.vertexCompiles);
    var fs := ShaderCalls(FragmentShader, next, gpu.createsShaders, gpu.fragmentCompiles);
    var ps := if ShadersBuilt(gpu) && gpu.createsPrograms then ProgramCalls(h + 2, h, h + 1, gpu.links) else [];
    assert AllBelow(vs, n);
    assert AllBelow(fs, n);
    assert AllBelow(ps, n) by {
      if ShadersBuilt(gpu) && gpu.createsPrograms {
        var lookups := UniformLookups(h + 2, UniformNames);
        assert AllBelow(lookups, n);
      }
    }
    AppendBelow(vs, fs, n);
    AppendBelow(vs + fs, ps, n);
  }

  // ---------------------------------------------------------------------
  // The renderer

  class WebGL2Renderer {
    const canvas: Canvas
    /** The calls received by the canvas's WebGL2 context, in order. */
    var log: seq<GLCall>
    /** The number the context gives the next object it creates. */
    var nextHandle: nat
    var program: Option<nat>
    /** The uniforms located in the program. */
    var uniforms: seq<Uniform>
    /** The buffers `destroy` deletes; nothing ever records one. */
    var buffers: seq<nat>
    /** Never assigned by the renderer: frames are scheduled by its owner. */
    var animationId: Option<nat>
    /** Frame ids passed to `cancelAnimationFrame`. */
    var cancelled: seq<nat>

    /** Every object the log names, and the program, is numbered below
        `nextHandle`: the numbers the context hands out next are fresh. */
    ghost predicate Valid()
      reads this
    {
      && AllBelow(log, nextHandle)
      && (program.Some? ==> program.value < nextHandle)
      && (forall i :: 0 <= i < |buffers| ==> buffers[i] < nextHandle)
    }

    /** The renderer around a canvas already bound to a WebGL2 context;
        the constructor then runs `setupCanvas`. */
    constructor Bind(canvas: Canvas, devicePixelRatio: real)
      requires canvas.mode == Bound(WebGL2)
      modifies canvas`width, canvas`height
      ensures this.canvas == canvas && program == None && uniforms == [] && buffers == []
      ensures animationId == None && cancelled == [] && nextHandle == 0
      ensures canvas.width == canvas.BackingWidth(devicePixelRatio)
      ensures canvas.height == canvas.BackingHeight(devicePixelRatio)
      ensures log == [Viewport(canvas.width, canvas.height)]
      ensures Valid()
    {
      this.canvas := canvas;
      log := [];
      nextHandle := 0;
      program := None;
      uniforms := [];
      buffers := [];
      animationId := None;
      cancelled := [];
      new;
      SetupCanvas(devicePixelRatio);
    }

    /** `setupCanvas`: size the backing store for the device pixel ratio
        and make the viewport cover it. */
    method SetupCanvas(devicePixelRatio: real)
      requires Valid()
      modifies this`log, canvas`width, canvas`height
      ensures canvas.width == canvas.BackingWidth(devicePixelRatio)
      ensures canvas.height == canvas.BackingHeight(devicePixelRatio)
      ensures log == old(log) + [Viewport(canvas.width, canvas.height)]
      ensures Valid()
    {
      canvas.width := AttributeValue(canvas.rectWidth * DeviceScale(devicePixelRatio), DefaultWidth) as real;
      canvas.height := AttributeValue(canvas.rectHeight * DeviceScale(devicePixelRatio), DefaultHeight) as real;
      AppendBelow(log, [Viewport(canvas.width, canvas.height)], nextHandle);
      log := log + [Viewport(canvas.width, canvas.height)];
    }

    /** `createShader`: `shader` is None where the source returns null. */
    method CreateShaderObject(kind: ShaderKind, compiles: bool) returns (shader: Option<nat>)
      modifies this`log, this`nextHandle
      ensures shader.Some? <==> canvas.gpu.createsShaders && compiles
      ensures shader.Some? ==> shader.value == old(nextHandle)
      ensures log == old(log) + ShaderCalls(kind, old(nextHandle), canvas.gpu.createsShaders, compiles)
      ensures nextHandle == old(nextHandle) + (if canvas.gpu.createsShaders then 1 else 0)
    {
      if !canvas.gpu.createsShaders {
        return None;
      }
      var s := nextHandle;
      nextHandle := nextHandle + 1;
      log := log + [CreateShader(kind, s), CompileShader(s)];
      if !compiles {
        log := log + [DeleteShader(s)];
        return None;
      }
      return Some(s);
    }

    /** `initShaders`: `err` is the error it throws, if any. */
    method InitShaders() returns (err: Option<InitError>)
      requires Valid()
      modifies this`log, this`nextHandle, this`program, this`uniforms
      ensures err == InitFailure(canvas.gpu)
      ensures log == old(log) + InitCalls(canvas.gpu, old(nextHandle))
      ensures nextHandle == old(nextHandle) + InitHandles(canvas.gpu)
      ensures program == if !ShadersBuilt(canvas.gpu) then old(program)
                         else if canvas.gpu.createsPrograms then Some(old(nextHandle) + 2) else None
      ensures uniforms == if err == None then UniformNames else old(uniforms)
      ensures Valid()
    {
      ghost var h := nextHandle;
      ghost var start := log;
      ghost var gpu := canvas.gpu;
      ghost var vs := ShaderCalls(VertexShader, h, gpu.createsShaders, gpu.vertexCompiles);
      ghost var fs := ShaderCalls(FragmentShader, if gpu.createsShaders then h + 1 else h, gpu.createsShaders, gpu.fragmentCompiles);
      var vertexShader := CreateShaderObject(VertexShader, canvas.gpu.vertexCompiles);
      var fragmentShader := CreateShaderObject(FragmentShader, canvas.gpu.fragmentCompiles);
      assert log == start + (vs + fs);
      if vertexShader.None? || fragmentShader.None? {
        err := Some(ShaderCreationFailed);
        assert InitCalls(gpu, h) == vs + fs + [];
        assert vs + fs + [] == vs + fs;
      } else {
        err := BuildProgram(vertexShader.value, fragmentShader.value);
        ghost var rest := if gpu.createsPrograms then ProgramCalls(h + 2, h, h + 1, gpu.links) else [];
        assert log == start + (vs + fs) + rest;
        assert InitCalls(gpu, h) == vs + fs + rest;
        AppendAssoc(start, vs + fs, rest);
      }
      assert log == start + InitCalls(gpu, h);
      assert Valid() by {
        assert nextHandle == h + InitHandles(gpu);
        assert old(Valid());
        InitBelow(gpu, h);
        BelowMonotone(start, h, nextHandle);
        AppendBelow(start, InitCalls(gpu, h), nextHandle);
      }
    }

    /** The rest of `initShaders` once both shaders compiled: create the
        program, attach both shaders, link, use it and locate the uniforms. */
    method BuildProgram(vertexShader: nat, fragmentShader: nat) returns (err: Option<InitError>)
      modifies this`log, this`nextHandle, this`program, this`uniforms
      ensures err == (if !canvas.gpu.createsPrograms then Some(ProgramCreationFailed)
                      else if !canvas.gpu.links then Some(LinkFailed) else None)
      ensures log == old(log) + (if canvas.gpu.createsPrograms
                                 then ProgramCalls(old(nextHandle), vertexShader, fragmentShader, canvas.gpu.links) else [])
      ensures nextHandle == old(nextHandle) + (if canvas.gpu.createsPrograms then 1 else 0)
      ensures program == if canvas.gpu.createsPrograms then Some(old(nextHandle)) else None
      ensures uniforms == if err == None then UniformNames else old(uniforms)
    {
      if !canvas.gpu.createsPrograms {
        program := None;
        return Some(ProgramCreationFailed);
      }
      var p := nextHandle;
      var linked := [CreateProgram(p), AttachShader(p, vertexShader), AttachShader(p, fragmentShader), LinkProgram(p)];
      nextHandle := nextHandle + 1;
      program := Some(p);
      log := log + linked;
      if !canvas.gpu.links {
        assert linked + [] == linked;
        return Some(LinkFailed);
      }
      log := log + [UseProgram(p)];
      LocateUniforms(p);
      AppendAssoc(old(log) + linked, [UseProgram(p)], UniformLookups(p, UniformNames));
      AppendAssoc(old(log), linked, [UseProgram(p)] + UniformLookups(p, UniformNames));
      uniforms := UniformNames;
      return None;
    }

    /** The uniform loop of `initShaders`: one `getUniformLocation` per
        name, in order. */
    method LocateUniforms(p: nat)
      modifies this`log
      ensures log == old(log) + UniformLookups(p, UniformNames)
    {
      ghost var located := log;
      for i := 0 to |UniformNames|
        invariant log == located + UniformLookups(p, UniformNames[..i])
      {
        assert UniformNames[..i + 1][..i] == UniformNames[..i];
        LookupsSnoc(p, UniformNames[..i + 1]);
        log := log + [GetUniformLocation(p, UniformNames[i])];
      }
      assert UniformNames[..|UniformNames|] == UniformNames;
    }

    /** `renderServerRoom`: nothing without a program; otherwise create
        four buffers, upload the cube, set the uniforms and draw. */
    method RenderServerRoom(roomType: int, activity: real, time: real)
      requires Valid()
      modifies this`log, this`nextHandle
      ensures program.None? ==> log == old(log) && nextHandle == old(nextHandle)
      ensures program.Some? ==>
                log == old(log) + FrameCalls(old(nextHandle), CreateCube(), roomType, activity, time, canvas.width, canvas.height)
                && nextHandle == old(nextHandle) + 4
      ensures Valid()
    {
      if program.None? {
        return;
      }
      var cube := CreateCube();
      ghost var start := log;
      var positionBuffer := UploadCube(cube);
      ghost var uploaded := log;
      DrawSetup(positionBuffer, |cube.indices|, roomType, activity, time);
      AppendAssoc(start, BufferCalls(positionBuffer, cube),
                  DrawSetupCalls(positionBuffer, |cube.indices|, roomType, activity, time, canvas.width, canvas.height));
      assert Valid() by {
        assert old(Valid());
        FrameBelow(positionBuffer, cube, roomType, activity, time, canvas.width, canvas.height);
        BelowMonotone(start, positionBuffer, nextHandle);
        AppendBelow(start, FrameCalls(positionBuffer, cube, roomType, activity, time, canvas.width, canvas.height), nextHandle);
      }
    }

    /** The first half of `renderServerRoom`: four new buffers, numbered
        from `positionBuffer` on, filled with the cube's four arrays. */
    method UploadCube(cube: Cube) returns (positionBuffer: nat)
      modifies this`log, this`nextHandle
      ensures positionBuffer == old(nextHandle) && nextHandle == old(nextHandle) + 4
      ensures log == old(log) + BufferCalls(positionBuffer, cube)
    {
      ghost var start := log;
      positionBuffer := nextHandle;
      var normalBuffer := nextHandle + 1;
      var texCoordBuffer := nextHandle + 2;
      var indexBuffer := nextHandle + 3;
      nextHandle := nextHandle + 4;
      log := log + UploadCalls(positionBuffer, ArrayBuffer, BufferFloats(ArrayBuffer, cube.vertices));
      log := log + UploadCalls(normalBuffer, ArrayBuffer, BufferFloats(ArrayBuffer, cube.normals));
      log := log + UploadCalls(texCoordBuffer, ArrayBuffer, BufferFloats(ArrayBuffer, cube.texCoords));
      log := log + UploadCalls(indexBuffer, ElementArrayBuffer, BufferIndices(cube.indices));
      UploadsAppend(start, positionBuffer, cube);
    }

    /** The second half of `renderServerRoom`: bind the attributes, set the
        uniforms and draw `count` indices. */
    method DrawSetup(positionBuffer: nat, count: nat, roomType: int, activity: real, time: real)
      modifies this`log
      ensures log == old(log) + DrawSetupCalls(positionBuffer, count, roomType, activity, time, canvas.width, canvas.height)
    {
      ghost var uploaded := log;
      log := log + AttributeCalls(positionBuffer, a_position, 3);
      log := log + AttributeCalls(positionBuffer + 1, a_normal, 3);
      log := log + AttributeCalls(positionBuffer + 2, a_texCoord, 2);
      log := log + SceneUniformCalls(time, canvas.width, canvas.height);
      log := log + RoomUniformCalls(roomType, activity);
      log := log + DrawCalls(count);
      SetupAppend(uploaded, positionBuffer, count, roomType, activity, time, canvas.width, canvas.height);
    }

    /** `clear`: clear colour and depth to opaque black. */
    method Clear()
      requires Valid()
      modifies this`log
      ensures log == old(log) + [ClearColor(0.0, 0.0, 0.0, 1.0), ClearColorAndDepth]
      ensures Valid()
    {
      AppendBelow(log, [ClearColor(0.0, 0.0, 0.0, 1.0), ClearColorAndDepth], nextHandle);
      log := log + [ClearColor(0.0, 0.0, 0.0, 1.0), ClearColorAndDepth];
    }

    /** `resize`: `setupCanvas` again for the element's current size. */
    method Resize(devicePixelRatio: real)
      requires Valid()
      modifies this`log, canvas`width, canvas`height
      ensures canvas.width == canvas.BackingWidth(devicePixelRatio)
      ensures canvas.height == canvas.BackingHeight(devicePixelRatio)
      ensures log == old(log) + [Viewport(canvas.width, canvas.height)]
      ensures Valid()
    {
      SetupCanvas(devicePixelRatio);
    }

    /** `destroy`: cancel a pending frame whose id is truthy (not 0),
        delete the recorded buffers, then the program if there is one. */
    method Destroy()
      requires Valid()
      modifies this`log, this`cancelled
      ensures log == old(log) + DestroyCalls(buffers, program)
      ensures cancelled == old(cancelled) + (if animationId.Some? && animationId.value != 0 then [animationId.value] else [])
      ensures Valid()
    {
      if animationId.Some? && animationId.value != 0 {
        cancelled := cancelled + [animationId.value];
      }
      for i := 0 to |buffers|
        invariant log == old(log) + DeleteBuffers(buffers[..i])
        invariant AllBelow(log, nextHandle)
        modifies this`log
      {
        assert buffers[..i + 1][..i] == buffers[..i];
        AppendBelow(log, [DeleteBuffer(buffers[i])], nextHandle);
        log := log + [DeleteBuffer(buffers[i])];
      }
      assert buffers[..|buffers|] == buffers;
      if program.Some? {
        AppendBelow(log, [DeleteProgram(program.value)], nextHandle);
        log := log + [DeleteProgram(program.value)];
      }
    }
  }

  /** `new WebGL2Renderer(canvas)`: fails with 'WebGL2 not supported' when
      the canvas gives no WebGL2 context, and otherwise with the error
      `initShaders` throws; the canvas keeps the WebGL2 context and its new
      size even then. */
  method NewWebGL2Renderer(canvas: Canvas, devicePixelRatio: real) returns (r: Result<WebGL2Renderer, InitError>)
    modifies canvas`mode, canvas`width, canvas`height
    ensures !old(canvas.Grants(WebGL2)) ==> r == Failure(WebGL2Unsupported) && unchanged(canvas)
    ensures old(canvas.Grants(WebGL2)) ==>
              && canvas.mode == Bound(WebGL2)
              && canvas.width == canvas.BackingWidth(devicePixelRatio)
              && canvas.height == canvas.BackingHeight(devicePixelRatio)
              && (r.Failure? <==> InitFailure(canvas.gpu).Some?)
              && (r.Failure? ==> r.error == InitFailure(canvas.gpu).value)
    ensures r.Success? ==>
              && fresh(r.value) && r.value.canvas == canvas && r.value.Valid()
              && r.value.log == [Viewport(canvas.width, canvas.height)] + InitCalls(canvas.gpu, 0)
              && r.value.program == Some(2) && r.value.uniforms == UniformNames && r.value.buffers == []
              && r.value.animationId == None && r.value.cancelled == []
  {
    var ok := canvas.GetContext(WebGL2);
    if !ok {
      return Failure(WebGL2Unsupported);
    }
    var renderer := new WebGL2Renderer.Bind(canvas, devicePixelRatio);
    var err := renderer.InitShaders();
    if err.Some? {
      return Failure(err.value);
    }
    return Success(renderer);
  }
}
