# vsg-wgpu in Dafny

vsg-wgpu is a visual stimulus generator. A window shows one stimulus at a time: a circle, a
square or a cross. Clients connect over TCP and change what is shown. This project models
two programs and proves properties of each.

**vsg-core.** This is the current program.
- The listener thread accepts one connection after another and runs `handle_connection` on each.
- The handler reads length-prefixed Protocol Buffers messages. It turns each one into a
  `Command` in a shared bucket and acknowledges it with `{"type": "success"}`.
- Once per frame, the render loop applies only the newest command in the bucket, empties the
  bucket and renders.
- A `Draw` command replaces the scene with a one-stimulus scene. `Clear` replaces the
  background colour. `Texture` replaces the picture.

The renderers are modelled by the calls they make on a render pass:
- `Triangle` has optional buffers filled by `prepare` and a guarded `render`.
- The circle, rectangle and cross build their vertices and indices and upload them into
  `Triangle`s.
- The scene renders its stimuli in insertion order.

**The early prototype.** Arrow keys move a centre, and any other key cycles the shape from
circle to square to cross. The next frame rebuilds the drawn bundle from the shape's kind at
the current centre. The prototype also has three bundle builders in `shapes.rs`, and a
listener that parses JSON messages and announces each one that parses.

The model is organised as follows:
- The socket is a `Stream` holding the bytes the peer sends and the bytes written back.
- The Protocol Buffers decoder and the JSON parser are function parameters, and each may
  reject its input.
- The mutex-protected bucket is a class whose methods the two threads call one after the
  other.
- Coordinates are `real`. Cosine and sine stay uninterpreted, as `OnRing` positions.

Where the code and the intended design differ, the model follows the code:
- When a peer closes its connection, `read_exact` on the next header fails, and the handler
  returns that error. It does not exit cleanly.
- A message that does not decode ends its connection with an error. No error reply is sent.
- `update_texture` always replaces the picture and ignores the index. No earlier texture is
  kept.
- Two messages panic inside the listener thread while it holds the bucket's lock:
  - a shape message without a shape;
  - a colour message with fewer than four floats.

  The panic poisons the lock, so the next frame's `lock().unwrap()` panics too.
- A shape without a centre panics in the render thread, in `update_shape`'s `unwrap`.

## Model

| member | source | states |
|---|---|---|
| Wire.BeU32 | vsg-core/src/main.rs:236 | The length read from a 4-byte big-endian header is below 2^32. |
| Wire.ToBeBytes | vsg-core/src/main.rs:272-274 | A `u32` length is written as exactly four bytes. |
| Wire.DecodeEncode | vsg-core/src/main.rs:272-274 | Decoding the four bytes written for a length gives that length back. |
| Wire.EncodeDecode | vsg-core/src/main.rs:236 | Decoding four header bytes and encoding the value again gives the same four bytes. |
| Wire.ReplyLayout | vsg-core/src/main.rs:271-275 | The acknowledgement has 23 bytes: the prefix `[0, 0, 0, 19]`, then the 19 bytes of `{"type": "success"}`. Its prefix is the length of its body. |
| Wire.Stream.ReadExact | vsg-core/src/main.rs:235 | Returns the next `n` bytes and consumes them. When fewer remain, it fails and consumes the rest. Nothing is written. |
| Wire.Stream.Write | vsg-core/src/main.rs:274-275 | Appends the bytes to what the peer has received and reads nothing. |
| Connection.CommandOf | vsg-core/src/main.rs:245-265 | Panics exactly on a shape message without a shape or a colour message with fewer than 4 floats. Otherwise it gives a `Draw` for a shape and a `Clear` for a colour. The result is the message itself, except that only the first four colour floats are kept, in order. |
| Connection.CommandOfWireOf | vsg-core/src/main.rs:245-265 | Every command can be sent. The message built for a command turns back into exactly that command. |
| Connection.ReadFrame | vsg-core/src/main.rs:235-241 | The reads fail exactly when fewer than 4 bytes remain (short header) or fewer than the announced length follow (short payload). On success, the input is exactly the frame of the payload followed by the unread rest. |
| Connection.ReadFrameOfFrame | vsg-core/src/main.rs:235-241 | Reading a framed payload gives back exactly that payload and the bytes after it. |
| Connection.ServeRepliesOncePerCommand | vsg-core/src/main.rs:245-276 | A connection writes exactly one 23-byte acknowledgement per pushed command, and nothing else. |
| Connection.ServeFrames | vsg-core/src/main.rs:234-277 | When a client sends one frame per command and closes, every command is pushed in order with one acknowledgement each. The connection then ends with the short-header error. |
| Connection.NoCommandFinishes | vsg-core/src/main.rs:266-269 | A message without a command ends the connection with `Ok`. Nothing is pushed or written, and the bytes after it stay unread. |
| Connection.MalformedFails | vsg-core/src/main.rs:242 | A payload that does not decode ends the connection with an error. Nothing is pushed or written. |
| Connection.PanicStops | vsg-core/src/main.rs:247-258 | A message whose command panics ends the connection with that panic. Nothing is pushed or written. |
| Connection.ReceiveFrame | vsg-core/src/main.rs:235-241 | When the header is read, the buffer is resized to the announced length if that length exceeds it, and is otherwise kept at its size; a short header leaves it untouched. The bytes past the payload keep their old values. Its first `len` bytes are the payload `ReadFrame` finds, and the stream is left at the bytes after the frame. Each failure is the one `ReadFrame` predicts. |
| Connection.Turn | vsg-core/src/main.rs:234-277 | One loop turn either pushes one command, writes one acknowledgement and consumes input, or ends the connection as `Serve` says. In the second case nothing is pushed or written, and the bucket is poisoned exactly on a panic. |
| Connection.HandleConnection | vsg-core/src/main.rs:226-279 | The commands pushed, the bytes written and the outcome are those `Serve` gives for the bytes the peer sends. The bucket is poisoned exactly when the handler panics. |
| Connection.Push | vsg-core/src/main.rs:245-265 | Pushes the command `CommandOf` gives, last, or poisons the bucket and pushes nothing when it panics. |
| Connection.ServeAllInOrder | vsg-core/src/main.rs:332-340 | The i-th session is the handling of the i-th connection. Errors do not stop the listener. It stops early only right after a connection whose handler panicked. |
| Connection.Accept | vsg-core/src/main.rs:333-338 | Handling one accepted connection pushes what `Serve` says. The bucket is poisoned exactly when the handler panicked. |
| Connection.Listen | vsg-core/src/main.rs:332-340 | The sessions are those of `ServeAll`. The bucket gains every pushed command in connection order, and it is poisoned exactly when the last session panicked. |
| Mailbox.Bucket.constructor | vsg-core/src/main.rs:326 | The bucket starts empty and not poisoned. |
| Mailbox.Bucket.Push | vsg-core/src/main.rs:247-248 | The command goes last and the earlier commands stay. |
| Mailbox.Bucket.Poison | vsg-core/src/main.rs:252-256 | A panic while the lock is held leaves the contents and poisons the lock. |
| Mailbox.Bucket.Newest | vsg-core/src/main.rs:380 | The newest command, or none when the bucket is empty. |
| Mailbox.Bucket.Clear | vsg-core/src/main.rs:386 | The bucket is empty afterwards. |
| TriangleRenderer.RenderCalls | vsg-core/src/renderers/triangle.rs:102-114 | The pipeline is set first. The vertex buffer is bound, second, exactly when it is present. A draw is issued exactly when both the index buffer and the count are present, and it comes last, after binding the index buffer. |
| TriangleRenderer.Triangle.constructor | vsg-core/src/renderers/triangle.rs:78-83 | All three optional fields start absent. |
| TriangleRenderer.Triangle.Prepare | vsg-core/src/renderers/triangle.rs:86-100 | Sets both buffers and the count `indices.len() as u32`, replacing what an earlier call set. |
| TriangleRenderer.Triangle.Render | vsg-core/src/renderers/triangle.rs:102-114 | Appends the calls `RenderCalls` gives for the current fields to the pass. |
| TriangleRenderer.UnpreparedDrawsNothing | vsg-core/src/renderers/triangle.rs:106-113 | Before `prepare`, rendering only sets the pipeline. |
| TriangleRenderer.PreparedDrawsAll | vsg-core/src/renderers/triangle.rs:86-113 | After `prepare` with fewer than 2^32 indices, rendering binds both buffers and draws all the indices. |
| Fan.TriplesAt | vsg-core/src/renderers/circle.rs:38-42 | The j-th triple the index loop pushes is `(0, j, j + 1)`. |
| Fan.CircleIndicesShape | vsg-core/src/renderers/circle.rs:37-45 | A fan over n ring vertices has 3n indices. Every triangle starts at the centre. The loop triangles are `(0, t, t + 1)`, the first being `(0, 0, 1)`, and the last is `(0, n - 1, 1)`. Every index is below n, so ring vertex n is never drawn. |
| Fan.PushFanIndices | vsg-core/src/renderers/circle.rs:37-45 | The index loop and the closing triple build the fan's index list. |
| Fan.PushRing | vsg-core/src/renderers/circle.rs:19-35 | The vertex loop gives the centre, then ring vertex i for each i in order. |
| CircleRenderer.VerticesShape | vsg-core/src/renderers/circle.rs:19-35 | There are 1025 vertices, the centre first. Ring vertex i is at position 1 + i. Every vertex has the given colour. |
| CircleRenderer.Circle.Render | vsg-core/src/renderers/circle.rs:60-65 | A circle renders its one triangle. |
| CircleRenderer.NewCircle | vsg-core/src/renderers/circle.rs:11-55 | The size is 0.3 whatever the radius, and the centre is unchanged. A fresh triangle is prepared with the fan vertices, the fan indices and the count 3072. |
| RectangleRenderer.Corners | vsg-core/src/renderers/rectangle.rs:24-41 | There are four corners of the given colour. The centre is the midpoint of both diagonals. The signed extents are exactly the width and height, with no absolute value taken. |
| RectangleRenderer.IndicesCoverQuad | vsg-core/src/renderers/rectangle.rs:43 | There are six indices, all below 4, and together they use every corner. |
| RectangleRenderer.CornersWinding | vsg-core/src/renderers/rectangle.rs:24-43 | Both triangles have twice-signed area `width * height`. A negative width or height, but not both, turns them clockwise. |
| RectangleRenderer.Rectangle.Render | vsg-core/src/renderers/rectangle.rs:56-63 | A rectangle renders its one triangle. |
| RectangleRenderer.NewRectangle | vsg-core/src/renderers/rectangle.rs:15-53 | The size is 0.3 and the centre is unchanged. A fresh triangle is prepared with the corners, `[0, 2, 1, 2, 3, 1]` and the count 6. |
| CrossRenderer.Cross.Render | vsg-core/src/renderers/cross.rs:29-38 | The loop renders the horizontal bar and then the vertical bar. |
| CrossRenderer.NewCross | vsg-core/src/renderers/cross.rs:10-26 | The centre is kept. The first rectangle is `size.x` wide and `line_width` high, the second `line_width` wide and `size.y` high. Both are centred on `ctr` and are distinct fresh triangles. |
| SceneRenderer.Stimulus.Render | src/renderers/scene.rs:25 | A boxed stimulus appends its own calls to the pass. |
| SceneRenderer.Scene.constructor | src/renderers/scene.rs:8-12 | A new scene has no stimuli. |
| SceneRenderer.Scene.AddStimulus | src/renderers/scene.rs:14-16 | The new stimulus goes last, and the earlier ones stay in place. |
| SceneRenderer.Scene.Render | src/renderers/scene.rs:20-27 | Appends the calls of every stimulus to the pass, once each, in insertion order. |
| SceneRenderer.SceneCallsSplit | src/renderers/scene.rs:24-26 | Rendering a list of stimuli draws a first part of the list, then the rest, so adding a stimulus leaves the earlier drawing unchanged. |
| SceneRenderer.SingleStimulusScene | src/renderers/scene.rs:24-26 | A one-stimulus scene draws exactly that stimulus. |
| CoreState.ShownShapeDrawsFully | vsg-core/src/main.rs:121-167 | Every stimulus `update_shape` builds draws all its indices. A circle draws 3072, a square 6, and a cross 6 and then 6. |
| CoreState.CircleDrawsFan | vsg-core/src/renderers/circle.rs:37-48 | A circle's prepared triangle draws the whole fan in one draw of 3072 indices. |
| CoreState.CrossDrawsBothBars | vsg-core/src/renderers/cross.rs:19-37 | A cross draws six indices for each bar, the horizontal bar first. |
| CoreState.State.constructor | vsg-core/src/main.rs:59-110 | The background is black, there is no picture, the scene is empty, and the surface is configured at the window size. |
| CoreState.State.Resize | vsg-core/src/main.rs:112-119 | A new size is adopted, with the surface reconfigured, only when both sides are positive. Nothing else changes. |
| CoreState.State.UpdateShape | vsg-core/src/main.rs:121-168 | Panics, changing nothing, exactly when the shape has no centre. Otherwise the scene becomes a fresh scene with one stimulus. That stimulus shows the shape in its kind's colour, and a square uses its size for both sides. The background, picture and size are kept. |
| CoreState.State.UpdateBgColor | vsg-core/src/main.rs:170-177 | Only the background changes, and it takes the four channels in order. |
| CoreState.State.UpdateTexture | vsg-core/src/main.rs:179-186 | Only the picture changes. It always comes from the new data, and the index is ignored. |
| CoreState.State.Render | vsg-core/src/main.rs:188-223 | When the surface gives no texture, its error is returned and nothing is drawn. Otherwise the pass clears to the background, draws the picture if there is one, then draws the scene. |
| CoreState.Drain | vsg-core/src/main.rs:377-387 | Panics exactly when the lock is poisoned or the newest command is a shape without a centre. Otherwise only the newest command is applied, changing only its own field, and the bucket ends empty. An empty bucket changes nothing. |
| CoreState.Present | vsg-core/src/main.rs:388-396 | A lost surface is reconfigured at the current size. Running out of memory exits. Other errors change nothing. The scene, background and picture are kept. |
| CoreState.MainEventsCleared | vsg-core/src/main.rs:375-402 | A frame panics exactly as `Drain` does. Otherwise it applies only the newest command, empties the bucket, submits the frame's calls when the surface gives a texture, and exits exactly on running out of memory. |
| ProtoShapes.QuadWinding | src/shapes.rs:176-197 | Both triangles of a quad have twice-signed area `4wh`, so they are counter-clockwise and never culled when both half-sides are positive. |
| ProtoShapes.CrossBundleShape | src/shapes.rs:57-106 | The cross has 8 white vertices: a bar `abs(x)` wide and `2 abs(y)` high, then a bar `2 abs(x)` wide and `abs(y)` high, both centred on the origin. It has 12 indices, all below 8, and it draws all of them. |
| ProtoShapes.CrossBundleWinding | src/shapes.rs:57-94 | All four triangles have twice-signed area `2 abs(x) abs(y)`, so they are counter-clockwise when x and y are non-zero. |
| ProtoShapes.CrossBundleIgnoresSigns | src/shapes.rs:57-58 | Negating x or y gives the same cross. |
| ProtoShapes.SquareBundleShape | src/shapes.rs:176-209 | The square's 4 corners are at `(±abs(x), ±abs(y))`. It is centred on the origin, not on `(x, y)`. It is `2 abs(x)` by `2 abs(y)`, its 6 indices are below 4 and all drawn, and its triangles are counter-clockwise when x and y are non-zero. Negating x or y gives the same square. |
| ProtoShapes.CircleVerticesShape | src/shapes.rs:279-296 | There are 1025 vertices. The first is the white centre `(x, y)`, with no absolute value taken. Then come the ring vertices at radius 0.5, using 6.28 for a turn, in the ring colour. |
| ProtoShapes.CircleBundle | src/shapes.rs:279-318 | The loops build the circle's vertices and the fan indices, and the bundle draws all 3072 of them. |
| ProtoRenderers.CircleAtShape | src/renderers/circle.rs:73-135 | The size is 0.3 and the centre is unchanged. There are 1025 vertices, centre first, and 3072 indices, all at most 1023. Each triangle starts at 0, the last is `(0, 1023, 1)`, and every index is drawn. |
| ProtoRenderers.NewCircle | src/renderers/circle.rs:14-136 | The vertex and index loops build exactly the circle `CircleAt` describes. |
| ProtoRenderers.RectangleShape | src/renderers/rectangle.rs:73-128 | The size is 0.3. The stored centre is `(abs(x), abs(y))`, which equals the input exactly when neither input is negative. The bundle is the one `create_square_bundle` records, with 6 indices drawn. |
| ProtoApp.Nudge | src/main.rs:118-133 | An arrow moves the centre along one axis by exactly 0.05. Left and Right move x and leave y; Up and Down move y. Only Left increases x, and only Up increases y. |
| ProtoApp.Next | src/main.rs:134-166 | The shape advances one kind: circle to square, square to cross, cross to circle. It is placed at the given centre, with the fixed sizes of its new kind: a square of size 0.3, a cross of size 0.3 with lines 0.132, a circle of radius 0.2. |
| ProtoApp.ThreePressesReturn | src/main.rs:134-166 | Three presses return the shape to its kind, and the fourth press gives the same shape as the first. |
| ProtoApp.Rebuilt | src/main.rs:175-195 | A rebuilt bundle has the kind of the shape. |
| ProtoApp.App.constructor | src/main.rs:77-100 | The shape is a circle of radius 0.2 at `(0.7, 0.7)`, drawn by a circle built there. No rebuild is pending and `i` is 0. |
| ProtoApp.App.Resize | src/main.rs:104-111 | A new size is adopted only when both sides are positive. Nothing else changes. |
| ProtoApp.App.Update | src/main.rs:113-172 | A pressed arrow moves the centre and keeps the shape. Any other press advances the shape at the current centre. Both set the rebuild flag. Releases and other events change nothing. The bundle never changes here. Whenever no rebuild is pending, the bundle is still the one for the current shape and centre. |
| ProtoApp.App.FrameCalls | src/main.rs:209-228 | A frame clears to `(0.1, 0.2, 0.3, 1)`, draws the bundle, then the start-up picture on top. |
| ProtoApp.App.Render | src/main.rs:174-235 | A pending rebuild replaces the bundle with the one for the shape's kind at the current centre, and clears the flag. This happens before the surface is asked for a texture, so it holds even when the frame fails. Without a pending rebuild the bundle is kept. |
| ProtoApp.OnWindowEvent | src/main.rs:274-299 | Exits, changing nothing, exactly on a close request or a pressed Escape, so Escape never cycles the shape. Resizes and scale changes only resize. Every other event is `update`. |
| ProtoApp.OnRedraw | src/main.rs:300-314 | Renders. A lost surface is reconfigured, running out of memory exits, and the drawn bundle afterwards matches the shape. |
| ProtoApp.ListenJson | src/main.rs:249-270 | One `"Start"` event is sent for each connection whose message parses. |
| ProtoApp.StartedAppend | src/main.rs:252-262 | The events of a list of connections are those of its first part plus those of the rest. |
| ProtoApp.ParseFailureSkipped | src/main.rs:258-262 | A message that fails to parse sends no event and does not stop the connections after it. |

## Left out

- GPU work is modelled as the calls made on a render pass or recorded into a bundle. Devices, shaders, pipelines, buffer uploads, surface configuration and presentation are not modelled. The pass is a sequence of calls that each `render` extends, in place of the `&mut RenderPass`.
- The Protocol Buffers decoding (prost) and the JSON parsing (serde_json) are function parameters that may reject their input. The wire formats are not modelled.
- Sockets and threads are modelled sequentially.
  - Each connection is the bytes its peer sends before closing. Writes always succeed in full, and `flush` is not modelled.
  - `peer_addr` and failing `accept`s (`stream.unwrap()`) are not modelled.
  - The endless listener loop is modelled over a finite list of accepted connections.
  - The two threads' accesses to the bucket are performed one after the other. Interleavings are not modelled.
- Window and event plumbing is not modelled: window creation, fullscreen and monitor selection, command-line parsing, logging, frame timing, cursor grabbing, and the `UserEvent` printing.
- Floating point is not modelled.
  - Coordinates and colours are exact reals, with no `f32` rounding.
  - The `f32` to `f64` colour casts are identities.
  - `cos` and `sin` stay uninterpreted.
  - The z coordinate of prototype vertices, always 0, is dropped.
- Indices are unbounded naturals. Their `u16` width is not modelled; every index stays below 1025.
- Decoding texture data into an image is not modelled: a picture is recorded by its bytes. The prototype's start-up picture is one fixed draw.
- vsg-core's `Cross::new` takes its centre and size as two `Coordinates`, while `update_shape` passes scalars (vsg-core/src/main.rs:153-162). The model builds the cross with centre `(x, y)` and size `(size, size)`, so both bars are `size` long.
- CoreState.Drain, CoreState.MainEventsCleared: texture bytes are always accepted in the model. vsg-core's `Picture::new` is not part of this model, and an undecodable texture may panic while the lock is held, which would poison it; the panic conditions these two state leave that case out.
- src/renderers/cross.rs and src/renderers/image.rs are not part of this model. The prototype's cross is recorded only by the centre it is built at.
