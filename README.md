# birbdance core, modelled in Dafny

birbdance is a small WebGL demo. It tiles a grid of animated bird sprites that share one
textured quad. Each sprite steps through a horizontally tiled sprite sheet, and sprites
near the mouse pointer animate faster. This project models the arithmetic and the state
machines of `script.js`, and proves properties about them:

- **Vertex layout** (`vertex_buffer.dfy`, module `VertexBuffers`):
  - `VertexAttribute` is an immutable value with a byte length of item count × item size.
  - `AttributedVertexBuffer` folds its attribute list into a total stride and an
    items-per-vertex count, and derives the vertex count from them.
  - `ApplyAttributes` gives every attribute the shared stride and a byte offset that
    accumulates as it goes.
  - `Draw` issues one triangle-fan draw of all the vertices.
  - The demo's own layout is a concrete case: two vec2 float attributes over a
    16-float square.
- **Sprite animation clock** (`animated_sprite.dfy`, module `Sprites`):
  - `shift_time` accumulates time and drains whole frame durations with a strict `>`
    test, one frame step each. It then wraps the frame index by repeated subtraction.
  - The sprite's draw uploads the current frame's offset and width in the sheet.
- **Texture decisions** (`textures.dfy`, module `Textures`):
  - the `(v & (v - 1)) == 0` power-of-two test, on JavaScript's 32-bit patterns;
  - the mipmap/filter/wrap parameters chosen when the image arrives;
  - `bind`'s eight-entry table of texture units.

GL calls are not effects here. Every operation that talks to the graphics context returns
the list of calls it would issue, in order, as `Gl.GlCall` values (`gl.dfy`). Time is
exact (`real`), and frame counts and indices are natural numbers.

Where the code's behaviour is not what a reader might expect, the model follows the code:

- Under exact arithmetic, the demo's sprite (20 frames of 1/30 s) ends on frame 9 after
  one second from rest, not on frame 10. The strict `>` stops draining when exactly one
  frame duration is left (`ShiftedOneSecond`). This holds for exact arithmetic only. In
  IEEE doubles, `1.0/30` rounds to slightly less than 1/30, so after 29 subtractions
  slightly more than one rounded duration is left. A 30th drain follows, and the same
  input lands on frame 10 with about 2e-16 s pending.
- Power-of-two textures are not given repeat wrapping. The code clamps to the edge and
  uses LINEAR magnification in both branches. The only difference between the branches is
  mipmap generation versus a LINEAR minification filter.
- Attribute offsets are only non-decreasing in general. They strictly increase when
  every attribute but the last has a positive byte length; `OffsetsStrictlyIncrease`
  states this for lists where every attribute does.
- The power-of-two test also accepts 0.

## Model

| member | source | states |
|---|---|---|
| `Textures.Low32` | script.js:58 | the bit pattern JavaScript's `&` sees is below 2^32, equals the value for values in [0, 2^32), and is all ones for -1 |
| `Textures.BitAndPredecessor` | script.js:57-59 | for v ≥ 1, v and v - 1 share no set bit exactly when v is a power of two (described by halving) |
| `Textures.IsPowerOf2Exactly` | script.js:57-59 | for every value in [0, 2^32), `isPowerOf2` is true exactly when the value is 0 or 2^k for some k |
| `Textures.ImageFilterCalls` | script.js:61-71 | mipmaps are generated exactly when both sides pass the test; otherwise, and only then, MIN_FILTER is set to LINEAR; in both cases the call is followed by CLAMP_TO_EDGE wrap on S and T and LINEAR magnification |
| `Textures.MipmapsExactlyForPowerOfTwoSides` | script.js:61-63 | for image sides in [0, 2^32), mipmaps are generated exactly when each side is 0 or a power of two |
| `Textures.BindCalls` | script.js:81-95 | for a unit in 0..7, the table lookup activates TEXTURE0 + unit, then binds the texture handle to TEXTURE_2D |
| `VertexBuffers.StrideSumAppend` | script.js:129-132 | the stride fold over a concatenated attribute list is the sum of the folds over its parts |
| `VertexBuffers.UniformWidthStride` | script.js:110-112 | when every item has the same byte size w, the total stride (sum of count × size) is w × the items per vertex |
| `VertexBuffers.OffsetStep` | script.js:144-152 | the offset of attribute j is the offset of attribute i plus the byte lengths of the attributes in between |
| `VertexBuffers.OffsetsLayout` | script.js:141-152 | offsets start at 0; each attribute ends at or before the offset of any later one; no attribute reaches past the stride; the offset after the last attribute equals the stride |
| `VertexBuffers.OffsetsStrictlyIncrease` | script.js:141-152 | when every attribute has a positive byte length, later attributes have strictly larger offsets |
| `VertexBuffers.ConfigureCallsAt` | script.js:141-155 | in the call list that configures an attribute list at a shared stride, call 2i sets attribute i's pointer with its own count, type and normalize flag at the prefix-sum offset, and call 2i + 1 enables it |
| `VertexBuffers.AttributedVertexBuffer.constructor` | script.js:117-138 | the stored stride is the in-order sum of byte lengths; items per vertex is the sum of item counts; the vertex count is the data length divided by items per vertex |
| `VertexBuffers.AttributedVertexBuffer.ApplyAttributes` | script.js:141-155 | the calls issued are the configuration of the buffer's attribute list at its total stride: attributes are processed in list order; each gets a pointer call with its own count, type and normalize flag, the shared total stride, and the prefix-sum offset; each is enabled right after its pointer is set |
| `VertexBuffers.AttributedVertexBuffer.Draw` | script.js:158-161 | binds the buffer, then draws a triangle fan from index 0 whose vertex count × items per vertex is exactly the uploaded data length |
| `VertexBuffers.SetupSquareBuffer` | script.js:319-336 | the demo's two `FLOAT, 2, 4` attributes over the 16-float square give stride 16, 4 items per vertex and 4 vertices; the pointer offsets are 0 and 8 |
| `Sprites.DurationsIsProduct` | script.js:233-236 | draining k frames one subtraction at a time removes k × the frame duration |
| `Sprites.DrainsLeftover` | script.js:233-236 | after the drain loop at most one frame duration is left; nothing is drained exactly when the accumulated time is at most one frame; when something is drained the remainder is positive |
| `Sprites.DrainsUnique` | script.js:233-236 | the number of drains is the only frame count whose removal leaves a time in (0, time per frame] |
| `Sprites.ShiftedBounds` | script.js:229-242 | after `shift_time` the frame index is in [0, num_frames) and the pending time is at most one frame duration; a positive (non-negative) accumulated time leaves a positive (non-negative) remainder |
| `Sprites.ShiftedNoAdvance` | script.js:233 | an accumulated time of at most one frame duration, including exactly one, does not advance the frame |
| `Sprites.ShiftedAdvances` | script.js:229-242 | conservation: if old time + added time = remainder + k × time per frame with the remainder in (0, time per frame], the new frame is (old frame + k) mod num_frames and the new time is that remainder |
| `Sprites.ShiftedSplit` | script.js:229-242 | shifting by a and then by a non-negative b ends in the same frame and time as shifting once by a + b |
| `Sprites.ShiftedOneSecond` | script.js:351 | the demo's clock (20 frames, 1/30 s each), given 1 s from rest, ends on frame 9 with 1/30 s pending |
| `Sprites.FrameSliceInSheet` | script.js:220-221 | for frame f < n, the offset (1/n) × f equals f/n, lies in [0, 1), and the slice f/n + 1/n ends within the sheet |
| `Sprites.AnimatedSprite.constructor` | script.js:166-194 | a new sprite is on frame 0 with no pending time and a frame width of 1/num_frames |
| `Sprites.AnimatedSprite.ShiftTime` | script.js:229-242 | the new frame and time are those of `Shifted` applied to the old frame and time; the frame index stays in range and the pending time stays at most one frame duration |
| `Sprites.AnimatedSprite.FrameOffset` | script.js:220 | the uploaded offset, frame_width × curr_frame, is curr_frame / num_frames, lies in [0, 1), and offset + frame width ≤ 1 |
| `Sprites.AnimatedSprite.Draw` | script.js:212-226 | binds the texture on the diffuse unit 0, uploads the model matrix, uploads (curr_frame / num_frames, 1 / num_frames) as the frame info, then draws the shared buffer's full vertex count from index 0 |
| `Sprites.DemoSpriteOneSecond` | script.js:351 | a demo sprite over the demo buffer, shifted by one second, rests on frame 9 with 1/30 s pending; it uploads frame info (9/20, 1/20) and draws 4 vertices |

## Left out

- Creating and filling GL objects is not modelled: `createBuffer`, `bindBuffer` and `bufferData` in the buffer constructor, and `createTexture` with its placeholder pixel upload. The handles are constructor or function parameters.
- Image loading is not modelled: the `Image` object, its asynchronous `onload` callback and the `texImage2D` upload of the image. Only the power-of-two decision and the parameters set after it are modelled.
- The texture handle that `bind` uses is stored on the global object (`self.tex`), not on the texture instance. The model passes the bound handle as a parameter and keeps no per-texture state.
- `Textures.IsPowerOf2Exactly`: stated for values in [0, 2^32) only; JavaScript's conversion of non-integer or larger numbers to 32 bits is not modelled.
- `Textures.BindCalls`: requires a unit index in 0..7. Any other index reads past the eight-entry table, and the source then passes `undefined` to `activeTexture`.
- `VertexBuffers.AttributedVertexBuffer.constructor`: requires a positive number of items per vertex that divides the data length. The code does not check this; it would store a fractional, infinite or NaN vertex count.
- The `TODO` in `apply_attributes` (disabling other attributes) is not implemented in the source and is not modelled.
- `Sprites.AnimatedSprite.constructor`: requires num_frames > 0 and time_per_frame > 0. The code's guard only logs a warning. With a zero frame duration the drain loop never ends for positive time, and with zero frames the wrap loop never ends.
- `update_model`, the translation and scale vectors and the model matrix are floating-point geometry and are not modelled. The sprite's draw logs the matrix upload without its contents.
- `Sprites.ShiftedOneSecond`: proved for exact real time. When the accumulated time is an exact multiple of the frame duration, the strict `>` test sits on the boundary, and once doubles round, the code can end one frame later. With the demo's 1/30 s frames and one second, the code lands on frame 10, not frame 9. The same applies to `Sprites.DemoSpriteOneSecond`.
- Time is exact `real` arithmetic, not IEEE doubles, and frame counts and indices are natural numbers. Rounding in the repeated subtractions is not modelled.
- The scene loop is not modelled: `startup` beyond the buffer setup, shader compile and link helpers, `animateScene` and `requestAnimationFrame` scheduling, projection and viewport updates, mouse-coordinate mapping, the proximity factor (`vec2.distance`, `Math.pow`), and the float grid placement of sprites. These are host I/O and floating-point computations.
