# scene-viewer input and option parsing, modelled in Dafny

scene-viewer is a demo application that flies a camera through a glTF scene
rendered by rend3, and renders a 2D puppet into an off-screen texture (the
copy onto the frame is commented out at src/lib.rs:839-854). Almost all of src/lib.rs is
glue around external renderers. This project models the two parts that are
the application's own logic:

1. **The command-line value parsers.** `extract_backend`, `extract_profile`,
   `extract_msaa` and `extract_vsync` turn a flag value into an enumeration
   or a fixed error text. `extract_array::<N>` and `extract_vec3` parse
   fixed-arity comma-separated lists of floats. The `--camera x,y,z,pitch,yaw`
   flag uses `extract_array::<5>`, and the Period key prints the camera pose
   in that same format. The model proves that this print/parse round trip
   works.
2. **The input-state machine in `SceneViewer::handle_event`.** This is the
   key-status map read by `button_pressed`, the pointer grab (taken by a left
   click, dropped by focus loss or by Escape held at a tick), the gating of
   mouse motion by the grab, and the absolute-mouse seed buffer
   `last_mouse_delta`.

Files (one module each):

- `wrappers.dfy`: `Option` and `Result`.
- `text.dfy`: `str::trim` (Unicode White_Space), `str::to_lowercase` and
  `str::split(',')` as sequence functions, with lemmas: the shape of a trim,
  lowercasing idempotent, the piece count is the comma count plus one, and
  split and join are inverse.
- `cli_options.dfy`: the four enumeration parsers. `extract_backend` and
  `extract_profile` are proved against reference tables of the names they
  accept (`BackendNames`, `ProfileNames`); the lemmas about `extract_msaa` and
  `extract_vsync` list their accepted names inline.
- `fixed_arity.dfy`: `extract_array` and `extract_vec3` as methods with the
  source's loop over the pieces. Each is proved equal to a specification
  function, and lemmas state the count check, the parse of each piece and
  the parse-back of joined renderings.
- `viewer.dfy`: the pure step function `Handle` and its fold `Run`, and the
  class `SceneViewer`. The class has one method per event branch, and its
  `HandleEvent` is proved to equal `Handle`. Lemmas cover key recording,
  grab gating, motion gating, the seed buffer and the pose round trip.

Abstractions:

- **Floats.** f32 values are an abstract type `F`. `str::parse::<f32>` is a
  parameter `parse: string -> Option<F>`, and f32 `Display` is a parameter
  `show: F -> string`.
- **Camera maths.** The mouse-look angle update (scale by 1/1000, yaw wrap,
  pitch clamp) is the parameter `look`. The movement integration (Euler
  basis, walk/run speed, elapsed time) is the parameter `travel`. Both live
  in `Viewer.Platform`, together with the platform's ESCAPE and PERIOD
  scancodes. src/platform.rs is not part of this model.
- **Mouse samples.** The f64 mouse deltas are `real` values.
- **The grabber.** `rend3_framework::Grabber` is not part of this model. The
  flag `grabbed` assumes `request_grab` sets the grabber's state to grabbed
  and `request_ungrab` clears it. Each event also reports the request it
  makes (`GrabRequest`), so the model shows that a click while grabbed makes
  no request, while focus loss and Escape make one even when nothing is
  grabbed.
- **The round trip.** It assumes that each printed float renders without ','
  and without surrounding white space, and parses back to itself
  (`RendersExactly`). The trailing newline of `println!` is not part of the
  pasted flag value.

Two behaviours of the code that the model makes explicit:

- The code never clears `last_mouse_delta` after start-up (src/lib.rs:467,
  930), so only the very first grabbed absolute-mode sample is swallowed, not
  the first after each re-grab (`SeedPersists`, `RegrabDoesNotReseed`).
- The single if/else yaw wrap (src/lib.rs:942-946) does not keep yaw in
  [0, 2π) for large deltas. The model keeps the angles abstract and claims
  nothing about their range.

## Model

| member | source | states |
|---|---|---|
| `Text.TrimStartShape` | src/lib.rs:193 | trim_start keeps a suffix of its input, drops only white space, and what it keeps does not start with white space |
| `Text.TrimEndShape` | src/lib.rs:193 | trim_end keeps a prefix of its input, drops only white space, and what it keeps does not end with white space |
| `Text.TrimShape` | src/lib.rs:193 | trim returns a contiguous slice s[i..j], everything outside it is white space, and the slice has no white space at either end |
| `Text.TrimUnchanged` | src/lib.rs:209 | a piece with no white space at either end is its own trim |
| `Text.Lower` | src/lib.rs:149 | the model's lower-casing keeps the length and lowercases character by character |
| `Text.LowerIdempotent` | src/lib.rs:160 | lowercasing an already lowercased value changes nothing |
| `Text.LowerFixed` | src/lib.rs:176 | a value with no A-Z and no U+212A is its own lower case (in the model's lower-casing) |
| `Text.Split` | src/lib.rs:186 | split(',') yields exactly one piece more than there are commas, so "" is one piece |
| `Text.SplitSeparatorFree` | src/lib.rs:186 | no piece of split(',') contains a ',' |
| `Text.JoinSplit` | src/lib.rs:202 | joining the pieces with the separator gives back the input |
| `Text.SplitJoin` | src/lib.rs:186 | splitting a join of separator-free pieces gives back those pieces |
| `CliOptions.ExtractBackendNames` | src/lib.rs:148-157 | extract_backend gives backend b exactly when the lowered value is one of b's names: vulkan/vk, dx12/12, dx11/11, metal/mtl, opengl/gl |
| `CliOptions.ExtractBackendRejects` | src/lib.rs:148-157 | extract_backend fails exactly when the lowered value is no backend's name, and then the error is "unknown backend" |
| `CliOptions.ExtractProfileNames` | src/lib.rs:159-165 | extract_profile gives CpuDriven exactly for legacy/c/cpu and GpuDriven exactly for modern/g/gpu, in any case |
| `CliOptions.ExtractProfileRejects` | src/lib.rs:159-165 | extract_profile fails exactly on every other value, and then the error is "unknown rendermode" |
| `CliOptions.CaseInsensitive` | src/lib.rs:148-182 | extract_backend, extract_profile and extract_vsync give the same result for a value and for its lower case |
| `CliOptions.KelvinSignSelectsVulkan` | src/lib.rs:149 | "VULKAN" and "V" followed by U+212A KELVIN SIGN both select Vulkan, because both lowercase to a Vulkan name |
| `CliOptions.ExtractMsaaExact` | src/lib.rs:167-173 | extract_msaa accepts exactly "1" (One) and "4" (Four), without lowercasing or trimming; anything else gives "invalid msaa count" |
| `CliOptions.ExtractVsyncExact` | src/lib.rs:175-182 | extract_vsync accepts exactly immediate, fifo and mailbox in any case, never gives FifoRelaxed, and errors with "invalid msaa count" |
| `CliOptions.FifoRelaxedRefused` | src/lib.rs:175-182 | the help text's "fifo_relaxed" is refused, with the msaa error text |
| `CliOptions.ExtractVsyncIntendedCorrect` | src/lib.rs:268 | the corrected parser accepts exactly the four advertised mode names, errors with a vsync message, and agrees with the original wherever the original succeeds |
| `FixedArity.ParsePieces` | src/lib.rs:191-196 | all trimmed pieces parse exactly when the result is present, and then it holds their values in order |
| `FixedArity.ExtractArray` | src/lib.rs:184-198 | the loop over the pieces, starting from the default array, computes the specification ArrayValue for N = length of the default, so the default never shows in a result |
| `FixedArity.ExtractVec3` | src/lib.rs:200-214 | the same loop with three zero slots computes Vec3Value |
| `FixedArity.ArrayCountError` | src/lib.rs:184-190 | extract_array fails with "Mismatched argument count" exactly when commas + 1 differs from N, before any piece is parsed |
| `FixedArity.FixedArityParsed` | src/lib.rs:191-197 | shared by both parsers: with the right count, Ok exactly when every trimmed piece parses, holding their parses in order, else the given parse error |
| `FixedArity.ArrayParsed` | src/lib.rs:191-197 | with the right count, Ok exactly when every trimmed piece parses, result[i] is the parse of piece i, and otherwise the error is "Cannot parse argument number" |
| `FixedArity.Vec3CountError` | src/lib.rs:200-206 | extract_vec3 fails with "Directional lights are defined with 3 values" exactly when the value does not have two commas |
| `FixedArity.Vec3Parsed` | src/lib.rs:207-213 | with three pieces, Ok exactly when all three parse, x, y and z are their parses, and otherwise the error is "Cannot parse direction number" |
| `FixedArity.JoinedValuesParseBack` | src/lib.rs:184-197 | renderings free of ',' and of edge white space that parse back, once joined with ',', come back as the same values |
| `Viewer.KeyEventSetsOnlyItsKey` | src/lib.rs:891-897 | a key event records Pressed as true and Released as false for its scancode, and changes no other key and no other field |
| `Viewer.ButtonPressedIsLastRecorded` | src/lib.rs:144-146 | after any events, button_pressed is the state of the latest key event for that key, or the earlier value if there was none |
| `Viewer.NeverSeenKeyNotPressed` | src/lib.rs:459 | starting from the empty map, a key that no event has mentioned reads as not pressed |
| `Viewer.GrabGating` | src/lib.rs:860-914 | a grab is requested exactly on a left press while not grabbed; an ungrab exactly on focus loss or a tick with Escape held (lines 717-719); the grab flag follows the request |
| `Viewer.UngrabbedMotionIgnored` | src/lib.rs:923-925 | any number of mouse-motion events while not grabbed leave the whole state unchanged, including angles and last_mouse_delta |
| `Viewer.SeedPersists` | src/lib.rs:929-935 | once last_mouse_delta holds a sample it holds one after any events: ungrab and re-grab do not clear it |
| `Viewer.RelativeModeKeepsSeed` | src/lib.rs:929-938 | the mouse mode never changes, and in relative mode last_mouse_delta is never touched |
| `Viewer.RegrabDoesNotReseed` | src/lib.rs:929-935 | in absolute mode the first grabbed sample only seeds the buffer; after an ungrab and a re-grab the next sample is differenced against it, divided by 4 |
| `Viewer.PoseLineIsJoin` | src/lib.rs:706-714 | the printed pose is the five renderings x, y, z, pitch, yaw joined with ',' |
| `Viewer.PoseLineRoundTrip` | src/lib.rs:381-385 | the printed pose passed as --camera parses to [x, y, z, pitch, yaw], and camera_info 0-2, 3 and 4 give back location, pitch and yaw (lines 460-462) |
| `Viewer.PrintedPoseRestores` | src/lib.rs:706-714 | a tick prints the pose line exactly when Period is held, prints the pose it leaves, and that line restores the pose at start-up |
| `Viewer.SceneViewer.constructor` | src/lib.rs:455-469 | a new viewer has no recorded keys, is not grabbed, has no mouse sample, and takes its pose from camera_info |
| `Viewer.SceneViewer.HandleKey` | src/lib.rs:869-898 | the key-event branch updates only the scancode's entry |
| `Viewer.SceneViewer.HandleMouseButton` | src/lib.rs:900-914 | a left press grabs when not grabbed; any other button event changes nothing |
| `Viewer.SceneViewer.HandleFocus` | src/lib.rs:860-867 | focus loss requests an ungrab and clears the grab, focus gain changes nothing |
| `Viewer.SceneViewer.HandleMouseMotion` | src/lib.rs:915-951 | motion is dropped unless grabbed; in absolute mode the sample is stored, the first one is swallowed and later ones give (current - previous)/4; in relative mode the raw delta goes to look |
| `Viewer.SceneViewer.HandleTick` | src/lib.rs:640-736 | a tick moves the camera, prints the pose line if Period is held, and ungrabs if Escape is held; nothing else changes |
| `Viewer.SceneViewer.HandleEvent` | src/lib.rs:627-960 | dispatching an event changes the fields, requests and prints exactly as the step function Handle says |

## Findings

| source | as written | input that shows it | evidently intended | confidence | as-written member | corrected member |
|---|---|---|---|---|---|---|
| src/lib.rs:175-182 | extract_vsync accepts only immediate, fifo and mailbox | `--vsync fifo_relaxed`, which the help text at line 268 advertises as adaptive vsync, is refused | "fifo_relaxed" selects FifoRelaxed | medium, not executed | `CliOptions.FifoRelaxedRefused` | `CliOptions.ExtractVsyncIntendedCorrect` |
| src/lib.rs:180 | a wrong vsync value gets the error text "invalid msaa count" | `--vsync foo` | an error that names the vsync mode | medium, not executed | `CliOptions.ExtractVsyncExact` | `CliOptions.ExtractVsyncIntendedCorrect` |

Nothing else in the model calls the option parsers, so the corrected parser
changes nothing elsewhere.

## Left out

- Asset loading (`load_skybox_image`, `load_skybox`, `load_gltf`, the puppet's `parse_inp`): async I/O and external decoders.
- Rendering and windowing (the RedrawRequested branch, `setup`, `create_window`, `main`, surface handling): GPU and window calls into rend3, wgpu, inox2d and winit. These events are `OtherEvent` in the model and change none of its fields.
- Camera kinematics: the Euler basis, the movement integration, the yaw wrap and the pitch clamp. This is f32 vector and trigonometry maths, so the model takes it as the parameters `look` and `travel`. No claim is made about the range of yaw or pitch.
- The `log::info!` trace of each key's scancode (src/lib.rs:890): logging only, it changes no state.
- Frame-time statistics and their once-a-second print: an external histogram crate and wall-clock time.
- The chrome-trace dump on the P key and `spawn`: file I/O and threads.
- `option_arg`, pico_args plumbing and the `process::exit` paths. Only the `extract_*` functions they call are modelled. `CameraInfo` models the `--camera` read, and an `Err` from it stands for the `unwrap` panic.
- The f32 parser and the f32 `Display` rendering: they are the abstract parameters `parse` and `show`.
- Scancode lookup (`to_scancode(...).unwrap()` natively, 0 for an unidentified key on wasm): the model's key event already carries the scancode.
- The grabber being `None` before `setup`, where the `unwrap` would panic: the model starts from a viewer that is set up and not grabbed.
- Text.Lower: it maps only A-Z and U+212A KELVIN SIGN. Every other character is left as it is, so the other Unicode case mappings (such as U+0130 to "i" plus U+0307) are not modelled. None of those mappings produces a name any parser accepts.
- Viewer.SceneViewer.HandleMouseMotion: f64 rounding of the mouse-delta difference is not modelled, because the samples are `real` values.
