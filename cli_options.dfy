/**
 * The option-value parsers of src/lib.rs that turn a flag's string into
 * one of the renderer's enumerations: `extract_backend`, `extract_profile`,
 * `extract_msaa` and `extract_vsync`.
 */
module CliOptions {
  import opened Wrappers
  import opened Text

  /** The backends `--backend` can name (wgpu's `Backend`). */
  datatype Backend = Vulkan | Dx12 | Dx11 | Metal | Gl

  /** rend3's `RendererProfile`. */
  datatype RendererProfile = CpuDriven | GpuDriven

  /** rend3's `SampleCount`. */
  datatype SampleCount = One | Four

  /** The present modes of wgpu's `PresentMode` that the help text names. */
  datatype PresentMode = Immediate | Fifo | FifoRelaxed | Mailbox

  const UNKNOWN_BACKEND := "unknown backend"
  const UNKNOWN_RENDERMODE := "unknown rendermode"
  const INVALID_MSAA := "invalid msaa count"

  /** `extract_backend`: the lower-cased value against the backend names. */
  function ExtractBackend(value: string): Result<Backend, string> {
    match Lower(value)
    case "vulkan" | "vk" => Ok(Vulkan)
    case "dx12" | "12" => Ok(Dx12)
    case "dx11" | "11" => Ok(Dx11)
    case "metal" | "mtl" => Ok(Metal)
    case "opengl" | "gl" => Ok(Gl)
    case _ => Err(UNKNOWN_BACKEND)
  }

  /** `extract_profile`: the lower-cased value against the profile names. */
  function ExtractProfile(value: string): Result<RendererProfile, string> {
    match Lower(value)
    case "legacy" | "c" | "cpu" => Ok(CpuDriven)
    case "modern" | "g" | "gpu" => Ok(GpuDriven)
    case _ => Err(UNKNOWN_RENDERMODE)
  }

  /** `extract_msaa`: the value itself, not lower-cased, against "1" and "4". */
  function ExtractMsaa(value: string): Result<SampleCount, string> {
    match value
    case "1" => Ok(One)
    case "4" => Ok(Four)
    case _ => Err(INVALID_MSAA)
  }

  /**
   * `extract_vsync` as written: three lower-cased names, and on any other
   * value the error text of the msaa parser.
   */
  function ExtractVsync(value: string): Result<PresentMode, string> {
    match Lower(value)
    case "immediate" => Ok(Immediate)
    case "fifo" => Ok(Fifo)
    case "mailbox" => Ok(Mailbox)
    case _ => Err(INVALID_MSAA)
  }

  // Reference tables: the names each flag documents for each value.

  function BackendNames(b: Backend): set<string> {
    match b
    case Vulkan => {"vulkan", "vk"}
    case Dx12 => {"dx12", "12"}
    case Dx11 => {"dx11", "11"}
    case Metal => {"metal", "mtl"}
    case Gl => {"opengl", "gl"}
  }

  function ProfileNames(p: RendererProfile): set<string> {
    match p
    case CpuDriven => {"legacy", "c", "cpu"}
    case GpuDriven => {"modern", "g", "gpu"}
  }

  /** `extract_backend` yields `b` exactly for the names of `b`, in any case. */
  lemma ExtractBackendNames(value: string, b: Backend)
    ensures ExtractBackend(value) == Ok(b) <==> Lower(value) in BackendNames(b)
  {
  }

  /** `extract_backend` fails, with its one error text, exactly on the names of no backend. */
  lemma ExtractBackendRejects(value: string)
    ensures ExtractBackend(value).Err? <==> forall b: Backend :: Lower(value) !in BackendNames(b)
    ensures ExtractBackend(value).Err? ==> ExtractBackend(value).error == UNKNOWN_BACKEND
  {
    if ExtractBackend(value).Ok? {
      ExtractBackendNames(value, ExtractBackend(value).value);
    }
  }

  /** `extract_profile` yields `p` exactly for the names of `p`, in any case. */
  lemma ExtractProfileNames(value: string, p: RendererProfile)
    ensures ExtractProfile(value) == Ok(p) <==> Lower(value) in ProfileNames(p)
  {
  }

  /** `extract_profile` fails, with its one error text, exactly on the names of no profile. */
  lemma ExtractProfileRejects(value: string)
    ensures ExtractProfile(value).Err? <==> forall p: RendererProfile :: Lower(value) !in ProfileNames(p)
    ensures ExtractProfile(value).Err? ==> ExtractProfile(value).error == UNKNOWN_RENDERMODE
  {
    if ExtractProfile(value).Ok? {
      ExtractProfileNames(value, ExtractProfile(value).value);
    }
  }

  /** Case does not matter to the two lower-casing parsers. */
  lemma CaseInsensitive(value: string)
    ensures ExtractBackend(Lower(value)) == ExtractBackend(value)
    ensures ExtractProfile(Lower(value)) == ExtractProfile(value)
    ensures ExtractVsync(Lower(value)) == ExtractVsync(value)
  {
    LowerIdempotent(value);
  }

  /** U+212A KELVIN SIGN lower-cases to 'k', so "VK" selects Vulkan. */
  lemma KelvinSignSelectsVulkan()
    ensures ExtractBackend("V\U{212A}") == Ok(Vulkan)
    ensures ExtractBackend("VULKAN") == Ok(Vulkan)
  {
    assert Lower("V\U{212A}") == "vk";
    assert Lower("VULKAN") == "vulkan";
  }

  /** `extract_msaa` accepts exactly "1" and "4", so it is case- and space-sensitive. */
  lemma ExtractMsaaExact(value: string)
    ensures ExtractMsaa(value) == Ok(One) <==> value == "1"
    ensures ExtractMsaa(value) == Ok(Four) <==> value == "4"
    ensures ExtractMsaa(value).Err? <==> value != "1" && value != "4"
    ensures ExtractMsaa(value).Err? ==> ExtractMsaa(value).error == INVALID_MSAA
  {
  }

  /** `extract_vsync` accepts exactly immediate, fifo and mailbox, in any case. */
  lemma ExtractVsyncExact(value: string)
    ensures ExtractVsync(value) == Ok(Immediate) <==> Lower(value) == "immediate"
    ensures ExtractVsync(value) == Ok(Fifo) <==> Lower(value) == "fifo"
    ensures ExtractVsync(value) == Ok(Mailbox) <==> Lower(value) == "mailbox"
    ensures ExtractVsync(value) != Ok(FifoRelaxed)
    ensures ExtractVsync(value).Err? ==> ExtractVsync(value).error == INVALID_MSAA
  {
  }

  /** The adaptive mode the help text advertises is refused, with the msaa error text. */
  lemma FifoRelaxedRefused()
    ensures ExtractVsync("fifo_relaxed") == Err("invalid msaa count")
  {
    LowerFixed("fifo_relaxed");
  }

  const INVALID_VSYNC := "invalid vsync mode"

  /**
   * `extract_vsync` as its help text describes it: all four advertised
   * modes, and an error text that names the vsync flag.
   */
  function ExtractVsyncIntended(value: string): Result<PresentMode, string> {
    match Lower(value)
    case "immediate" => Ok(Immediate)
    case "fifo" => Ok(Fifo)
    case "fifo_relaxed" => Ok(FifoRelaxed)
    case "mailbox" => Ok(Mailbox)
    case _ => Err(INVALID_VSYNC)
  }

  function PresentModeName(m: PresentMode): string {
    match m
    case Immediate => "immediate"
    case Fifo => "fifo"
    case FifoRelaxed => "fifo_relaxed"
    case Mailbox => "mailbox"
  }

  /**
   * The corrected parser reads back every mode's advertised name, in any
   * case, refuses everything else with a vsync error, and agrees with the
   * parser as written wherever that one succeeds.
   */
  lemma ExtractVsyncIntendedCorrect(value: string, m: PresentMode)
    ensures ExtractVsyncIntended(value) == Ok(m) <==> Lower(value) == PresentModeName(m)
    ensures ExtractVsyncIntended(value).Err? ==> ExtractVsyncIntended(value).error == INVALID_VSYNC
    ensures ExtractVsync(value).Ok? ==> ExtractVsyncIntended(value) == ExtractVsync(value)
  {
  }
}
