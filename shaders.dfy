/**
 * The fragment-shader variants of the viewer and the three switch tables that
 * depend on the selected one (a9.js: the Shaders enum, the fragment file
 * loaded, the uniform that receives the slider value, and the slider caption).
 */
module Shaders {
  import opened Wrappers

  /** The four effect variants. */
  datatype Shader = GreenShift | Wavy | Cross | Noisy

  /** The variant the viewer is configured with. */
  const CURRENT_SHADER: Shader := Noisy

  /** The number each variant stands for in the enum object. */
  function Code(s: Shader): int {
    match s
    case GreenShift => 0
    case Wavy => 1
    case Cross => 2
    case Noisy => 3
  }

  /**
   * The variant a selector number stands for: exactly the numbers 0 to 3 name
   * a variant (any other value matches no case of the switches), and the
   * variant found has that number.
   */
  function FromCode(code: int): (r: Option<Shader>)
    ensures r.Some? <==> 0 <= code < 4
    ensures r.Some? ==> Code(r.value) == code
  {
    if code == 0 then Some(GreenShift)
    else if code == 1 then Some(Wavy)
    else if code == 2 then Some(Cross)
    else if code == 3 then Some(Noisy)
    else None
  }

  /** Every variant's number leads back to the variant. */
  lemma CodeRoundTrip(s: Shader)
    ensures FromCode(Code(s)) == Some(s)
  {
  }

  /** The fragment-shader file fetched for a variant; each is a `.frag` file. */
  function FragmentShaderFile(s: Shader): (file: string)
    ensures |file| > 5 && file[|file| - 5..] == ".frag"
  {
    match s
    case GreenShift => "greenshift.frag"
    case Wavy => "wavy.frag"
    case Cross => "cross.frag"
    case Noisy => "noisy.frag"
  }

  /** The uniform that receives the slider value; each is a `u_` uniform. */
  function ValueUniformName(s: Shader): (name: string)
    ensures |name| > 2 && name[..2] == "u_"
  {
    match s
    case GreenShift => "u_GreenShift"
    case Wavy => "u_WaveSize"
    case Cross => "u_CrossIntensity"
    case Noisy => "u_TileSize"
  }

  /** The caption shown before the slider value. */
  function ValueCaption(s: Shader): (caption: string)
    ensures |caption| > 0
  {
    match s
    case GreenShift => "Green Shift"
    case Wavy => "Wave Size"
    case Cross => "Cross Intensity"
    case Noisy => "Tile Size"
  }

  /** The three tables tell the variants apart: no two variants share a file, a uniform or a caption. */
  lemma TablesDistinguishVariants(s: Shader, t: Shader)
    requires s != t
    ensures FragmentShaderFile(s) != FragmentShaderFile(t)
    ensures ValueUniformName(s) != ValueUniformName(t)
    ensures ValueCaption(s) != ValueCaption(t)
  {
  }

  /**
   * The configured viewer loads the noise shader and feeds the slider value
   * to its tile-size uniform, captioned accordingly.
   */
  lemma ConfiguredShader()
    ensures FragmentShaderFile(CURRENT_SHADER) == "noisy.frag"
    ensures ValueUniformName(CURRENT_SHADER) == "u_TileSize"
    ensures ValueCaption(CURRENT_SHADER) == "Tile Size"
  {
  }
}
