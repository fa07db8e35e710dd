/** Render-texture format selection and shader-variant preambles
    (js/fluid-simulation.js, getSupportedFormat, the format part of
    getWebGLContext, addKeywords and the display shader's keyword list). */
module TextureFormats {
  import opened Options

  /** The internal texture formats the solver asks for: the three half-float
      ones of WebGL 2 and the unsized RGBA of WebGL 1. */
  datatype InternalFormat = R16F | RG16F | RGBA16F | UnsizedRGBA

  /** The pixel layouts that go with them. */
  datatype PixelFormat = RedChannel | RGChannels | RGBAChannels

  datatype FormatPair = FormatPair(internal: InternalFormat, format: PixelFormat)

  /** How many fallback steps remain below a format. */
  function Rank(f: InternalFormat): nat
  {
    match f
    case R16F => 2
    case RG16F => 1
    case _ => 0
  }

  /** The format chosen for a render texture. `supported` is the set of pairs
      the device can render into (the outcome of its completeness probe).
      An unsupported R16F falls back to RG16F, an unsupported RG16F to
      RGBA16F, and anything else unsupported gives null. */
  function GetSupportedFormat(supported: set<FormatPair>, internal: InternalFormat, format: PixelFormat): (r: Option<FormatPair>)
    ensures FormatPair(internal, format) in supported ==> r == Some(FormatPair(internal, format))
    ensures r.Some? ==> r.value in supported && Rank(r.value.internal) <= Rank(internal)
    decreases Rank(internal)
  {
    if FormatPair(internal, format) !in supported then
      match internal
      case R16F => GetSupportedFormat(supported, RG16F, RGChannels)
      case RG16F => GetSupportedFormat(supported, RGBA16F, RGBAChannels)
      case _ => None
    else
      Some(FormatPair(internal, format))
  }

  /** The candidates tried, in order, for a request. */
  function Ladder(internal: InternalFormat, format: PixelFormat): (l: seq<FormatPair>)
    ensures |l| == Rank(internal) + 1 && l[0] == FormatPair(internal, format)
  {
    match internal
    case R16F => [FormatPair(R16F, format), FormatPair(RG16F, RGChannels), FormatPair(RGBA16F, RGBAChannels)]
    case RG16F => [FormatPair(RG16F, format), FormatPair(RGBA16F, RGBAChannels)]
    case _ => [FormatPair(internal, format)]
  }

  /** Entry k of the ladder is supported and no earlier entry is. */
  predicate FirstSupportedAt(l: seq<FormatPair>, supported: set<FormatPair>, k: int)
  {
    0 <= k < |l| && l[k] in supported && forall k' :: 0 <= k' < k ==> l[k'] !in supported
  }

  /** The fallback recursion returns the first supported entry of the ladder,
      and null exactly when no entry of the ladder is supported. */
  lemma {:induction false} GetSupportedFormatIsFirstOnLadder(supported: set<FormatPair>, internal: InternalFormat, format: PixelFormat)
    ensures GetSupportedFormat(supported, internal, format).None? <==>
      forall k :: 0 <= k < |Ladder(internal, format)| ==> Ladder(internal, format)[k] !in supported
    ensures forall k :: FirstSupportedAt(Ladder(internal, format), supported, k) ==>
      GetSupportedFormat(supported, internal, format) == Some(Ladder(internal, format)[k])
    decreases Rank(internal)
  {
    var l := Ladder(internal, format);
    if l[0] !in supported {
      match internal
      case R16F =>
        GetSupportedFormatIsFirstOnLadder(supported, RG16F, RGChannels);
        assert l[1..] == Ladder(RG16F, RGChannels);
      case RG16F =>
        GetSupportedFormatIsFirstOnLadder(supported, RGBA16F, RGBAChannels);
        assert l[1..] == Ladder(RGBA16F, RGBAChannels);
      case _ =>
    }
  }

  /** The three formats the solver uses: for RGBA dye, RG velocity and
      single-channel pressure, divergence and curl. */
  datatype ContextFormats = ContextFormats(rgba: Option<FormatPair>, rg: Option<FormatPair>, r: Option<FormatPair>)

  /** WebGL 2 asks for the half-float format of each width; WebGL 1 asks for
      unsized RGBA for all three. */
  function SelectFormats(isWebGL2: bool, supported: set<FormatPair>): (f: ContextFormats)
    ensures !isWebGL2 ==> f.rgba == f.rg == f.r
  {
    if isWebGL2 then
      ContextFormats(
        GetSupportedFormat(supported, RGBA16F, RGBAChannels),
        GetSupportedFormat(supported, RG16F, RGChannels),
        GetSupportedFormat(supported, R16F, RedChannel))
    else
      ContextFormats(
        GetSupportedFormat(supported, UnsizedRGBA, RGBAChannels),
        GetSupportedFormat(supported, UnsizedRGBA, RGBAChannels),
        GetSupportedFormat(supported, UnsizedRGBA, RGBAChannels))
  }

  /** On WebGL 2, a device that renders into RGBA16F gets all three formats,
      and every chosen format is at least as wide as the one asked for. */
  lemma WebGL2FormatsWhenRGBA16FRenders(supported: set<FormatPair>)
    requires FormatPair(RGBA16F, RGBAChannels) in supported
    ensures SelectFormats(true, supported).rgba == Some(FormatPair(RGBA16F, RGBAChannels))
    ensures SelectFormats(true, supported).rg.Some? && SelectFormats(true, supported).r.Some?
    ensures SelectFormats(true, supported).rg.value.internal in {RG16F, RGBA16F}
  {
    GetSupportedFormatIsFirstOnLadder(supported, R16F, RedChannel);
    GetSupportedFormatIsFirstOnLadder(supported, RG16F, RGChannels);
  }

  /** The preamble that defines each keyword, one line per keyword, in order. */
  function Defines(keywords: seq<string>): string
  {
    if |keywords| == 0 then ""
    else Defines(keywords[..|keywords| - 1]) + "#define " + keywords[|keywords| - 1] + "\n"
  }

  /** Prepends a `#define` line for each keyword to a shader source; a null
      keyword list leaves the source as it is. */
  method AddKeywords(source: string, keywords: Option<seq<string>>) returns (r: string)
    ensures keywords.None? ==> r == source
    ensures keywords.Some? ==> r == Defines(keywords.value) + source
  {
    if keywords.None? {
      return source;
    }
    var ks := keywords.value;
    var preamble := "";
    var i := 0;
    while i < |ks|
      invariant 0 <= i <= |ks|
      invariant preamble == Defines(ks[..i])
    {
      assert ks[..i + 1][..i] == ks[..i];
      preamble := preamble + "#define " + ks[i] + "\n";
      i := i + 1;
    }
    assert ks[..|ks|] == ks;
    return preamble + source;
  }

  /** The preamble of a concatenation is the concatenation of the preambles. */
  lemma {:induction false} DefinesAppend(a: seq<string>, b: seq<string>)
    ensures Defines(a + b) == Defines(a) + Defines(b)
    decreases |b|
  {
    if |b| > 0 {
      var b' := b[..|b| - 1];
      assert (a + b)[..|a + b| - 1] == a + b';
      DefinesAppend(a, b');
    } else {
      assert a + b == a;
    }
  }

  /** Read from the front: the first keyword's line comes first. */
  lemma {:induction false} DefinesFirstLine(keywords: seq<string>)
    requires |keywords| > 0
    ensures Defines(keywords) == "#define " + keywords[0] + "\n" + Defines(keywords[1..])
  {
    var first, rest := [keywords[0]], keywords[1..];
    assert keywords == first + rest;
    DefinesAppend(first, rest);
    assert first[..0] == [];
    assert Defines(first) == "" + "#define " + keywords[0] + "\n";
  }

  /** Number of line breaks in a string. */
  function LineBreaks(s: string): nat
  {
    if |s| == 0 then 0 else LineBreaks(s[..|s| - 1]) + (if s[|s| - 1] == '\n' then 1 else 0)
  }

  lemma {:induction false} NoLineBreaks(s: string)
    requires forall k :: 0 <= k < |s| ==> s[k] != '\n'
    ensures LineBreaks(s) == 0
    decreases |s|
  {
    if |s| > 0 {
      NoLineBreaks(s[..|s| - 1]);
    }
  }

  lemma {:induction false} LineBreaksAppend(s: string, t: string)
    ensures LineBreaks(s + t) == LineBreaks(s) + LineBreaks(t)
    decreases |t|
  {
    if |t| > 0 {
      assert (s + t)[..|s + t| - 1] == s + t[..|t| - 1];
      LineBreaksAppend(s, t[..|t| - 1]);
    } else {
      assert s + t == s;
    }
  }

  /** With single-line keywords, the preamble adds exactly one line per keyword. */
  lemma {:induction false} DefinesLineCount(keywords: seq<string>)
    requires forall k :: 0 <= k < |keywords| ==> LineBreaks(keywords[k]) == 0
    ensures LineBreaks(Defines(keywords)) == |keywords|
    decreases |keywords|
  {
    if |keywords| > 0 {
      var n := |keywords|;
      DefinesLineCount(keywords[..n - 1]);
      LineBreaksAppend(Defines(keywords[..n - 1]) + "#define " + keywords[n - 1], "\n");
      LineBreaksAppend(Defines(keywords[..n - 1]) + "#define ", keywords[n - 1]);
      LineBreaksAppend(Defines(keywords[..n - 1]), "#define ");
      NoLineBreaks("#define ");
      assert LineBreaks("\n") == LineBreaks("") + 1;
    }
  }

  /** The keywords the display shader is compiled with. */
  function DisplayKeywords(shading: bool, bloom: bool): (ks: seq<string>)
    ensures |ks| == (if shading then 1 else 0) + (if bloom then 1 else 0)
    ensures "BLOOM" in ks <==> bloom
    ensures "SHADING" in ks <==> shading
  {
    (if shading then ["SHADING"] else []) + (if bloom then ["BLOOM"] else [])
  }
}
