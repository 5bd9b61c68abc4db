/** The configuration record of the ViT encoder: its defaults, the two
    checks run when it is built, and the table of predefined variants. */
module VitConfig {
  import opened Results

  /** An `int | tuple[int, int]` size: one number for both sides, or
      (height, width). */
  datatype Extent = Square(n: int) | Rect(h: int, w: int)

  /** The encoder configuration; the normalisation-layer factory and the
      float hyper-parameters other than the layer-scale value are not
      modelled. */
  datatype EncoderConfig = EncoderConfig(
    imageSize: Extent,
    patchSize: Extent,
    inChannels: int,
    embedDim: int,
    numLayers: int,
    numHeads: int,
    qkvBias: bool,
    qkNormalize: bool,
    layerScaleInitValue: Option<real>,
    useClassToken: bool,
    numRegisterTokens: int,
    usePrefixEmbedding: bool,
    preNormalize: bool,
    postNormalize: bool)

  /** A configuration where only the two required fields are given. */
  function WithDefaults(imageSize: Extent, patchSize: Extent): (c: EncoderConfig)
    ensures c.imageSize == imageSize && c.patchSize == patchSize
    ensures c.inChannels == 3 && c.embedDim == 768 && c.numLayers == 12 && c.numHeads == 12
    ensures c.qkvBias && !c.qkNormalize && c.layerScaleInitValue == None
    ensures c.useClassToken && c.numRegisterTokens == 0 && c.usePrefixEmbedding
    ensures !c.preNormalize && c.postNormalize
  {
    EncoderConfig(imageSize, patchSize, 3, 768, 12, 12, true, false, None,
                  true, 0, true, false, true)
  }

  datatype ConfigError =
    | ZeroHeads                            // `embed_dim % 0` raises ZeroDivisionError
    | EmbedDimNotDivisible(embedDim: int, numHeads: int)
    | NegativeRegisterTokens(count: int)

  /** `__post_init__`: the divisibility check first, then the register
      tokens. */
  function Check(c: EncoderConfig): (r: Outcome<ConfigError>)
    ensures r.Pass? <==> c.numHeads != 0 && c.embedDim % c.numHeads == 0 && c.numRegisterTokens >= 0
    ensures c.numHeads == 0 ==> r == Fail(ZeroHeads)
    ensures r == Fail(EmbedDimNotDivisible(c.embedDim, c.numHeads)) <==>
              c.numHeads != 0 && c.embedDim % c.numHeads != 0
    ensures r == Fail(NegativeRegisterTokens(c.numRegisterTokens)) <==>
              c.numHeads != 0 && c.embedDim % c.numHeads == 0 && c.numRegisterTokens < 0
  {
    if c.numHeads == 0 then Fail(ZeroHeads)
    else if c.embedDim % c.numHeads != 0 then Fail(EmbedDimNotDivisible(c.embedDim, c.numHeads))
    else if c.numRegisterTokens < 0 then Fail(NegativeRegisterTokens(c.numRegisterTokens))
    else Pass
  }

  /** Building the frozen record: it is kept unchanged when the checks pass. */
  function New(c: EncoderConfig): (r: Result<EncoderConfig, ConfigError>)
    ensures r.Ok? <==> Check(c).Pass?
    ensures r.Ok? ==> r.value == c
    ensures r.Err? ==> Check(c) == Fail(r.error)
  {
    var check := Check(c);
    if check.Fail? then Err(check.error) else Ok(c)
  }

  /** The predefined variants. */
  datatype Variant =
    | OgBasePatch32Img224
    | OgBasePatch32Img384
    | Dinov2BasePatch14Img518
    | Dinov2BasePatch14Reg4Img518
    | ClipBasePatch32Img224
    | ClipBasePatch32Img256
    | ClipBasePatch32Img384

  /** The string value of each variant; it starts with the variant's family. */
  function Name(v: Variant): (r: string)
    ensures IsOg(v) ==> "og_" <= r
    ensures IsDinov2(v) ==> "dinov2_" <= r
    ensures IsClip(v) ==> "clip_" <= r
  {
    match v
    case OgBasePatch32Img224 => "og_base_patch32_img224"
    case OgBasePatch32Img384 => "og_base_patch32_img384"
    case Dinov2BasePatch14Img518 => "dinov2_base_patch14_img518"
    case Dinov2BasePatch14Reg4Img518 => "dinov2_base_patch14_reg4_img518"
    case ClipBasePatch32Img224 => "clip_base_patch32_img224"
    case ClipBasePatch32Img256 => "clip_base_patch32_img256"
    case ClipBasePatch32Img384 => "clip_base_patch32_img384"
  }

  /** Looking a variant up by its string value. */
  function Parse(s: string): (r: Option<Variant>)
    ensures r.Some? ==> Name(r.value) == s
  {
    if s == "og_base_patch32_img224" then Some(OgBasePatch32Img224)
    else if s == "og_base_patch32_img384" then Some(OgBasePatch32Img384)
    else if s == "dinov2_base_patch14_img518" then Some(Dinov2BasePatch14Img518)
    else if s == "dinov2_base_patch14_reg4_img518" then Some(Dinov2BasePatch14Reg4Img518)
    else if s == "clip_base_patch32_img224" then Some(ClipBasePatch32Img224)
    else if s == "clip_base_patch32_img256" then Some(ClipBasePatch32Img256)
    else if s == "clip_base_patch32_img384" then Some(ClipBasePatch32Img384)
    else None
  }

  predicate IsOg(v: Variant) { v.OgBasePatch32Img224? || v.OgBasePatch32Img384? }
  predicate IsDinov2(v: Variant) { v.Dinov2BasePatch14Img518? || v.Dinov2BasePatch14Reg4Img518? }
  predicate IsClip(v: Variant) {
    v.ClipBasePatch32Img224? || v.ClipBasePatch32Img256? || v.ClipBasePatch32Img384?
  }

  /** `_build_encoder_config`: the record each variant stands for. */
  function BuildEncoderConfig(v: Variant): (c: EncoderConfig)
    ensures c.embedDim == 768 && c.numLayers == 12 && c.numHeads == 12
  {
    var base := WithDefaults(Square(224), Square(32));
    match v
    case OgBasePatch32Img224 => base
    case OgBasePatch32Img384 => base.(imageSize := Square(384))
    case Dinov2BasePatch14Img518 =>
      base.(imageSize := Square(518), patchSize := Square(14), layerScaleInitValue := Some(0.00001))
    case Dinov2BasePatch14Reg4Img518 =>
      base.(imageSize := Square(518), patchSize := Square(14), layerScaleInitValue := Some(0.00001),
            numRegisterTokens := 4, usePrefixEmbedding := false)
    case ClipBasePatch32Img224 => base.(preNormalize := true)
    case ClipBasePatch32Img256 => base.(imageSize := Square(256), preNormalize := true)
    case ClipBasePatch32Img384 => base.(imageSize := Square(384), preNormalize := true)
  }

  /** `EncoderConfig.from_variant`: the variant's record, built through the
      checks. */
  function FromVariant(v: Variant): (r: Result<EncoderConfig, ConfigError>)
    ensures r.Ok? && r.value.numHeads != 0 && r.value.embedDim % r.value.numHeads == 0
    ensures r.Ok? && r.value.numRegisterTokens >= 0
  {
    New(BuildEncoderConfig(v))
  }
}
