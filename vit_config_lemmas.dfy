/** Properties of the ViT encoder configuration and its variant table. */
module VitConfigLemmas {
  import opened Results
  import opened VitConfig

  /** Every predefined variant passes the checks, so `from_variant` gives
      exactly the record of `_build_encoder_config`. */
  lemma FromVariantIsBuild(v: Variant)
    ensures FromVariant(v) == Ok(BuildEncoderConfig(v))
  {
  }

  /** A configuration that passes the checks splits its embedding evenly
      over the heads. */
  lemma HeadDimension(c: EncoderConfig)
    requires Check(c).Pass?
    ensures c.numHeads != 0
    ensures c.embedDim == (c.embedDim / c.numHeads) * c.numHeads
  {
  }

  /** The OG variants: patch 32, image 224 or 384, every other field at its
      default. */
  lemma OgVariants(v: Variant)
    requires IsOg(v)
    ensures BuildEncoderConfig(v).imageSize in {Square(224), Square(384)}
    ensures BuildEncoderConfig(v) == WithDefaults(BuildEncoderConfig(v).imageSize, Square(32))
  {
  }

  /** The DINOv2 variants: patch 14, image 518, layer scale 1e-5; only the
      REG4 one has register tokens (four) and drops the prefix embedding. */
  lemma Dinov2Variants(v: Variant)
    requires IsDinov2(v)
    ensures var c := BuildEncoderConfig(v);
      && c.patchSize == Square(14) && c.imageSize == Square(518)
      && c.layerScaleInitValue == Some(0.00001)
      && (c.numRegisterTokens == 4 <==> v == Dinov2BasePatch14Reg4Img518)
      && (c.numRegisterTokens == 0 <==> v == Dinov2BasePatch14Img518)
      && (c.usePrefixEmbedding <==> v == Dinov2BasePatch14Img518)
      && !c.preNormalize && c.postNormalize && c.useClassToken
  {
  }

  /** The CLIP variants: patch 32, image 224, 256 or 384, normalised before
      the blocks. */
  lemma ClipVariants(v: Variant)
    requires IsClip(v)
    ensures BuildEncoderConfig(v).imageSize in {Square(224), Square(256), Square(384)}
    ensures BuildEncoderConfig(v)
         == WithDefaults(BuildEncoderConfig(v).imageSize, Square(32)).(preNormalize := true)
  {
  }

  /** Only the DINOv2 variants set a layer scale, and only REG4 has register
      tokens. */
  lemma LayerScaleAndRegisters(v: Variant)
    ensures BuildEncoderConfig(v).layerScaleInitValue.Some? <==> IsDinov2(v)
    ensures BuildEncoderConfig(v).numRegisterTokens != 0 <==> v == Dinov2BasePatch14Reg4Img518
  {
  }

  /** Distinct variants give distinct records. */
  lemma BuildInjective(v: Variant, u: Variant)
    requires BuildEncoderConfig(v) == BuildEncoderConfig(u)
    ensures v == u
  {
  }

  /** Each variant belongs to exactly one family, as its string value says. */
  lemma Families(v: Variant)
    ensures IsOg(v) <==> "og_" <= Name(v)
    ensures IsDinov2(v) <==> "dinov2_" <= Name(v)
    ensures IsClip(v) <==> "clip_" <= Name(v)
    ensures IsOg(v) || IsDinov2(v) || IsClip(v)
    ensures !(IsOg(v) && IsDinov2(v)) && !(IsOg(v) && IsClip(v)) && !(IsDinov2(v) && IsClip(v))
  {
    var n := Name(v);
    if IsOg(v) {
      assert n[..3] == "og_";
    } else if IsDinov2(v) {
      assert n[..7] == "dinov2_";
    } else {
      assert n[..5] == "clip_";
    }
    assert n[0] == (if IsOg(v) then 'o' else if IsDinov2(v) then 'd' else 'c');
  }

  /** Each string value names one variant. */
  lemma NameRoundTrip(v: Variant)
    ensures Parse(Name(v)) == Some(v)
  {
  }

  /** A ViT-B with 7 heads, with no heads, or with -1 register tokens is
      rejected, and with both of the first and last wrong the divisibility
      is reported. */
  lemma CheckExamples()
    ensures New(WithDefaults(Square(224), Square(16)).(numHeads := 7))
         == Err(EmbedDimNotDivisible(768, 7))
    ensures New(WithDefaults(Square(224), Square(16)).(numHeads := 0)) == Err(ZeroHeads)
    ensures New(WithDefaults(Square(224), Square(16)).(numRegisterTokens := -1))
         == Err(NegativeRegisterTokens(-1))
    ensures New(WithDefaults(Square(224), Square(16)).(numHeads := 7, numRegisterTokens := -1))
         == Err(EmbedDimNotDivisible(768, 7))
  {
  }
}
