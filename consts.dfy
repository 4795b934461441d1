/** Integer constants of the application (src/collections/consts.rs). */
module Consts {
  import opened Structs

  const U32_MAX: nat := 0xFFFF_FFFF
  const USIZE_MAX: nat := 0xFFFF_FFFF_FFFF_FFFF

  const SCREEN_WIDTH: u32 := 1376
  const SCREEN_HEIGHT: u32 := 768

  const TERRAIN_TEXTURE_WIDTH: u32 := 2048
  const TERRAIN_TEXTURE_HEIGHT: u32 := 2048

  /** The compute shader's workgroup edge, by which the dispatch sizes are divided. */
  const WORKGROUP_SIZE: nat := 32

  /** `u32::saturating_add`: the sum, or `u32::MAX` when the sum does not fit. */
  function SaturatingAddU32(a: u32, b: u32): (r: u32)
    ensures a as int + b as int <= U32_MAX ==> r as int == a as int + b as int
    ensures a as int + b as int > U32_MAX ==> r as int == U32_MAX
  {
    if a as int + b as int <= U32_MAX then a + b else U32_MAX as u32
  }

  const TERRAIN_TEX_DISPATCH_SIZE_X: u32 := SaturatingAddU32(TERRAIN_TEXTURE_WIDTH, 32) / 32
  const TERRAIN_TEX_DISPATCH_SIZE_Y: u32 := SaturatingAddU32(TERRAIN_TEXTURE_HEIGHT, 32) / 32

  /** Bytes of an RGBA32Float texture of the terrain's size: width * height * 4 channels * 4 bytes. */
  const TERRAIN_TEX_BUF_SIZE: nat :=
    TERRAIN_TEXTURE_WIDTH as nat * TERRAIN_TEXTURE_HEIGHT as nat * 4 * WORD_BYTES

  /** The initial window has positive dimensions. */
  lemma ScreenIsPositive()
    ensures SCREEN_WIDTH > 0 && SCREEN_HEIGHT > 0
  {
  }

  /** The saturating additions never saturate, and both dispatch sizes are (2048 + 32) / 32 = 65. */
  lemma DispatchSizes()
    ensures TERRAIN_TEXTURE_WIDTH as int + 32 <= U32_MAX && TERRAIN_TEXTURE_HEIGHT as int + 32 <= U32_MAX
    ensures TERRAIN_TEX_DISPATCH_SIZE_X == 65 && TERRAIN_TEX_DISPATCH_SIZE_Y == 65
  {
  }

  /** The dispatched workgroups cover every texel of the terrain texture in X and in Y. */
  lemma DispatchCoversTexture()
    ensures TERRAIN_TEX_DISPATCH_SIZE_X as int * WORKGROUP_SIZE >= TERRAIN_TEXTURE_WIDTH as int
    ensures TERRAIN_TEX_DISPATCH_SIZE_Y as int * WORKGROUP_SIZE >= TERRAIN_TEXTURE_HEIGHT as int
    ensures TERRAIN_TEX_DISPATCH_SIZE_X as int * WORKGROUP_SIZE == TERRAIN_TEXTURE_WIDTH as int + WORKGROUP_SIZE
    ensures TERRAIN_TEX_DISPATCH_SIZE_Y as int * WORKGROUP_SIZE == TERRAIN_TEXTURE_HEIGHT as int + WORKGROUP_SIZE
  {
    DispatchSizes();
  }

  /** The texture upload buffer is 2048 * 2048 * 4 * 4 = 67108864 bytes, well within a usize. */
  lemma TerrainTexBufSize()
    ensures TERRAIN_TEX_BUF_SIZE == 67108864
    ensures TERRAIN_TEX_BUF_SIZE <= USIZE_MAX
  {
  }
}
