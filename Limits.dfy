/** The process-wide, immutable limits of `Source/Limits.swift`. */
module Limits {

  /** Width or height (in points) one side of a static sticker must have. */
  const StickerDimensionsSide: int := 512

  /** Largest accepted PNG payload, in bytes (512 KiB). */
  const StaticStickerMaxSize: int := 512 * 1024

  /** Largest accepted TGS payload, in bytes (64 KiB). */
  const AnimatedStickerMaxSize: int := 64 * 1024

  /** Declared by the library but consulted by no operation of the sticker set. */
  const VideoStickerMaxSize: int := 256 * 1024

  /** Largest number of stickers one set may hold. */
  const StickerSetStickerMaxCount: int := 120

  /** The limits as numbers: 512 points, 512 KiB, 64 KiB, 256 KiB, 120 stickers. */
  lemma LimitValues()
    ensures StickerDimensionsSide == 512
    ensures StaticStickerMaxSize == 524288
    ensures AnimatedStickerMaxSize == 65536
    ensures VideoStickerMaxSize == 262144
    ensures StickerSetStickerMaxCount == 120
  {
  }
}
