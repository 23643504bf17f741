/** `Source/Sticker.swift`: the data of one sticker and the sticker record. */
module Stickers {
  import opened Bytes

  /** Mime type of static (PNG) sticker data. */
  const PngMimeType: string := "image/png"

  /** Mime type of animated (TGS) sticker data. */
  const TgsMimeType: string := "application/x-tgsticker"

  /** `Sticker.StickerData`: PNG image bytes or TGS animation bytes. */
  datatype StickerData = Image(bytes: Bytes) | Animation(bytes: Bytes)
  {
    /** Whether the data is an animation; decided by the case alone. */
    function IsAnimated(): (r: bool)
      ensures r <==> this.Animation?
    {
      match this
      case Image(_) => false
      case Animation(_) => true
    }

    /** The mime type sent with the data: it names exactly one kind. */
    function MimeType(): (m: string)
      ensures m == TgsMimeType <==> IsAnimated()
      ensures m == PngMimeType <==> !IsAnimated()
    {
      match this
      case Image(_) => PngMimeType
      case Animation(_) => TgsMimeType
    }

    /** The wrapped bytes; together with the animation flag they give the
        data back. */
    function Data(): (b: Bytes)
      ensures this == if IsAnimated() then Animation(b) else Image(b)
    {
      match this
      case Image(d) => d
      case Animation(d) => d
    }
  }

  /** Classification looks at the case only, never at the bytes. */
  lemma ClassificationIgnoresBytes(d: StickerData, b: Bytes)
    ensures d.IsAnimated() == (if d.Image? then Image(b) else Animation(b)).IsAnimated()
    ensures d.MimeType() == (if d.Image? then Image(b) else Animation(b)).MimeType()
  {
  }

  /** `Sticker`: data and the emojis associated with it, both fixed when the
      sticker is made. The emoji list is kept as given (order, duplicates and
      emptiness). */
  datatype Sticker = Sticker(data: StickerData, emojis: seq<string>)

  /** `init(data:emojis:)` stores both fields as given: two stickers are equal
      exactly when their data and their emoji lists are, so the emojis keep
      their order, duplicates and emptiness. */
  lemma StickerInit(data: StickerData, emojis: seq<string>, data': StickerData, emojis': seq<string>)
    ensures Sticker(data, emojis).data == data && Sticker(data, emojis).emojis == emojis
    ensures Sticker(data, emojis) == Sticker(data', emojis') <==> data == data' && emojis == emojis'
  {
  }
}
