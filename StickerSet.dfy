/** `Source/StickerSet.swift`: the sticker set builder, its validator and the
    import request. */
module StickerSets {
  import opened Wrappers
  import opened Bytes
  import opened Limits
  import opened Errors
  import opened Stickers
  import opened Payloads

  /** Width and height of a decoded image, already truncated to integers. */
  datatype Size = Size(width: int, height: int)

  /** `UIImage(data:)` followed by `Int(image.size.width)` and
      `Int(image.size.height)`: `None` when the bytes are not an image the
      platform can decode. */
  type ImageDecoder = Bytes -> Option<Size>

  /** Byte limit for a kind of sticker data. */
  function SizeLimit(data: StickerData): int
  {
    if data.IsAnimated() then AnimatedStickerMaxSize else StaticStickerMaxSize
  }

  /** The dimension rule: one side is exactly 512 and the other lies in 1..512. */
  ghost predicate ValidDimensions(size: Size)
  {
    (size.width == StickerDimensionsSide && 0 < size.height <= StickerDimensionsSide) ||
    (size.height == StickerDimensionsSide && 0 < size.width <= StickerDimensionsSide)
  }

  /** The nested test of the source: width first, then height. */
  function DimensionsValid(size: Size): (ok: bool)
    ensures ok <==> ValidDimensions(size)
  {
    if size.width == StickerDimensionsSide then
      size.height > 0 && size.height <= StickerDimensionsSide
    else if size.height == StickerDimensionsSide then
      size.width > 0 && size.width <= StickerDimensionsSide
    else
      false
  }

  /** `validateData`: a size check for both kinds, then, for an image the
      decoder understands, the dimension check. It changes nothing and can
      only fail with `FileTooBig` or `InvalidDimensions`. */
  function ValidateData(data: StickerData, decode: ImageDecoder): (r: Outcome<StickersError>)
    ensures r.Fail? ==> r.error == FileTooBig || r.error == InvalidDimensions
    ensures r == Fail(FileTooBig) <==> |data.Data()| > SizeLimit(data)
    ensures r == Fail(InvalidDimensions) <==>
              |data.Data()| <= SizeLimit(data) && data.Image? &&
              decode(data.Data()).Some? && !ValidDimensions(decode(data.Data()).value)
    ensures r.Pass? ==> |data.Data()| <= SizeLimit(data)
  {
    match data
    case Image(imageData) =>
      if |imageData| > StaticStickerMaxSize then Fail(FileTooBig)
      else if decode(imageData).Some? && !DimensionsValid(decode(imageData).value) then Fail(InvalidDimensions)
      else Pass
    case Animation(animationData) =>
      if |animationData| > AnimatedStickerMaxSize then Fail(FileTooBig)
      else Pass
  }

  /** Sizes on both sides of the rule: 512 by 300, 511 by 512 and 512 by 512
      pass; 512 by 0, 512 by 513 and 256 by 256 do not. */
  lemma DimensionExamples()
    ensures DimensionsValid(Size(512, 300)) && DimensionsValid(Size(300, 512))
    ensures DimensionsValid(Size(512, 512)) && DimensionsValid(Size(511, 512))
    ensures !DimensionsValid(Size(512, 0))
    ensures !DimensionsValid(Size(512, 513)) && !DimensionsValid(Size(256, 256))
  {
  }

  /** The checks of `addSticker`, in their order: the count limit, then the
      kind, then `validateData`. The emojis are not looked at. */
  function AddCheck(count: int, setIsAnimated: bool, data: StickerData, decode: ImageDecoder)
    : (r: Outcome<StickersError>)
    ensures r == Fail(CountLimitExceeded) <==> count == StickerSetStickerMaxCount
    ensures r == Fail(DataTypeMismatch) <==>
              count != StickerSetStickerMaxCount && data.IsAnimated() != setIsAnimated
    ensures count != StickerSetStickerMaxCount && data.IsAnimated() == setIsAnimated ==>
              r == ValidateData(data, decode)
    ensures r.Pass? ==> data.IsAnimated() == setIsAnimated && |data.Data()| <= SizeLimit(data)
  {
    if count == StickerSetStickerMaxCount then Fail(CountLimitExceeded)
    else if data.IsAnimated() != setIsAnimated then Fail(DataTypeMismatch)
    else ValidateData(data, decode)
  }

  /** The checks of `setThumbnail`: the kind, then `validateData`; there is
      no count check. */
  function ThumbnailCheck(setIsAnimated: bool, data: StickerData, decode: ImageDecoder)
    : (r: Outcome<StickersError>)
    ensures r == Fail(DataTypeMismatch) <==> data.IsAnimated() != setIsAnimated
    ensures data.IsAnimated() == setIsAnimated ==> r == ValidateData(data, decode)
    ensures r.Fail? ==> r.error in {DataTypeMismatch, FileTooBig, InvalidDimensions}
  {
    if data.IsAnimated() != setIsAnimated then Fail(DataTypeMismatch)
    else ValidateData(data, decode)
  }

  /** `StickerSet`. `sent` records every payload handed to `IPC.send`. */
  class StickerSet {
    const software: string
    const isAnimated: bool
    var thumbnail: Option<StickerData>
    var stickers: seq<Sticker>
    ghost var sent: seq<Payload>

    /** Data the set may hold: of the set's kind and within its size limit. */
    ghost predicate Admissible(data: StickerData)
      reads this
    {
      data.IsAnimated() == isAnimated && |data.Data()| <= SizeLimit(data)
    }

    /** The set's invariant: at most 120 stickers, and every sticker and the
        thumbnail are admissible. */
    ghost predicate Valid()
      reads this
    {
      |stickers| <= StickerSetStickerMaxCount &&
      (forall i :: 0 <= i < |stickers| ==> Admissible(stickers[i].data)) &&
      (thumbnail.Some? ==> Admissible(thumbnail.value))
    }

    /** `init(software:isAnimated:)`: an empty set with no thumbnail. */
    constructor (software: string, isAnimated: bool)
      ensures Valid()
      ensures this.software == software && this.isAnimated == isAnimated
      ensures stickers == [] && thumbnail == None && sent == []
    {
      this.software := software;
      this.isAnimated := isAnimated;
      stickers := [];
      thumbnail := None;
      sent := [];
    }

    /** `addSticker(data:emojis:)`: either appends exactly one sticker or
        leaves the set untouched. */
    method AddSticker(data: StickerData, emojis: seq<string>, decode: ImageDecoder)
      returns (r: Outcome<StickersError>)
      requires Valid()
      modifies this`stickers
      ensures Valid()
      ensures r == AddCheck(|old(stickers)|, isAnimated, data, decode)
      ensures stickers == if r.Pass? then old(stickers) + [Sticker(data, emojis)] else old(stickers)
      ensures thumbnail == old(thumbnail)
    {
      if |stickers| == StickerSetStickerMaxCount {
        return Fail(CountLimitExceeded);
      }
      if data.IsAnimated() != isAnimated {
        return Fail(DataTypeMismatch);
      }
      r := ValidateData(data, decode);
      if r.Pass? {
        stickers := stickers + [Sticker(data, emojis)];
      }
    }

    /** `setThumbnail(data:)`: either replaces the thumbnail or leaves the
        set untouched. */
    method SetThumbnail(data: StickerData, decode: ImageDecoder) returns (r: Outcome<StickersError>)
      requires Valid()
      modifies this`thumbnail
      ensures Valid()
      ensures r == ThumbnailCheck(isAnimated, data, decode)
      ensures thumbnail == if r.Pass? then Some(data) else old(thumbnail)
      ensures stickers == old(stickers)
    {
      if data.IsAnimated() != isAnimated {
        return Fail(DataTypeMismatch);
      }
      r := ValidateData(data, decode);
      if r.Pass? {
        thumbnail := Some(data);
      }
    }

    /** The dictionary `import()` builds, one sticker entry per loop turn. */
    method BuildPayload() returns (p: Payload)
      ensures p == PayloadOf(software, thumbnail, isAnimated, stickers)
    {
      var thumb: Option<string> := None;
      if thumbnail.Some? {
        thumb := Some(Base64.Encode(thumbnail.value.Data()));
      }
      var entries: seq<StickerEntry> := [];
      for i := 0 to |stickers|
        invariant entries == Entries(stickers[..i])
      {
        var sticker := stickers[i];
        entries := entries + [StickerEntry(Base64.Encode(sticker.data.Data()), sticker.data.MimeType(), sticker.emojis)];
        assert stickers[..i + 1][..i] == stickers[..i];
      }
      assert stickers[..|stickers|] == stickers;
      p := Payload(software, thumb, isAnimated, entries);
    }

    /** `IPC.send(json:)`: hands the payload to the other application. Its
        Boolean result is discarded by the only caller. */
    method Send(p: Payload)
      modifies this`sent
      ensures sent == old(sent) + [p]
    {
      sent := sent + [p];
    }

    /** `import()`: refuses an empty set; otherwise sends the payload once. */
    method Import() returns (r: Outcome<StickersError>)
      modifies this`sent
      ensures r == if stickers == [] then Fail(SetIsEmpty) else Pass
      ensures sent == if r.Pass? then old(sent) + [PayloadOf(software, thumbnail, isAnimated, stickers)]
                      else old(sent)
    {
      if stickers == [] {
        return Fail(SetIsEmpty);
      }
      var payload := BuildPayload();
      Send(payload);
      r := Pass;
    }
  }
}
