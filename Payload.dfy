/** The keyed record `import()` hands to the inter-process channel
    (`Source/StickerSet.swift`, lines 130-143), as a datatype, and a parser
    for its sticker list that shows the record loses nothing. */
module Payloads {
  import opened Wrappers
  import opened Stickers
  import Base64

  /** One dictionary of the `stickers` array: `data`, `mimeType`, `emojis`. */
  datatype StickerEntry = StickerEntry(data: string, mimeType: string, emojis: seq<string>)

  /** The top-level dictionary. `thumbnail == None` is the absent key: the
      source assigns `nil`, which removes the entry. */
  datatype Payload = Payload(
    software: string,
    thumbnail: Option<string>,
    isAnimated: bool,
    stickers: seq<StickerEntry>)

  /** Reads a sticker back from its entry: the mime type chooses the kind. */
  function ParseEntry(e: StickerEntry): Option<Sticker>
  {
    match Base64.Decode(e.data)
    case None => None
    case Some(b) =>
      if e.mimeType == PngMimeType then Some(Sticker(Image(b), e.emojis))
      else if e.mimeType == TgsMimeType then Some(Sticker(Animation(b), e.emojis))
      else None
  }

  /** Reads every entry back, in order; `None` if any entry is unreadable. */
  function ParseEntries(es: seq<StickerEntry>): Option<seq<Sticker>>
  {
    if es == [] then Some([])
    else
      match ParseEntries(es[..|es| - 1])
      case None => None
      case Some(init) =>
        match ParseEntry(es[|es| - 1])
        case None => None
        case Some(s) => Some(init + [s])
  }

  /** The dictionary of one sticker: its bytes in Base64, its mime type and
      its emojis, all recoverable. */
  function EntryOf(s: Sticker): (e: StickerEntry)
    ensures e.mimeType == s.data.MimeType() && e.emojis == s.emojis
    ensures Base64.Decode(e.data) == Some(s.data.Data())
    ensures ParseEntry(e) == Some(s)
  {
    Base64.DecodeEncode(s.data.Data());
    StickerEntry(Base64.Encode(s.data.Data()), s.data.MimeType(), s.emojis)
  }

  /** The `stickers` array, built by appending one dictionary per sticker:
      one entry per sticker, in the same order. */
  function Entries(ss: seq<Sticker>): (es: seq<StickerEntry>)
    ensures |es| == |ss|
    ensures forall i :: 0 <= i < |ss| ==> es[i] == EntryOf(ss[i])
  {
    if ss == [] then []
    else Entries(ss[..|ss| - 1]) + [EntryOf(ss[|ss| - 1])]
  }

  /** The `stickers` array parses back to the very same stickers: nothing is
      lost, reordered or duplicated. */
  lemma {:induction false} ParseEntriesOfEntries(ss: seq<Sticker>)
    ensures ParseEntries(Entries(ss)) == Some(ss)
  {
    if ss != [] {
      var init := ss[..|ss| - 1];
      var es := Entries(ss);
      assert es[..|es| - 1] == Entries(init);
      ParseEntriesOfEntries(init);
      assert ParseEntry(es[|es| - 1]) == Some(ss[|ss| - 1]);
      assert ss == init + [ss[|ss| - 1]];
    }
  }

  /** Adding a sticker to the set adds exactly its dictionary at the end of
      the `stickers` array, so the array follows the order of addition. */
  lemma EntriesAppend(ss: seq<Sticker>, s: Sticker)
    ensures Entries(ss + [s]) == Entries(ss) + [EntryOf(s)]
  {
  }

  /** The whole record for a set's state. */
  function PayloadOf(software: string, thumbnail: Option<StickerData>, isAnimated: bool, stickers: seq<Sticker>)
    : (p: Payload)
    ensures p.software == software && p.isAnimated == isAnimated
    ensures p.thumbnail.None? <==> thumbnail.None?
    ensures thumbnail.Some? ==> Base64.Decode(p.thumbnail.value) == Some(thumbnail.value.Data())
    ensures |p.stickers| == |stickers|
    ensures forall i :: 0 <= i < |stickers| ==>
              p.stickers[i].mimeType == stickers[i].data.MimeType() &&
              p.stickers[i].emojis == stickers[i].emojis &&
              Base64.Decode(p.stickers[i].data) == Some(stickers[i].data.Data())
    ensures ParseEntries(p.stickers) == Some(stickers)
  {
    ParseEntriesOfEntries(stickers);
    if thumbnail.None? then
      Payload(software, None, isAnimated, Entries(stickers))
    else
      Base64.DecodeEncode(thumbnail.value.Data());
      Payload(software, Some(Base64.Encode(thumbnail.value.Data())), isAnimated, Entries(stickers))
  }
}
