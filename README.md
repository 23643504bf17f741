# Telegram sticker-set import: a Dafny model

This project models the core of TelegramStickersImport. That library lets an
iOS app build a sticker set in memory, validate every sticker against the
messenger's size, dimension and count limits, and hand the set to Telegram.

The model covers:

- **Limits** (`Limits`) and the closed error enumeration `StickersError`
  (`Errors`).
- **Sticker data** (`Stickers`). `StickerData` is `Image` (PNG) or
  `Animation` (TGS) over a byte string. It has the classifiers `IsAnimated`,
  `MimeType` and `Data`. `Sticker` is an immutable record of data and emojis.
  The Swift `Sticker` class has only `let` fields, so it is a datatype here.
  Its `init` is the datatype constructor, which stores both fields unchanged.
- **The sticker set** (`StickerSets`):
  - `validateData` is a pure function.
  - The three checks that `addSticker` and `setThumbnail` run, in order, are
    the functions `AddCheck` and `ThumbnailCheck`.
  - `StickerSet` is a class. `stickers` (a `seq`, only ever appended to) and
    `thumbnail` are mutable fields, and its methods keep the invariant
    `Valid()`: at most 120 stickers, and every sticker and the thumbnail of
    the set's kind and within its size limit.
  - `import()` refuses an empty set. Otherwise it builds the payload with a
    loop (`BuildPayload`) and hands it to `Send`.
- **The payload** (`Payloads`) is the keyed record `import()` builds, as a
  datatype. An absent `thumbnail` key is `None`.
- **Base64** (`Base64`) is Foundation's `base64EncodedString()`: the standard
  alphabet with `=` padding, section 4 of RFC 4648. A strict reference
  decoder states that the encoding loses nothing and that each byte string
  has exactly one encoding. A parser for the sticker list
  (`ParseEntries`) states that the payload gives back exactly the set's
  stickers, in order.

Foreign code is passed in as parameters:

- `UIImage(data:)`, with the truncation of its `CGFloat` size to `Int`, is a
  parameter `decode: Bytes -> Option<Size>`. `None` means the bytes do not
  decode, and then the dimension check is skipped.
- `IPC.send` is the method `Send`. It appends the payload to a ghost log
  `sent`.

What `Source/StickerSet.swift` does not do:

- It has no video kind and no `isVideo` key.
- It has no empty-file check, so zero-length data passes.
- It has no empty-emoji check.
- `import()` does not check that Telegram is installed.
- `fileIsEmpty`, `emojiIsEmpty` and `telegramNotInstalled` are declared but
  never thrown. `videoStickerMaxSize` is declared but never read.

A 511×512 image passes the dimension check, because the height is 512 and
the width lies in 1..512 (`DimensionExamples`).

## Model

| member | source | states |
|---|---|---|
| `Limits.LimitValues` | Source/Limits.swift:1-7 | the side is 512, the static limit 512·1024, the animated limit 64·1024, the video limit 256·1024 and the count limit 120 |
| `Errors.ClosedEnumeration` | Source/Errors.swift:3-12 | every error value is one of the declared cases, and there are exactly eight of them |
| `Stickers.StickerData.IsAnimated` | Source/Sticker.swift:15-22 | `false` for an image, `true` for an animation |
| `Stickers.StickerData.MimeType` | Source/Sticker.swift:25-32 | `application/x-tgsticker` exactly for animations, `image/png` exactly for images |
| `Stickers.StickerData.Data` | Source/Sticker.swift:35-40 | the wrapped bytes unchanged: with the animation flag they rebuild the value |
| `Stickers.ClassificationIgnoresBytes` | Source/Sticker.swift:15-32 | the animation flag and mime type depend only on the case, never on the bytes |
| `Stickers.StickerInit` | Source/Sticker.swift:43-61 | a new `Sticker` stores the data and the emojis unchanged: two stickers are equal exactly when their data and emoji lists are, so order, duplicates and emptiness are kept |
| `Base64.CharOf` | Source/StickerSet.swift:138 | each 6-bit value has one alphabet symbol, which reads back as that value |
| `Base64.Encode` | Source/StickerSet.swift:138 | n bytes encode to 4·⌈n/3⌉ symbols |
| `Base64.DecodeEncode` | Source/StickerSet.swift:132-138 | decoding the encoding of any byte string gives that byte string back |
| `Base64.EncodeDecode` | Source/StickerSet.swift:132-138 | every string the strict decoder accepts is exactly the encoding of what it decodes to, so "decodes to the bytes" fixes the emitted string |
| `Base64.RfcTestVectorsShort` | Source/StickerSet.swift:138 | the encoder gives the short test vectors of section 10 of RFC 4648: "" is "", "f" is "Zg==", "fo" is "Zm8=", "foo" is "Zm9v" |
| `Base64.RfcTestVectorsLong` | Source/StickerSet.swift:138 | the encoder gives the long test vectors of section 10 of RFC 4648: "foob" is "Zm9vYg==", "fooba" is "Zm9vYmE=", "foobar" is "Zm9vYmFy" |
| `Payloads.EntryOf` | Source/StickerSet.swift:137-140 | a sticker's dictionary has its mime type and emojis unchanged, and its `data` decodes to its bytes, so the entry parses back to the sticker |
| `Payloads.Entries` | Source/StickerSet.swift:135-143 | the `stickers` array has one entry per sticker, at the same position |
| `Payloads.ParseEntriesOfEntries` | Source/StickerSet.swift:135-143 | the `stickers` array parses back to exactly the set's stickers, in order |
| `Payloads.EntriesAppend` | Source/StickerSet.swift:136-141 | one more sticker adds exactly its entry at the end of the array |
| `Payloads.PayloadOf` | Source/StickerSet.swift:130-143 | `software` and `isAnimated` are copied. `thumbnail` is absent iff there is no thumbnail, and otherwise decodes to its bytes. `stickers` keeps the length and order, with mime types, emojis and bytes preserved |
| `StickerSets.DimensionsValid` | Source/StickerSet.swift:40-49 | the nested width-then-height test holds iff one side is 512 and the other lies in 1..512 |
| `StickerSets.DimensionExamples` | Source/StickerSet.swift:39-53 | 512×300, 300×512, 511×512 and 512×512 pass; 512×0, 512×513 and 256×256 fail |
| `StickerSets.ValidateData` | Source/StickerSet.swift:33-60 | fails only with `fileTooBig` or `invalidDimensions`. `fileTooBig` iff the bytes exceed 512 KiB (image) or 64 KiB (animation). `invalidDimensions` iff a small enough image decodes to a size that breaks the rule. Undecodable images and all animations skip the dimension check, and there is no lower size bound |
| `StickerSets.AddCheck` | Source/StickerSet.swift:83-89 | `countLimitExceeded` iff the set holds 120 stickers, whatever the data. Otherwise `dataTypeMismatch` iff the kind differs from the set's. Otherwise the result of `validateData`. The emojis are never examined |
| `StickerSets.ThumbnailCheck` | Source/StickerSet.swift:111-114 | `dataTypeMismatch` iff the kind differs, otherwise the result of `validateData`; no count check |
| `StickerSets.StickerSet.constructor` | Source/StickerSet.swift:27-31 | a new set stores `software` and `isAnimated` as given, has no stickers and no thumbnail, and satisfies `Valid()` |
| `StickerSets.StickerSet.AddSticker` | Source/StickerSet.swift:82-92 | the outcome is `AddCheck`'s. On success exactly `Sticker(data, emojis)` is appended; on failure the stickers are untouched; the thumbnail never changes; `Valid()` is preserved |
| `StickerSets.StickerSet.SetThumbnail` | Source/StickerSet.swift:110-117 | the outcome is `ThumbnailCheck`'s. On success the thumbnail is replaced by the data; otherwise it is untouched; the stickers never change; `Valid()` is preserved |
| `StickerSets.StickerSet.BuildPayload` | Source/StickerSet.swift:130-143 | the loop builds exactly `PayloadOf` the set's current state |
| `StickerSets.StickerSet.Send` | Source/StickerSet.swift:145 | a dispatch is recorded exactly once, after the earlier ones |
| `StickerSets.StickerSet.Import` | Source/StickerSet.swift:125-146 | an empty set fails with `setIsEmpty` and sends nothing. Any other set succeeds and sends exactly one payload, `PayloadOf` its state; the set itself is not changed |

## Left out

- `IPC.send` internals (`Source/IPC.swift`): JSON encoding, the pasteboard
  write with its 60-second expiry, and the `tg://importStickers` wake-up.
  This is platform IPC. `Send` records the payload instead, and the model
  stops at the structured payload, before JSON.
- `Import` drops `IPC.send`'s Boolean result, as the source does. A failed
  JSON encoding or a missing Telegram app is therefore not modelled: `sent`
  records every dispatch attempt.
- `UIImage(data:)` and the `CGFloat` image size with its `Int(...)`
  truncation are foreign code and floating point. They are the `decode`
  parameter, which is assumed deterministic.
- `Valid()` does not include the dimension rule, because that rule depends on
  the decoder passed to each call. The invariant covers the count, the kind
  and the size limit.
- `Source/TelegramApp.swift` and `Source/Helpers.swift` (`UIImage.pngData()`)
  are platform and foreign library calls.
- `Example/Source/ExampleController.swift` is UI code.
- The Swift types use reference semantics (`class Sticker`), but nothing
  mutates a sticker, so value semantics lose nothing observable.
