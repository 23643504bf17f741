/** The closed error enumeration `StickersError` of `Source/Errors.swift`. */
module Errors {

  /** FileIsEmpty, EmojiIsEmpty and TelegramNotInstalled are declared by the
      library but thrown by no operation of the sticker set. */
  datatype StickersError =
    | FileIsEmpty
    | FileTooBig
    | InvalidDimensions
    | CountLimitExceeded
    | DataTypeMismatch
    | SetIsEmpty
    | EmojiIsEmpty
    | TelegramNotInstalled

  /** The eight declared cases. */
  function DeclaredErrors(): set<StickersError>
  {
    {FileIsEmpty, FileTooBig, InvalidDimensions, CountLimitExceeded,
     DataTypeMismatch, SetIsEmpty, EmojiIsEmpty, TelegramNotInstalled}
  }

  /** The enumeration is closed: every error value is one of the declared
      cases, and the eight cases are pairwise distinct. */
  lemma ClosedEnumeration()
    ensures forall e: StickersError :: e in DeclaredErrors()
    ensures |DeclaredErrors()| == 8
  {
    forall e: StickersError ensures e in DeclaredErrors() {
      match e
      case FileIsEmpty =>
      case FileTooBig =>
      case InvalidDimensions =>
      case CountLimitExceeded =>
      case DataTypeMismatch =>
      case SetIsEmpty =>
      case EmojiIsEmpty =>
      case TelegramNotInstalled =>
    }
    assert DeclaredErrors() == {FileIsEmpty} + {FileTooBig} + {InvalidDimensions} + {CountLimitExceeded}
      + {DataTypeMismatch} + {SetIsEmpty} + {EmojiIsEmpty} + {TelegramNotInstalled};
  }
}
