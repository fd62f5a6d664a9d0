/** How HiChain's error numbers become softbus error numbers (auth_hichain.c), on 32-bit words. */
module HichainError {
  import opened Common

  const DAS_MIN: bv32 := 0xF000_0001
  const DAS_MAX: bv32 := 0xF000_10FF
  const COMMON_MIN: bv32 := 0x0000_0001
  const COMMON_MAX: bv32 := 0x0000_FFFF
  /** SOFTBUS_SUB_SYSTEM and AUTH_SUB_MODULE_CODE in place. */
  const MODULE_BITS: bv32 := (203 << 21) | (3 << 16)
  /** HICHAIN_RETURN_NOT_TRUSTED as a word. */
  const NOT_TRUSTED: bv32 := 0xE69C_FAFC

  /** GetSoftbusHichainAuthErrorCode. */
  function MapError(code: bv32): bv32 {
    if DAS_MIN <= code <= DAS_MAX then 0 - (MODULE_BITS | ((code & 0xFFFF) | 0x1000))
    else if COMMON_MIN <= code <= COMMON_MAX then
      0 - (MODULE_BITS | ((code & 0xFF) | (((code & 0xF000) >> 12) << 8)))
    else code
  }

  /** The int32_t a word is read as. */
  function AsInt32(w: bv32): int {
    if w < 0x8000_0000 then w as int else w as int - 0x1_0000_0000
  }

  /** The mapping yields success only for success, so a HiChain error can complete a session with
      SOFTBUS_OK only when HiChain itself called its error 0. */
  lemma {:induction false} OnlyZeroMapsToOk(code: bv32)
    ensures AsInt32(MapError(code)) == SOFTBUS_OK <==> code == 0
  {
    ZeroWord(code);
    ZeroInt(MapError(code));
  }

  lemma {:induction false} ZeroInt(w: bv32)
    ensures AsInt32(w) == 0 <==> w == 0
  {
    assert w as int == 0 ==> (w as int) as bv32 == 0;
  }

  lemma {:induction false} ZeroWord(code: bv32)
    ensures MapError(code) == 0 <==> code == 0
  {
  }

  /** Exactly the common errors 0x5?04, and the softbus number itself, mean a lost trust relation. */
  lemma {:induction false} NotTrustedCodes(code: bv32)
    ensures MapError(code) == NOT_TRUSTED
            <==> (COMMON_MIN <= code <= COMMON_MAX && code & 0xF0FF == 0x5004) || code == NOT_TRUSTED
    ensures AsInt32(NOT_TRUSTED) == HICHAIN_RETURN_NOT_TRUSTED
  {
  }

  /** What is left of an error in the softbus number: the number is negative and of the authentication module; a
      device-authentication error keeps its low 16 bits, with bit 12 set, a common error its low byte and, above it, its
      top digit. Everything else is passed on as it is. */
  lemma {:induction false} MappedFields(code: bv32)
    ensures DAS_MIN <= code <= DAS_MAX ==>
              var n := 0 - MapError(code); n >> 16 == MODULE_BITS >> 16 && n & 0xFFFF == (code & 0xFFFF) | 0x1000
    ensures COMMON_MIN <= code <= COMMON_MAX ==>
              var n := 0 - MapError(code);
              n >> 16 == MODULE_BITS >> 16 && n & 0xFF == code & 0xFF && (n >> 8) & 0xFF == code >> 12
    ensures code == 0 || DAS_MAX < code || COMMON_MAX < code < DAS_MIN ==> MapError(code) == code
  {
  }
}
