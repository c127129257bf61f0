/**
 * The collaborators of the security config that live in other files of the
 * Wi-Fi Aware framework: the cipher-suite constants of `Characteristics`, the
 * field validators of `WifiAwareUtils` and `TextUtils.isEmpty`. Their exact
 * values are not fixed here; every result of the model holds for any choice.
 */
module AwareUtils {
  import opened Wrappers

  /** A Java `int`. */
  newtype int32 = x: int | -0x8000_0000 <= x < 0x8000_0000

  /** A Java `byte`. */
  newtype byte = x: int | -0x80 <= x < 0x80

  /** A nullable `byte[]`. */
  type Bytes = Option<seq<byte>>

  /** A nullable `String`. */
  type Text = Option<string>

  type Positive = n: nat | n >= 1 witness 1

  // The four cipher suites of the Wi-Fi Aware data-path: shared key (SK) and
  // public key (PK), each at 128 and 256 bits. Their numeric values are
  // defined elsewhere and left unspecified.
  const NcsSk128: int32
  const NcsSk256: int32
  const NcsPk128: int32
  const NcsPk256: int32

  /** Bounds of the passphrase length accepted by the passphrase validator. */
  const PassphraseMinLength: Positive
  const PassphraseMaxLength: nat

  /** Length in bytes of a pairwise master key (PMK). */
  const PmkLength := 32

  /** Length in bytes of a PMK identifier (PMKID). */
  const PmkIdLength := 16

  predicate IsSharedKeySuite(suite: int32) {
    suite == NcsSk128 || suite == NcsSk256
  }

  predicate IsPublicKeySuite(suite: int32) {
    suite == NcsPk128 || suite == NcsPk256
  }

  predicate IsKnownSuite(suite: int32) {
    IsSharedKeySuite(suite) || IsPublicKeySuite(suite)
  }

  /** `TextUtils.isEmpty`: null or of length zero. */
  predicate IsEmpty(s: Text) {
    s.None? || |s.value| == 0
  }

  /** `WifiAwareUtils.validatePassphrase`: non-null and of an accepted length. */
  predicate ValidatePassphrase(s: Text) {
    s.Some? && PassphraseMinLength <= |s.value| <= PassphraseMaxLength
  }

  /** `WifiAwareUtils.validatePmk`: non-null and 32 bytes long. */
  predicate ValidatePmk(pmk: Bytes) {
    pmk.Some? && |pmk.value| == PmkLength
  }

  /** `WifiAwareUtils.validatePmkId`: non-null and 16 bytes long. */
  predicate ValidatePmkId(pmkId: Bytes) {
    pmkId.Some? && |pmkId.value| == PmkIdLength
  }

  /** A passphrase the validator accepts is never empty. */
  lemma AcceptedPassphraseIsNotEmpty(s: Text)
    requires ValidatePassphrase(s)
    ensures !IsEmpty(s)
  {
  }
}
