/**
 * The Wi-Fi Aware data-path security config: a value with four final fields,
 * a cipher suite and three nullable credentials, its validity rule and its equality.
 */
module SecurityConfig {
  import opened Wrappers
  import opened AwareUtils

  /**
   * The config. The datatype constructor is the public constructor of the
   * Java class, which stores its four arguments as given and checks nothing.
   */
  datatype Config = Config(cipherSuite: int32, pmk: Bytes, pmkId: Bytes, passphrase: Text)

  /** `isValid()`: the combination rule, branch for branch as in the Java code. */
  predicate IsValid(c: Config) {
    if c.cipherSuite == NcsSk128 || c.cipherSuite == NcsSk256 then
      if IsEmpty(c.passphrase) && c.pmk.None? then false
      else if !IsEmpty(c.passphrase) && c.pmk.Some? then false
      else if c.pmkId.Some? then false
      else if ValidatePassphrase(c.passphrase) && c.pmk.None? then true
      else IsEmpty(c.passphrase) && ValidatePmk(c.pmk)
    else if c.cipherSuite == NcsPk128 || c.cipherSuite == NcsPk256 then
      if !ValidatePmk(c.pmk) || !ValidatePmkId(c.pmkId) then false
      else IsEmpty(c.passphrase)
    else
      false
  }

  /** No config whose suite is none of the four known ones is valid. */
  lemma UnknownSuiteIsNeverValid(c: Config)
    requires !IsKnownSuite(c.cipherSuite)
    ensures !IsValid(c)
  {
  }

  /**
   * Under a shared-key suite, a config is valid exactly when it carries no
   * PMKID and either an accepted passphrase without a PMK, or a well-formed
   * PMK with no (or an empty) passphrase.
   */
  lemma SharedKeyValidity(c: Config)
    requires IsSharedKeySuite(c.cipherSuite)
    ensures IsValid(c) <==>
      && c.pmkId.None?
      && (|| (ValidatePassphrase(c.passphrase) && c.pmk.None?)
          || (IsEmpty(c.passphrase) && ValidatePmk(c.pmk)))
  {
  }

  /**
   * Under a public-key suite (that is not also a shared-key one), a config is
   * valid exactly when its PMK and PMKID are well formed and its passphrase is
   * null or empty.
   */
  lemma PublicKeyValidity(c: Config)
    requires IsPublicKeySuite(c.cipherSuite) && !IsSharedKeySuite(c.cipherSuite)
    ensures IsValid(c) <==>
      ValidatePmk(c.pmk) && ValidatePmkId(c.pmkId) && IsEmpty(c.passphrase)
  {
  }

  /**
   * What a valid config carries: under a shared-key suite exactly one of a
   * non-empty passphrase and a PMK and never a PMKID; under a public-key suite
   * a PMK and a PMKID and no non-empty passphrase.
   */
  lemma ValidConfigCredentials(c: Config)
    requires IsValid(c)
    ensures IsKnownSuite(c.cipherSuite)
    ensures IsSharedKeySuite(c.cipherSuite) ==>
      (!IsEmpty(c.passphrase) <==> c.pmk.None?) && c.pmkId.None?
    ensures !IsSharedKeySuite(c.cipherSuite) ==>
      c.pmk.Some? && c.pmkId.Some? && IsEmpty(c.passphrase)
    ensures c.pmk.Some? ==> |c.pmk.value| == PmkLength
    ensures c.pmkId.Some? ==> |c.pmkId.value| == PmkIdLength
    ensures !IsEmpty(c.passphrase) ==> ValidatePassphrase(c.passphrase)
  {
  }

  /**
   * `Arrays.equals` on two nullable byte arrays: both null, or both non-null
   * with the same length and the same bytes at every index.
   */
  function ArraysEquals(a: Bytes, b: Bytes): (same: bool)
    ensures same <==> a == b
  {
    match (a, b)
    case (None, None) => true
    case (Some(x), Some(y)) =>
      if |x| == |y| && forall i :: 0 <= i < |x| ==> x[i] == y[i] then
        assert x == y;
        true
      else
        false
    case _ => false
  }

  /** `Objects.equals` on two nullable strings. */
  function ObjectsEquals(s: Text, t: Text): (same: bool)
    ensures same <==> s == t
  {
    match (s, t)
    case (None, None) => true
    case (Some(x), Some(y)) => x == y
    case _ => false
  }

  /**
   * `equals`: the suites by `==`, the byte arrays by content (null differs
   * from empty) and the passphrases by `Objects.equals`. It is exactly
   * equality of the four fields, hence an equivalence relation.
   */
  function Equals(a: Config, b: Config): (same: bool)
    ensures same <==> a == b
  {
    && a.cipherSuite == b.cipherSuite
    && ArraysEquals(a.pmk, b.pmk)
    && ObjectsEquals(a.passphrase, b.passphrase)
    && ArraysEquals(a.pmkId, b.pmkId)
  }

  /**
   * Null and empty are different values of every nullable field: a config with
   * an empty PMK, PMKID or passphrase never equals the same config with that
   * field null.
   */
  lemma NullIsNotEmpty(c: Config)
    ensures !Equals(c.(pmk := Some([])), c.(pmk := None))
    ensures !Equals(c.(pmkId := Some([])), c.(pmkId := None))
    ensures !Equals(c.(passphrase := Some("")), c.(passphrase := None))
  {
  }

  /** The four cipher-suite constants are pairwise different. */
  predicate DistinctSuites() {
    && NcsSk128 != NcsSk256 && NcsSk128 != NcsPk128 && NcsSk128 != NcsPk256
    && NcsSk256 != NcsPk128 && NcsSk256 != NcsPk256
    && NcsPk128 != NcsPk256
  }

  /**
   * With pairwise different constants, the public-key rule holds for every
   * public-key suite.
   */
  lemma PublicKeyValidityForDistinctSuites(c: Config)
    requires DistinctSuites() && IsPublicKeySuite(c.cipherSuite)
    ensures IsValid(c) <==>
      ValidatePmk(c.pmk) && ValidatePmkId(c.pmkId) && IsEmpty(c.passphrase)
  {
    assert !IsSharedKeySuite(c.cipherSuite);
    PublicKeyValidity(c);
  }
}
