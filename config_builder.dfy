/**
 * The Builder of a security config: a mutable accumulator whose constructor
 * and setters reject individually malformed values, and whose `build()`
 * applies its own cross-field checks before calling the config constructor.
 * The rules are first stated on values (the Builder's four fields as a
 * datatype, a chain of fluent calls), then a class with the same fields is
 * proved to follow them.
 */
module ConfigBuilder {
  import opened Wrappers
  import opened AwareUtils
  import opened SecurityConfig

  /** The two exceptions the Builder throws, with their messages. */
  datatype Error =
    | IllegalArgument(message: string)
    | IllegalState(message: string)

  const InvalidSuiteMessage := "Invalid cipher suite"
  const PassphraseLengthMessage := "Passphrase must meet length requirements"
  const PmkLengthMessage := "PMK must 32 bytes"
  const PmkIdLengthMessage := "PMKID must 16 bytes"
  const BothCredentialsMessage := "Can only specify a Passphrase or a PMK - not both!"
  const NoCredentialMessage := "Must set either PMK or Passphrase for shared key cipher suite"
  const PmkIdWithSharedKeyMessage := "PMKID should not set for shared key cipher suite"
  const MissingPmkOrPmkIdMessage := "Must set both PMK and PMKID for public key cipher suite"
  const PassphraseWithPublicKeyMessage := "Passphrase is not support for public key cipher suite"

  /** The four fields of a Builder. */
  datatype BuilderState = BuilderState(pmk: Bytes, passphrase: Text, pmkId: Bytes, cipherSuite: int32)

  /** One setter call of the fluent chain, with its (nullable) argument. */
  datatype Call =
    | SetPskPassphrase(passphrase: Text)
    | SetPmk(pmk: Bytes)
    | SetPmkId(pmkId: Bytes)

  /**
   * What the constructor and setters can produce: a known suite, and every
   * credential either unset or accepted by its validator.
   */
  ghost predicate SetterFed(b: BuilderState) {
    && IsKnownSuite(b.cipherSuite)
    && (b.passphrase.Some? ==> ValidatePassphrase(b.passphrase))
    && (b.pmk.Some? ==> ValidatePmk(b.pmk))
    && (b.pmkId.Some? ==> ValidatePmkId(b.pmkId))
  }

  /** `Builder(cipherSuite)`. */
  function NewBuilder(cipherSuite: int32): Result<BuilderState, Error> {
    if !(cipherSuite == NcsSk128 || cipherSuite == NcsSk256
         || cipherSuite == NcsPk128 || cipherSuite == NcsPk256)
    then Failure(IllegalArgument(InvalidSuiteMessage))
    else Success(BuilderState(None, None, None, cipherSuite))
  }

  /** One setter: `setPskPassphrase`, `setPmk` or `setPmkId`. */
  function Apply(b: BuilderState, call: Call): Result<BuilderState, Error> {
    match call
    case SetPskPassphrase(s) =>
      if !ValidatePassphrase(s) then Failure(IllegalArgument(PassphraseLengthMessage))
      else Success(b.(passphrase := s))
    case SetPmk(pmk) =>
      if !ValidatePmk(pmk) then Failure(IllegalArgument(PmkLengthMessage))
      else Success(b.(pmk := pmk))
    case SetPmkId(pmkId) =>
      if !ValidatePmkId(pmkId) then Failure(IllegalArgument(PmkIdLengthMessage))
      else Success(b.(pmkId := pmkId))
  }

  /**
   * `new Builder(cipherSuite)` followed by the setter calls in order; the
   * first exception ends the chain.
   */
  function Chain(cipherSuite: int32, calls: seq<Call>): Result<BuilderState, Error>
    decreases |calls|
  {
    if |calls| == 0 then NewBuilder(cipherSuite)
    else
      match Chain(cipherSuite, calls[..|calls| - 1])
      case Failure(e) => Failure(e)
      case Success(b) => Apply(b, calls[|calls| - 1])
  }

  /** The config `build()` passes to the constructor. */
  function ConfigOf(b: BuilderState): Config {
    Config(b.cipherSuite, b.pmk, b.pmkId, b.passphrase)
  }

  /** `build()`. */
  function BuildConfig(b: BuilderState): Result<Config, Error> {
    if b.passphrase.Some? && b.pmk.Some? then
      Failure(IllegalState(BothCredentialsMessage))
    else if b.cipherSuite == NcsSk128 || b.cipherSuite == NcsSk256 then
      if IsEmpty(b.passphrase) && b.pmk.None? then Failure(IllegalState(NoCredentialMessage))
      else if b.pmkId.Some? then Failure(IllegalState(PmkIdWithSharedKeyMessage))
      else Success(ConfigOf(b))
    else
      if b.pmk.None? || b.pmkId.None? then Failure(IllegalState(MissingPmkOrPmkIdMessage))
      else if !IsEmpty(b.passphrase) then Failure(IllegalState(PassphraseWithPublicKeyMessage))
      else Success(ConfigOf(b))
  }

  /**
   * The constructor throws `IllegalArgumentException` exactly for a suite that
   * is none of the four; otherwise it stores the suite and no credential.
   */
  lemma NewBuilderOutcome(cipherSuite: int32)
    ensures NewBuilder(cipherSuite).Failure? <==> !IsKnownSuite(cipherSuite)
    ensures NewBuilder(cipherSuite).Failure? ==>
      NewBuilder(cipherSuite).error == IllegalArgument(InvalidSuiteMessage)
    ensures NewBuilder(cipherSuite).Success? ==>
      NewBuilder(cipherSuite).value == BuilderState(None, None, None, cipherSuite)
    ensures NewBuilder(cipherSuite).Success? ==> SetterFed(NewBuilder(cipherSuite).value)
  {
  }

  /**
   * Each setter throws `IllegalArgumentException` exactly when its validator
   * rejects the argument; otherwise it overwrites its own field and leaves
   * the other three unchanged.
   */
  lemma ApplyOutcome(b: BuilderState, call: Call)
    ensures call.SetPskPassphrase? ==>
      if ValidatePassphrase(call.passphrase)
      then Apply(b, call) == Success(BuilderState(b.pmk, call.passphrase, b.pmkId, b.cipherSuite))
      else Apply(b, call) == Failure(IllegalArgument(PassphraseLengthMessage))
    ensures call.SetPmk? ==>
      if ValidatePmk(call.pmk)
      then Apply(b, call) == Success(BuilderState(call.pmk, b.passphrase, b.pmkId, b.cipherSuite))
      else Apply(b, call) == Failure(IllegalArgument(PmkLengthMessage))
    ensures call.SetPmkId? ==>
      if ValidatePmkId(call.pmkId)
      then Apply(b, call) == Success(BuilderState(b.pmk, b.passphrase, call.pmkId, b.cipherSuite))
      else Apply(b, call) == Failure(IllegalArgument(PmkIdLengthMessage))
  {
  }

  /** A setter that succeeds keeps a setter-fed Builder setter-fed. */
  lemma ApplyKeepsSetterFed(b: BuilderState, call: Call)
    requires SetterFed(b)
    ensures Apply(b, call).Success? ==> SetterFed(Apply(b, call).value)
  {
  }

  /** Every Builder a chain of constructor and setter calls produces is setter-fed. */
  lemma {:induction false} ChainIsSetterFed(cipherSuite: int32, calls: seq<Call>)
    ensures Chain(cipherSuite, calls).Success? ==> SetterFed(Chain(cipherSuite, calls).value)
    ensures Chain(cipherSuite, calls).Success? ==> Chain(cipherSuite, calls).value.cipherSuite == cipherSuite
    decreases |calls|
  {
    if |calls| > 0 {
      var prefix := calls[..|calls| - 1];
      ChainIsSetterFed(cipherSuite, prefix);
      if Chain(cipherSuite, prefix).Success? {
        ApplyKeepsSetterFed(Chain(cipherSuite, prefix).value, calls[|calls| - 1]);
      }
    }
  }

  /**
   * `build()` throws `IllegalStateException` when both a passphrase and a PMK
   * are set; under a shared-key suite when neither credential is set or a
   * PMKID is; under any other suite when the PMK or the PMKID is missing or
   * a passphrase is non-empty. Otherwise it returns a config holding the
   * Builder's four fields.
   */
  lemma BuildOutcome(b: BuilderState)
    ensures BuildConfig(b).Failure? <==>
      || (b.passphrase.Some? && b.pmk.Some?)
      || (IsSharedKeySuite(b.cipherSuite) && ((IsEmpty(b.passphrase) && b.pmk.None?) || b.pmkId.Some?))
      || (!IsSharedKeySuite(b.cipherSuite) && (b.pmk.None? || b.pmkId.None? || !IsEmpty(b.passphrase)))
    ensures BuildConfig(b).Failure? ==> BuildConfig(b).error.IllegalState?
    ensures BuildConfig(b).Success? ==>
      var c := BuildConfig(b).value;
      c.cipherSuite == b.cipherSuite && c.pmk == b.pmk && c.pmkId == b.pmkId && c.passphrase == b.passphrase
  {
  }

  /**
   * On a setter-fed Builder, `build()` and `isValid()` agree: a config is
   * returned exactly when the config of the Builder's fields is valid.
   */
  lemma BuildAgreesWithIsValid(b: BuilderState)
    requires SetterFed(b)
    ensures BuildConfig(b).Success? <==> IsValid(ConfigOf(b))
    ensures BuildConfig(b).Success? ==> IsValid(BuildConfig(b).value)
  {
    if b.passphrase.Some? {
      AcceptedPassphraseIsNotEmpty(b.passphrase);
    }
  }

  /**
   * Agreement for the fluent chain: whatever setter calls follow the
   * constructor, `build()` returns a config exactly when that config is
   * valid, so every config it returns satisfies `isValid()`.
   */
  lemma ChainBuildAgreesWithIsValid(cipherSuite: int32, calls: seq<Call>)
    requires Chain(cipherSuite, calls).Success?
    ensures var b := Chain(cipherSuite, calls).value;
      BuildConfig(b).Success? <==> IsValid(ConfigOf(b))
    ensures var r := BuildConfig(Chain(cipherSuite, calls).value);
      r.Success? ==> IsValid(r.value) && r.value.cipherSuite == cipherSuite
  {
    ChainIsSetterFed(cipherSuite, calls);
    BuildAgreesWithIsValid(Chain(cipherSuite, calls).value);
  }

  /** 32 zero bytes: a well-formed PMK. */
  function ZeroPmk(): (pmk: seq<byte>)
    ensures |pmk| == PmkLength
  {
    seq(32, _ => 0)
  }

  /**
   * The public constructor and the parcel constructor bypass the setters, and
   * then the two rule sets differ: under a shared-key suite an empty
   * passphrase with a well-formed PMK is valid, yet `build()` on the same
   * fields throws, and no chain of setter calls can produce those fields.
   */
  lemma EmptyPassphraseWithPmk(cipherSuite: int32)
    requires IsSharedKeySuite(cipherSuite)
    ensures var b := BuilderState(Some(ZeroPmk()), Some(""), None, cipherSuite);
      && IsValid(ConfigOf(b))
      && BuildConfig(b) == Failure(IllegalState(BothCredentialsMessage))
      && !SetterFed(b)
  {
  }

  /** The Builder object, whose setters update its fields in place. */
  class Builder {
    var pmk: Bytes
    var passphrase: Text
    var pmkId: Bytes
    var cipherSuite: int32

    function Fields(): BuilderState
      reads this
    {
      BuilderState(pmk, passphrase, pmkId, cipherSuite)
    }

    /** The object invariant: the fields are what the setters can produce. */
    ghost predicate Valid()
      reads this
    {
      SetterFed(Fields())
    }

    /** Stores a suite already checked by `Create`. */
    constructor (cipherSuite: int32)
      requires IsKnownSuite(cipherSuite)
      ensures Valid() && Fields() == BuilderState(None, None, None, cipherSuite)
    {
      this.pmk := None;
      this.passphrase := None;
      this.pmkId := None;
      this.cipherSuite := cipherSuite;
    }

    /** `new Builder(cipherSuite)`, which throws on an unknown suite. */
    static method Create(cipherSuite: int32) returns (r: Result<Builder, Error>)
      ensures r.Failure? <==> !IsKnownSuite(cipherSuite)
      ensures r.Failure? ==> r.error == IllegalArgument(InvalidSuiteMessage)
      ensures r.Success? ==>
        fresh(r.value) && r.value.Valid() && Success(r.value.Fields()) == NewBuilder(cipherSuite)
    {
      if cipherSuite != NcsSk128 && cipherSuite != NcsSk256
         && cipherSuite != NcsPk128 && cipherSuite != NcsPk256 {
        return Failure(IllegalArgument(InvalidSuiteMessage));
      }
      var b := new Builder(cipherSuite);
      r := Success(b);
    }

    method SetPskPassphrase(s: Text) returns (r: Outcome<Error>)
      requires Valid()
      modifies this
      ensures Valid()
      ensures r.Fail? <==> !ValidatePassphrase(s)
      ensures r.Fail? ==> r.error == IllegalArgument(PassphraseLengthMessage) && Fields() == old(Fields())
      ensures r.Pass? ==> Fields() == old(Fields()).(passphrase := s)
      ensures r.Pass? ==> Apply(old(Fields()), Call.SetPskPassphrase(s)) == Success(Fields())
    {
      if !ValidatePassphrase(s) {
        return Fail(IllegalArgument(PassphraseLengthMessage));
      }
      passphrase := s;
      r := Pass;
    }

    method SetPmk(k: Bytes) returns (r: Outcome<Error>)
      requires Valid()
      modifies this
      ensures Valid()
      ensures r.Fail? <==> !ValidatePmk(k)
      ensures r.Fail? ==> r.error == IllegalArgument(PmkLengthMessage) && Fields() == old(Fields())
      ensures r.Pass? ==> Fields() == old(Fields()).(pmk := k)
      ensures r.Pass? ==> Apply(old(Fields()), Call.SetPmk(k)) == Success(Fields())
    {
      if !ValidatePmk(k) {
        return Fail(IllegalArgument(PmkLengthMessage));
      }
      pmk := k;
      r := Pass;
    }

    method SetPmkId(id: Bytes) returns (r: Outcome<Error>)
      requires Valid()
      modifies this
      ensures Valid()
      ensures r.Fail? <==> !ValidatePmkId(id)
      ensures r.Fail? ==> r.error == IllegalArgument(PmkIdLengthMessage) && Fields() == old(Fields())
      ensures r.Pass? ==> Fields() == old(Fields()).(pmkId := id)
      ensures r.Pass? ==> Apply(old(Fields()), Call.SetPmkId(id)) == Success(Fields())
    {
      if !ValidatePmkId(id) {
        return Fail(IllegalArgument(PmkIdLengthMessage));
      }
      pmkId := id;
      r := Pass;
    }

    /**
     * `build()`: follows `BuildConfig`, and every config it returns holds the
     * Builder's fields and satisfies `isValid()`; it throws only when the
     * config of its fields would be invalid.
     */
    method Build() returns (r: Result<Config, Error>)
      requires Valid()
      ensures r == BuildConfig(Fields())
      ensures r.Success? ==> r.value == ConfigOf(Fields()) && IsValid(r.value)
      ensures r.Failure? <==> !IsValid(ConfigOf(Fields()))
    {
      BuildAgreesWithIsValid(Fields());
      if passphrase.Some? && pmk.Some? {
        return Failure(IllegalState(BothCredentialsMessage));
      }
      if cipherSuite == NcsSk128 || cipherSuite == NcsSk256 {
        if IsEmpty(passphrase) && pmk.None? {
          return Failure(IllegalState(NoCredentialMessage));
        }
        if pmkId.Some? {
          return Failure(IllegalState(PmkIdWithSharedKeyMessage));
        }
      } else {
        if pmk.None? || pmkId.None? {
          return Failure(IllegalState(MissingPmkOrPmkIdMessage));
        }
        if !IsEmpty(passphrase) {
          return Failure(IllegalState(PassphraseWithPublicKeyMessage));
        }
      }
      r := Success(Config(cipherSuite, pmk, pmkId, passphrase));
    }
  }

  /**
   * A client of the class: a public-key Builder given a PMK but no PMKID
   * cannot build, as the Builder's documentation requires both.
   */
  method PublicKeyWithoutPmkId(cipherSuite: int32) returns (r: Result<Config, Error>)
    requires DistinctSuites() && IsPublicKeySuite(cipherSuite)
    ensures r == Failure(IllegalState(MissingPmkOrPmkIdMessage))
  {
    var created := Builder.Create(cipherSuite);
    var b := created.value;
    var outcome := b.SetPmk(Some(ZeroPmk()));
    r := b.Build();
  }
}
