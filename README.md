# Wi-Fi Aware data-path security config, in Dafny

A model of `WifiAwareDataPathSecurityConfig`, the value with four final fields that tells the
Wi-Fi Aware framework how to secure a data-path: a cipher suite (shared key
SK_128/SK_256, public key PK_128/PK_256) and three nullable credentials, a
passphrase, a PMK (pairwise master key, 32 bytes) and a PMKID (its 16-byte
identifier). The model covers:

- `isValid()`, the combination rule over the four fields (`security_config.dfy`);
- `equals`, with byte arrays compared by content and null kept apart from empty;
- `writeToParcel` and the parcel constructor over an abstract parcel of typed
  tokens, with the round trip (`config_parcel.dfy`);
- the `Builder`: its constructor, the three setters and `build()`, first as
  functions on the Builder's four fields and a chain of fluent calls, then as a
  class whose methods update those fields in place (`config_builder.dfy`).

The central result is that `build()` and `isValid()` agree on every Builder
reached through the constructor and setters: `build()` returns a config exactly
when that config is valid (`ConfigBuilder.ChainBuildAgreesWithIsValid`,
`ConfigBuilder.Builder.Build`). The agreement does not extend to configs made by
the public constructor or the parcel constructor, which bypass the setters;
`ConfigBuilder.EmptyPassphraseWithPmk` proves the divergence on an empty
passphrase with a PMK.

Collaborators defined in other files are abstract (`aware_utils.dfy`): the four
cipher-suite constants of `Characteristics` are constants of unspecified value;
`WifiAwareUtils.validatePmk` and `validatePmkId` accept a non-null array of 32 and
16 bytes; `validatePassphrase` accepts a non-null string whose length lies between
two constants of unspecified value, the lower one at least 1; `TextUtils.isEmpty`
is "null or of length zero". Every result holds for any values of these constants.
Java exceptions are `Failure(IllegalArgument(..))` and `Failure(IllegalState(..))`
results carrying the messages of the Java code; a Java null is `None`.

Two behaviours of `build()` are worth noting: it applies the public-key checks
to every suite that is not a shared-key one (not only to the two PK suites), and
it rejects a passphrase that is set but empty together with a PMK, which
`isValid()` accepts.

The lower passphrase bound being at least 1 (so that an accepted passphrase is
never empty) is an assumption the proofs rely on: `SharedKeyValidity`,
`AcceptedPassphraseIsNotEmpty`, `EmptyPassphraseWithPmk` and, through them, the
agreement of `build()` with `isValid()` (`BuildAgreesWithIsValid`,
`ChainBuildAgreesWithIsValid`, `Builder.Build`) need it. If the validator
accepted an empty passphrase, a Builder given `""` and a PMK through its setters
would be rejected by `build()` at the both-credentials check although
`isValid()` accepts the same fields.

## Model

| member | source | states |
|---|---|---|
| SecurityConfig.UnknownSuiteIsNeverValid | framework/java/android/net/wifi/aware/WifiAwareDataPathSecurityConfig.java:144-168 | a config whose suite is none of SK_128, SK_256, PK_128, PK_256 is never valid |
| SecurityConfig.SharedKeyValidity | framework/java/android/net/wifi/aware/WifiAwareDataPathSecurityConfig.java:145-159 | under a shared-key suite, valid iff there is no PMKID and either an accepted passphrase with no PMK, or a null/empty passphrase with a well-formed PMK |
| SecurityConfig.PublicKeyValidity | framework/java/android/net/wifi/aware/WifiAwareDataPathSecurityConfig.java:160-165 | under a public-key suite, valid iff the PMK and PMKID are well formed and the passphrase is null or empty |
| SecurityConfig.PublicKeyValidityForDistinctSuites | framework/java/android/net/wifi/aware/WifiAwareDataPathSecurityConfig.java:160-165 | when the four suite constants are pairwise different, under any public-key suite the config is valid iff the PMK and PMKID are well formed and the passphrase is null or empty |
| SecurityConfig.ValidConfigCredentials | framework/java/android/net/wifi/aware/WifiAwareDataPathSecurityConfig.java:144-168 | a valid config has a known suite; under SK exactly one of a non-empty passphrase and a PMK and no PMKID; otherwise a PMK, a PMKID and no non-empty passphrase; every credential present is well formed |
| SecurityConfig.ArraysEquals | framework/java/android/net/wifi/aware/WifiAwareDataPathSecurityConfig.java:113 | byte-array comparison by content is exactly equality of nullable arrays: null equals only null |
| SecurityConfig.ObjectsEquals | framework/java/android/net/wifi/aware/WifiAwareDataPathSecurityConfig.java:114 | null-safe string comparison is exactly equality of nullable strings |
| SecurityConfig.Equals | framework/java/android/net/wifi/aware/WifiAwareDataPathSecurityConfig.java:103-116 | two configs are equal exactly when all four fields are, so `equals` is an equivalence |
| SecurityConfig.NullIsNotEmpty | framework/java/android/net/wifi/aware/WifiAwareDataPathSecurityConfig.java:112-115 | a config with an empty PMK, PMKID or passphrase never equals the same config with that field null |
| ConfigParcel.WriteToParcel | framework/java/android/net/wifi/aware/WifiAwareDataPathSecurityConfig.java:95-100 | appends PMK, passphrase, PMKID, cipher suite, in that order, after what the parcel held |
| ConfigParcel.ReadFromParcel | framework/java/android/net/wifi/aware/WifiAwareDataPathSecurityConfig.java:69-74 | reads the four fields in the same order from the read position and, on success, moves past exactly four tokens |
| ConfigParcel.DecodeEncoding | framework/java/android/net/wifi/aware/WifiAwareDataPathSecurityConfig.java:69-100 | reading what was written gives a config equal to the original, null and empty kept apart, whatever follows |
| ConfigParcel.DecodeOnlyEncodings | framework/java/android/net/wifi/aware/WifiAwareDataPathSecurityConfig.java:69-74 | a successful read consumed exactly the encoding of the config it returns |
| ConfigParcel.RoundTrip | framework/java/android/net/wifi/aware/WifiAwareDataPathSecurityConfig.java:69-100 | writing a config to a new parcel and reading it back yields a config equal to it |
| ConfigBuilder.NewBuilderOutcome | framework/java/android/net/wifi/aware/WifiAwareDataPathSecurityConfig.java:235-243 | the constructor throws IllegalArgumentException iff the suite is none of the four; otherwise it stores the suite and no credential |
| ConfigBuilder.ApplyOutcome | framework/java/android/net/wifi/aware/WifiAwareDataPathSecurityConfig.java:256-309 | each setter throws IllegalArgumentException iff its validator rejects the argument, otherwise it overwrites only its own field |
| ConfigBuilder.ApplyKeepsSetterFed | framework/java/android/net/wifi/aware/WifiAwareDataPathSecurityConfig.java:256-309 | a successful setter keeps every set credential accepted by its validator |
| ConfigBuilder.ChainIsSetterFed | framework/java/android/net/wifi/aware/WifiAwareDataPathSecurityConfig.java:235-309 | any chain of constructor and setter calls yields a known suite, the one given, and only validator-accepted credentials |
| ConfigBuilder.BuildOutcome | framework/java/android/net/wifi/aware/WifiAwareDataPathSecurityConfig.java:317-344 | `build()` throws IllegalStateException iff both credentials are set, or under SK neither is or a PMKID is, or otherwise the PMK or PMKID is missing or the passphrase non-empty; else the config holds the Builder's fields |
| ConfigBuilder.BuildAgreesWithIsValid | framework/java/android/net/wifi/aware/WifiAwareDataPathSecurityConfig.java:144-344 | on setter-fed fields, `build()` succeeds iff the config of those fields is valid, and what it returns is valid |
| ConfigBuilder.ChainBuildAgreesWithIsValid | framework/java/android/net/wifi/aware/WifiAwareDataPathSecurityConfig.java:144-344 | after any chain of constructor and setter calls, `build()` succeeds iff `isValid()` holds of the result, which has the chosen suite |
| ConfigBuilder.EmptyPassphraseWithPmk | framework/java/android/net/wifi/aware/WifiAwareDataPathSecurityConfig.java:318-321 | under an SK suite an empty passphrase with a well-formed PMK is valid, yet `build()` on those fields throws at the both-credentials check, and no setter chain reaches them |
| ConfigBuilder.Builder.Create | framework/java/android/net/wifi/aware/WifiAwareDataPathSecurityConfig.java:235-243 | the constructor fails with IllegalArgumentException iff the suite is unknown, else yields a fresh Builder with the suite and no credentials |
| ConfigBuilder.Builder.SetPskPassphrase | framework/java/android/net/wifi/aware/WifiAwareDataPathSecurityConfig.java:256-262 | throws iff the passphrase validator rejects; otherwise sets only the passphrase; keeps the invariant |
| ConfigBuilder.Builder.SetPmk | framework/java/android/net/wifi/aware/WifiAwareDataPathSecurityConfig.java:281-287 | throws iff the PMK is not 32 bytes; otherwise sets only the PMK; keeps the invariant |
| ConfigBuilder.Builder.SetPmkId | framework/java/android/net/wifi/aware/WifiAwareDataPathSecurityConfig.java:303-309 | throws iff the PMKID is not 16 bytes; otherwise sets only the PMKID; keeps the invariant |
| ConfigBuilder.Builder.Build | framework/java/android/net/wifi/aware/WifiAwareDataPathSecurityConfig.java:317-344 | follows the build rules; any returned config holds the fields and is valid, and it throws only when that config would be invalid |
| ConfigBuilder.PublicKeyWithoutPmkId | framework/java/android/net/wifi/aware/WifiAwareDataPathSecurityConfig.java:333-336 | with pairwise different suite constants, a public-key Builder given a PMK but no PMKID throws IllegalStateException on `build()` |

## Left out

- PublicKeyValidity: stated only for a public-key suite that is not also a shared-key one, because the cipher-suite constants are left unspecified and so cannot be assumed distinct; `isValid()` tests the shared-key suites first, and `PublicKeyValidityForDistinctSuites` proves that once the four constants differ the condition covers every public-key suite.
- Aliasing and mutation of byte arrays: `Bytes` is a value sequence, whereas the Java setters store the caller's array reference (lines 285, 307), `build()` passes it on unchanged (line 343) and `getPmk()`/`getPmkId()` hand out the internal array (lines 184-195), so a caller who later writes into that array changes the config's contents, its `equals` and `hashCode` results and what `writeToParcel` emits. No proved result depends on this: `isValid()` and the setters' checks read only nullness and array lengths, which Java arrays never change, and the equality and round-trip results are about the contents at one moment.
- The unit of passphrase length: `Text` is a Dafny `string`, a sequence of Unicode scalar values, whereas Java's `String.length()` counts UTF-16 code units, and a Java string holding a lone surrogate has no Dafny counterpart. No proved result depends on the unit: the passphrase validator is abstract, with bounds of unspecified value, and every result holds for any length measure with an accepted passphrase non-empty.
- `hashCode` (lines 119-122): it depends on library hash functions; since `Equals` is field equality, equal configs trivially agree on any function of their fields.
- `toString` (lines 125-136): string formatting for logs.
- `CREATOR`, `newArray` and `describeContents`: platform transport plumbing. The platform parcel's binary format is replaced by a sequence of typed tokens; a read of a missing or mismatched token is reported as `None`, a case the real parcel handles in its own way.
- The getters (lines 174-203): they are the datatype's field selectors.
- `equals(Object)` against an object of another class and the reference-identity shortcut: the model's `Equals` takes two configs, and identity implies equal fields.
- The bodies of `WifiAwareUtils.validatePassphrase/validatePmk/validatePmkId` and the numeric values of the `Characteristics` constants: WifiAwareUtils and Characteristics are not part of this model; they are abstracted as described above.
- The setters return the Builder itself for chaining; the model returns an outcome and keeps the same object, and the chain is modelled by `ConfigBuilder.Chain`.
- The Java constructor of the Builder throws; a Dafny constructor cannot fail, so it is modelled by the static method `Builder.Create`, with a constructor that requires a known suite.
- Concurrent use of a Builder, and the cryptography and negotiation that consume the config.
