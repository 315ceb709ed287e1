# Passkey store of the Safe passkeys tutorial, in Dafny

This project models `lib/passkeys.ts`: the list of passkey records the web
front end keeps in the browser's `localStorage`, and the two operations that
ask the browser's credential provider (W3C Web Authentication) for a passkey.

- `wrappers.dfy` — `Option` and `Result`, standing for `null` returns and thrown errors.
- `webauthn.dfy` — the requests sent to `navigator.credentials.create` / `get`
  (with the source's constants: algorithm -7, ECDSA with SHA-256 per section 8.1
  of RFC 8152; relying party "Safe SmartAccount"; label "Safe Owner"; 60 000 ms
  timeout; 32-byte random challenge and user id) and the shape of the answers:
  the promise rejects, or resolves to a credential or to `null`.
- `passkeys.dfy` — the records, `localStorage` as a map from storage key to a
  list of records, the value-level store operations (`Load`, `Append`,
  `FindIndex`, `LookupPublicKey`), and the class `PasskeyStorage` whose field
  `localStorage` the operations of `lib/passkeys.ts` read and update.
- `passkey_properties.dfy` — lemmas relating several operations.

The credential provider is a function parameter from request to answer, so
every contract holds whatever the provider does. The random buffers drawn
with `crypto.getRandomValues` are parameters of 32 bytes. The encoders
`bufferToString` and `hexStringToUint8Array` come from `lib/utils`, which is
not part of this model; they are the two fields of a `Codec` given to the
class constructor, and may be any functions. Their round trip is never
proved: the one lemma that needs it takes it as the explicit precondition
`RoundTrips(codec)`. The storage key `STORAGE_PASSKEY_LIST_KEY` comes from
`lib/constants`, which is not part of this model either; it is the constant
field `listKey`.

Behaviours of the code worth knowing:
- `storePasskey` does not check that a `rawId` is unique, so duplicates are
  appended (`DuplicateRawIdsAreKept`).
- A failed lookup is the `TypeError` of destructuring `undefined` after
  `find(...)!`; the model calls it `NotFound`.
- `getPasskeyFromRawId` awaits the provider before it looks up the stored
  key. So a rejected provider call is reported before a missing record. It
  never checks the provider's `null`, so reading `.rawId` throws after a
  successful lookup (`NullAssertion`).

## Model

| member | source | states |
|---|---|---|
| `Passkeys.PasskeyStorage.LoadPasskeys` | lib/passkeys.ts:70-76 | with no entry under the list key the result is the empty list; otherwise it is the stored list unchanged; it only reads state |
| `Passkeys.PasskeyStorage.StorePasskey` | lib/passkeys.ts:57-68 | the new list is the old list followed by exactly the one encoded record; every other storage key keeps its value |
| `Passkeys.Append` | lib/passkeys.ts:58-67 | read-push-write on a storage map: the list grows by one, the earlier records keep order and contents, the key set gains only the list key, other keys are unchanged |
| `Passkeys.FindIndex` | lib/passkeys.ts:81-83 | the search returns position `i` exactly when `i` holds the first record with that rawId, and returns none exactly when no record has it |
| `Passkeys.PasskeyStorage.GetPublicKeyFromLocalStorage` | lib/passkeys.ts:78-86 | fails, with the not-found error, exactly when no stored record has the rawId; otherwise returns the decoded public key of the first such record |
| `Passkeys.PasskeyStorage.CreatePasskey` | lib/passkeys.ts:8-55 | fails when the provider rejects, when it returns no credential, and when `getPublicKey()` gives null; succeeds exactly otherwise, returning that credential's rawId and public key; writes no storage |
| `Passkeys.PasskeyStorage.GetPasskeyFromRawId` | lib/passkeys.ts:88-112 | asks the provider about the decoded rawId only; after the provider answers, fails with not-found exactly when no record matches; on success pairs the provider's rawId with the stored public key; writes no storage |
| `PasskeyProperties.LoadAfterAppends` | lib/passkeys.ts:57-76 | after any run of stores the list is the earlier list followed by the new records in append order, and other keys are untouched |
| `PasskeyProperties.FindIndexAfterAppend` | lib/passkeys.ts:65-83 | appending a record never changes an existing first match; without one, the new record is found exactly when its rawId matches |
| `PasskeyProperties.DuplicateRawIdsAreKept` | lib/passkeys.ts:57-68 | storing two records with the same rawId keeps both, in order; the search finds an earlier record with that rawId if there is one, else the first of the two |
| `PasskeyProperties.StoredPasskeyIsFound` | lib/passkeys.ts:57-86 | right after storing a passkey the lookup of its encoded rawId succeeds, and when that rawId was new it yields the stored public key, decoded |
| `PasskeyProperties.StoredPublicKeyRoundTrips` | lib/passkeys.ts:60-85 | assuming the encoders round-trip, a passkey stored under a new rawId is looked up with its own public key bytes |
| `PasskeyProperties.StoredPasskeyIsFoundInStorage` | lib/passkeys.ts:57-86 | in a `PasskeyStorage` whose state is the result of storing a passkey, `getPublicKeyFromLocalStorage` of its encoded rawId succeeds, and for a new rawId returns the stored key, decoded |
| `PasskeyProperties.UniqueRawIdIsFound` | lib/passkeys.ts:81-83 | when all rawIds are distinct, searching for a record's rawId finds that very record |

## Left out

- The JSON layer: a stored value is the list itself, not its JSON text. So a corrupt stored value, on which the unguarded `JSON.parse` would throw, cannot occur. Neither can an empty string, which the truthiness test would read as the empty list.
- StorePasskey, LoadPasskeys: storage access never fails. The `QuotaExceededError` of `setItem` (after which nothing is written and the error escapes `storePasskey`) and the `SecurityError` of blocked storage are not modelled, because they come from the browser, not from this code.
- `localStorage` is modelled as holding a passkey list under every key. The values under other keys matter only in that they are left unchanged.
- The encoders `bufferToString` and `hexStringToUint8Array` are arbitrary functions here, because their source is not part of this model. Their round trip is an explicit assumption, never a proved fact.
- The inside of the credential provider: key generation, attestation, user verification, the timeout and cancellation. Only the shape of its answer is kept: a rejection, a credential, or null.
- The random values from `crypto.getRandomValues`: they are parameters.
- The race between two concurrent `storePasskey` calls (a lost update): the model is single-threaded.
- `console.log` diagnostics.
- The React components, the theme and the account-abstraction transfer in `lib/usdc.ts`: they are UI or calls into external SDKs. `components/LoginWithPasskey.tsx` imports a function that `lib/passkeys.ts` does not export, so it is dead code.
