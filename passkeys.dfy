/** The passkey list kept in the browser's localStorage, and the two
    operations that ask the credential provider for a passkey. The JSON text
    layer is dropped: every storage key holds the list of records that
    JSON.parse would give back for it. */
module Passkeys {
  import opened Wrappers
  import opened WebAuthn

  /** A stored record: both fields are the string encoding of a buffer. */
  datatype PasskeyItem = PasskeyItem(rawId: string, publicKey: string)

  /** A passkey as the account SDK takes it: binary rawId and public key. */
  datatype PasskeyArg = PasskeyArg(rawId: Buffer, publicKey: Buffer)

  /** localStorage, keyed by storage key. */
  type Storage = map<string, seq<PasskeyItem>>

  /** The errors the passkey operations throw. */
  datatype Error =
    | ProviderRejected      // the awaited provider promise rejects; propagated as is
    | NoCredentialReturned  // navigator.credentials.create resolved to null
    | NoPublicKey           // getPublicKey() of the attestation response returned null
    | NotFound              // find found no record, so destructuring undefined throws
    | NullAssertion         // navigator.credentials.get resolved to null, so reading rawId throws

  /** The two encoders of the utility module, which is not part of this
      model: any pair of functions may stand for them. */
  datatype Codec = Codec(bufferToString: Buffer -> string, hexStringToUint8Array: string -> Buffer)

  /** The assumption, never proved here, that decoding undoes encoding. */
  ghost predicate RoundTrips(codec: Codec) {
    forall b: Buffer :: codec.hexStringToUint8Array(codec.bufferToString(b)) == b
  }

  /** The list stored under `key`; an absent key reads as the empty list. */
  function Load(storage: Storage, key: string): seq<PasskeyItem> {
    if key in storage then storage[key] else []
  }

  /** localStorage after reading the list under `key`, pushing `item` and
      writing the whole list back under the same key. */
  function Append(storage: Storage, key: string, item: PasskeyItem): (after: Storage)
    ensures key in after && Load(after, key) == Load(storage, key) + [item]
    ensures |Load(after, key)| == |Load(storage, key)| + 1
    ensures after.Keys == storage.Keys + {key}
    ensures forall k | k in storage && k != key :: after[k] == storage[k]
  {
    storage[key := Load(storage, key) + [item]]
  }

  /** The record storePasskey builds from a passkey. */
  function NewPasskeyItem(codec: Codec, passkey: PasskeyArg): PasskeyItem {
    PasskeyItem(codec.bufferToString(passkey.rawId), codec.bufferToString(passkey.publicKey))
  }

  ghost predicate NoMatch(items: seq<PasskeyItem>, rawId: string) {
    forall j | 0 <= j < |items| :: items[j].rawId != rawId
  }

  /** Position `i` holds the first record whose rawId is `rawId`. */
  ghost predicate IsFirstMatch(items: seq<PasskeyItem>, rawId: string, i: nat) {
    i < |items| && items[i].rawId == rawId && NoMatch(items[..i], rawId)
  }

  /** The position of the record that `items.find(p => p.rawId === rawId)`
      returns, or None where find returns undefined. */
  function FindIndex(items: seq<PasskeyItem>, rawId: string): (r: Option<nat>)
    ensures r.None? <==> NoMatch(items, rawId)
    ensures forall i: nat :: IsFirstMatch(items, rawId, i) <==> r == Some(i)
  {
    if |items| == 0 then None
    else if items[0].rawId == rawId then Some(0)
    else match FindIndex(items[1..], rawId)
      case None => None
      case Some(k) => Some(k + 1)
  }

  /** The decoded public key of the first record for `rawId`. */
  function LookupPublicKey(codec: Codec, items: seq<PasskeyItem>, rawId: string): Result<Buffer, Error> {
    match FindIndex(items, rawId)
    case None => Failure(NotFound)
    case Some(i) => Success(codec.hexStringToUint8Array(items[i].publicKey))
  }

  /** The environment lib/passkeys.ts runs in: the browser's localStorage,
      the storage key of the passkey list and the buffer encoders. */
  class PasskeyStorage {
    const listKey: string
    const codec: Codec
    var localStorage: Storage

    constructor (listKey: string, codec: Codec, localStorage: Storage)
      ensures this.listKey == listKey && this.codec == codec
      ensures this.localStorage == localStorage
    {
      this.listKey := listKey;
      this.codec := codec;
      this.localStorage := localStorage;
    }

    /** loadPasskeys: the stored list, or the empty list when nothing is
        stored. Reading changes nothing, so two reads with no store between
        them give the same list. */
    function LoadPasskeys(): (passkeys: seq<PasskeyItem>)
      reads this
      ensures listKey !in localStorage ==> passkeys == []
      ensures listKey in localStorage ==> passkeys == localStorage[listKey]
    {
      Load(localStorage, listKey)
    }

    /** storePasskey: read the list, push the encoded record, write the whole
        list back. No uniqueness check: a rawId already stored is added again. */
    method StorePasskey(passkey: PasskeyArg)
      modifies this
      ensures localStorage == Append(old(localStorage), listKey, NewPasskeyItem(codec, passkey))
      ensures LoadPasskeys() == old(LoadPasskeys()) + [NewPasskeyItem(codec, passkey)]
      ensures forall k | k in old(localStorage) && k != listKey :: k in localStorage && localStorage[k] == old(localStorage)[k]
    {
      var passkeys := LoadPasskeys();
      var newPasskeyItem := NewPasskeyItem(codec, passkey);
      passkeys := passkeys + [newPasskeyItem];
      localStorage := localStorage[listKey := passkeys];
    }

    /** getPublicKeyFromLocalStorage: the decoded public key of the first
        stored record whose rawId is `passkeyRawId`; NotFound when none is. */
    function GetPublicKeyFromLocalStorage(passkeyRawId: string): (r: Result<Buffer, Error>)
      reads this
      ensures r.Failure? <==> NoMatch(LoadPasskeys(), passkeyRawId)
      ensures r.Failure? ==> r.error == NotFound
      ensures forall i: nat :: IsFirstMatch(LoadPasskeys(), passkeyRawId, i) ==>
                r == Success(codec.hexStringToUint8Array(LoadPasskeys()[i].publicKey))
    {
      LookupPublicKey(codec, LoadPasskeys(), passkeyRawId)
    }

    /** createPasskey: ask the provider for a new credential and check its
        answer. It writes nothing to storage (no modifies clause). */
    method CreatePasskey(challenge: Buffer, userId: Buffer, create: CreationOptions -> ProviderAnswer<Attestation>)
      returns (r: Result<PasskeyArg, Error>)
      requires |challenge| == RANDOM_LENGTH && |userId| == RANDOM_LENGTH
      ensures var answer := create(CreationRequest(challenge, userId));
        && (answer.Rejected? ==> r == Failure(ProviderRejected))
        && (answer == Resolved(None) ==> r == Failure(NoCredentialReturned))
        && (answer.Resolved? && answer.credential.Some? && answer.credential.value.publicKey.None? ==>
              r == Failure(NoPublicKey))
        && (r.Success? <==> answer.Resolved? && answer.credential.Some? && answer.credential.value.publicKey.Some?)
        && (r.Success? ==> r.value.rawId == answer.credential.value.rawId
                           && r.value.publicKey == answer.credential.value.publicKey.value)
    {
      var answer := create(CreationRequest(challenge, userId));
      if answer.Rejected? {
        return Failure(ProviderRejected);
      }
      if answer.credential.None? {
        return Failure(NoCredentialReturned);
      }
      var passkey := answer.credential.value;
      var rawId := passkey.rawId;
      var publicKey := passkey.publicKey;
      if publicKey.None? {
        return Failure(NoPublicKey);
      }
      r := Success(PasskeyArg(rawId, publicKey.value));
    }

    /** getPasskeyFromRawId: have the provider verify the credential with
        this rawId, then pair the rawId it returns with the public key stored
        for `passkeyRawId`. It writes nothing to storage. */
    method GetPasskeyFromRawId(passkeyRawId: string, challenge: Buffer, get: RequestOptions -> ProviderAnswer<Assertion>)
      returns (r: Result<PasskeyArg, Error>)
      requires |challenge| == RANDOM_LENGTH
      ensures var answer := get(AssertionRequest(codec.hexStringToUint8Array(passkeyRawId), challenge));
        && (answer.Rejected? ==> r == Failure(ProviderRejected))
        && (r == Failure(NotFound) <==> answer.Resolved? && NoMatch(LoadPasskeys(), passkeyRawId))
        && (r == Failure(NullAssertion) <==>
              answer == Resolved(None) && !NoMatch(LoadPasskeys(), passkeyRawId))
        && (r.Success? <==> answer.Resolved? && answer.credential.Some? && !NoMatch(LoadPasskeys(), passkeyRawId))
        && (r.Success? ==> r.value.rawId == answer.credential.value.rawId
                           && Success(r.value.publicKey) == GetPublicKeyFromLocalStorage(passkeyRawId))
    {
      var passkeyCredentials := get(AssertionRequest(codec.hexStringToUint8Array(passkeyRawId), challenge));
      if passkeyCredentials.Rejected? {
        return Failure(ProviderRejected);
      }
      var publicKey := GetPublicKeyFromLocalStorage(passkeyRawId);
      if publicKey.Failure? {
        return Failure(publicKey.error);
      }
      if passkeyCredentials.credential.None? {
        return Failure(NullAssertion);
      }
      r := Success(PasskeyArg(passkeyCredentials.credential.value.rawId, publicKey.value));
    }
  }
}
