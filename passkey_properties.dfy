/** Properties of the passkey list that relate several operations: appends
    accumulate in order, the first-match search over a grown list, duplicate
    rawIds, and finding a passkey right after storing it. */
module PasskeyProperties {
  import opened Wrappers
  import opened Passkeys

  /** localStorage after one storePasskey call per record, in order. */
  function AppendAll(storage: Storage, key: string, items: seq<PasskeyItem>): Storage
    decreases |items|
  {
    if items == [] then storage
    else AppendAll(Append(storage, key, items[0]), key, items[1..])
  }

  /** A run of appends leaves exactly the earlier list followed by the new
      records in append order, and touches no other key. */
  lemma {:induction false} LoadAfterAppends(storage: Storage, key: string, items: seq<PasskeyItem>)
    ensures Load(AppendAll(storage, key, items), key) == Load(storage, key) + items
    ensures forall k | k in storage && k != key ::
              k in AppendAll(storage, key, items) && AppendAll(storage, key, items)[k] == storage[k]
    decreases |items|
  {
    if items != [] {
      var next := Append(storage, key, items[0]);
      LoadAfterAppends(next, key, items[1..]);
      assert Load(storage, key) + items == Load(storage, key) + [items[0]] + items[1..];
    }
  }

  /** Appending a record never changes which record an earlier match finds;
      without one, the new record is found exactly when its rawId matches. */
  lemma {:induction false} FindIndexAfterAppend(items: seq<PasskeyItem>, item: PasskeyItem, rawId: string)
    ensures FindIndex(items, rawId).Some? ==> FindIndex(items + [item], rawId) == FindIndex(items, rawId)
    ensures FindIndex(items, rawId).None? && item.rawId == rawId ==> FindIndex(items + [item], rawId) == Some(|items|)
    ensures FindIndex(items, rawId).None? && item.rawId != rawId ==> FindIndex(items + [item], rawId).None?
  {
    if items != [] {
      assert (items + [item])[1..] == items[1..] + [item];
      FindIndexAfterAppend(items[1..], item, rawId);
    }
  }

  /** Storing a second passkey with an already stored rawId keeps both
      records, and the search by that rawId still finds the earlier one. */
  lemma DuplicateRawIdsAreKept(storage: Storage, key: string, first: PasskeyItem, second: PasskeyItem)
    requires first.rawId == second.rawId
    ensures var items := Load(Append(Append(storage, key, first), key, second), key);
      var n := |Load(storage, key)|;
      var earlier := FindIndex(Load(storage, key), first.rawId);
      && |items| == n + 2 && items[n] == first && items[n + 1] == second
      && FindIndex(items, first.rawId) == if earlier.Some? then earlier else Some(n)
  {
    var before := Load(storage, key);
    FindIndexAfterAppend(before, first, first.rawId);
    FindIndexAfterAppend(before + [first], second, first.rawId);
  }

  /** Right after storePasskey, looking up the stored rawId succeeds; when no
      earlier record had that rawId it yields the key just stored, decoded. */
  lemma StoredPasskeyIsFound(codec: Codec, storage: Storage, key: string, passkey: PasskeyArg)
    ensures var id := codec.bufferToString(passkey.rawId);
      var items := Load(Append(storage, key, NewPasskeyItem(codec, passkey)), key);
      && LookupPublicKey(codec, items, id).Success?
      && (NoMatch(Load(storage, key), id) ==>
            LookupPublicKey(codec, items, id) ==
              Success(codec.hexStringToUint8Array(codec.bufferToString(passkey.publicKey))))
  {
    var id := codec.bufferToString(passkey.rawId);
    FindIndexAfterAppend(Load(storage, key), NewPasskeyItem(codec, passkey), id);
  }

  /** Under the assumption that the encoders round-trip, a passkey stored
      under a fresh rawId is returned by the lookup with its own public key. */
  lemma StoredPublicKeyRoundTrips(codec: Codec, storage: Storage, key: string, passkey: PasskeyArg)
    requires RoundTrips(codec)
    requires NoMatch(Load(storage, key), codec.bufferToString(passkey.rawId))
    ensures LookupPublicKey(codec, Load(Append(storage, key, NewPasskeyItem(codec, passkey)), key),
                            codec.bufferToString(passkey.rawId)) == Success(passkey.publicKey)
  {
    StoredPasskeyIsFound(codec, storage, key, passkey);
  }

  /** The same, stated for the class: once `StorePasskey(passkey)` has left
      `localStorage` as the append of the earlier state, the lookup of the
      passkey's encoded rawId succeeds, and for a new rawId gives its key. */
  lemma StoredPasskeyIsFoundInStorage(s: PasskeyStorage, before: Storage, passkey: PasskeyArg)
    requires s.localStorage == Append(before, s.listKey, NewPasskeyItem(s.codec, passkey))
    ensures s.GetPublicKeyFromLocalStorage(s.codec.bufferToString(passkey.rawId)).Success?
    ensures NoMatch(Load(before, s.listKey), s.codec.bufferToString(passkey.rawId)) ==>
              s.GetPublicKeyFromLocalStorage(s.codec.bufferToString(passkey.rawId)) ==
                Success(s.codec.hexStringToUint8Array(s.codec.bufferToString(passkey.publicKey)))
  {
    StoredPasskeyIsFound(s.codec, before, s.listKey, passkey);
  }

  /** When every rawId in the list is distinct, the search for a record's
      rawId finds that very record. */
  lemma UniqueRawIdIsFound(items: seq<PasskeyItem>, i: nat)
    requires i < |items|
    requires forall j, k | 0 <= j < k < |items| :: items[j].rawId != items[k].rawId
    ensures FindIndex(items, items[i].rawId) == Some(i)
  {
  }
}
