/**
 * The vault store: one fixed `localStorage` slot holding the encrypted,
 * serialized account list.
 */
module VaultCrypto {
  import opened Wrappers
  import opened Storage
  import opened Json

  /** The one slot the vault lives in. */
  const VAULT_KEY: string := "password-manager-vault"

  /**
   * `CryptoJS.AES` keyed directly by the master password, kept abstract.
   * `encrypt(text, password)` is `AES.encrypt(text, password).toString()`;
   * `decrypt(blob, password)` is `AES.decrypt(blob, password).toString(Utf8)`,
   * `None` where that throws (bytes that are not UTF-8).
   */
  datatype Cipher = Cipher(encrypt: (string, string) -> string, decrypt: (string, string) -> Option<string>)

  /**
   * Decrypting with the password that encrypted gives the text back, and a
   * ciphertext is never empty. Nothing is assumed about a wrong password.
   */
  ghost predicate AesRoundTrips(cipher: Cipher) {
    forall text, password ::
      cipher.decrypt(cipher.encrypt(text, password), password) == Some(text) && cipher.encrypt(text, password) != ""
  }

  /** The ciphertext `encryptAndSave` writes for `data`. */
  function Seal<D(!new)>(cipher: Cipher, json: JsonCodec<D>, data: D, masterPassword: string): (sealed: string)
    ensures AesRoundTrips(cipher) ==> sealed != "" && cipher.decrypt(sealed, masterPassword) == Some(json.stringify(data))
    ensures AesRoundTrips(cipher) && RoundTrips(json) ==> json.parse(cipher.decrypt(sealed, masterPassword).value) == Some(data)
  {
    cipher.encrypt(json.stringify(data), masterPassword)
  }

  /**
   * `encryptAndSave`: serialize, encrypt and overwrite the vault slot. `fails`
   * stands for any exception inside the `try` (serializing, encrypting, or a
   * rejected `setItem`); the write is taken to be atomic, so on failure the
   * store keeps its previous contents.
   */
  method EncryptAndSave<D(!new)>(store: LocalStorage, cipher: Cipher, json: JsonCodec<D>, data: D, masterPassword: string, fails: bool)
    returns (ok: bool)
    modifies store
    ensures ok == !fails
    ensures ok ==> store.items == old(store.items)[VAULT_KEY := Seal(cipher, json, data, masterPassword)]
    ensures !ok ==> store.items == old(store.items)
  {
    if fails {
      return false;
    }
    var jsonString := json.stringify(data);
    var encrypted := cipher.encrypt(jsonString, masterPassword);
    store.SetItem(VAULT_KEY, encrypted);
    return true;
  }

  /**
   * `loadAndDecrypt`: `None` (the source's `null`) when the slot is absent or
   * empty, when decryption throws or yields the empty string (what a wrong
   * password usually gives), or when the text does not parse.
   */
  function LoadAndDecrypt<D>(store: LocalStorage, cipher: Cipher, json: JsonCodec<D>, masterPassword: string): (r: Option<D>)
    reads store
    ensures store.GetItem(VAULT_KEY) == None ==> r == None
    ensures store.GetItem(VAULT_KEY) == Some("") ==> r == None
    ensures r.Some? ==>
              && VAULT_KEY in store.items
              && cipher.decrypt(store.items[VAULT_KEY], masterPassword).Some?
              && cipher.decrypt(store.items[VAULT_KEY], masterPassword).value != ""
    ensures VAULT_KEY in store.items && cipher.decrypt(store.items[VAULT_KEY], masterPassword) == Some("") ==> r == None
    ensures VAULT_KEY in store.items && store.items[VAULT_KEY] != "" &&
            cipher.decrypt(store.items[VAULT_KEY], masterPassword).Some? &&
            cipher.decrypt(store.items[VAULT_KEY], masterPassword).value != "" ==>
              r == json.parse(cipher.decrypt(store.items[VAULT_KEY], masterPassword).value)
  {
    match store.GetItem(VAULT_KEY)
    case None => None
    case Some(encryptedData) =>
      if encryptedData == "" then None
      else
        match cipher.decrypt(encryptedData, masterPassword)
        case None => None
        case Some(decryptedJson) =>
          if decryptedJson == "" then None else json.parse(decryptedJson)
  }

  /** `vaultExists`: the slot is present, whatever it holds. */
  function VaultExists(store: LocalStorage): (r: bool)
    reads store
    ensures r <==> VAULT_KEY in store.items
  {
    store.GetItem(VAULT_KEY) != None
  }

  /** What `encryptAndSave` wrote is what `loadAndDecrypt` reads back with the same password. */
  lemma LoadAfterSave<D(!new)>(store: LocalStorage, cipher: Cipher, json: JsonCodec<D>, data: D, masterPassword: string)
    requires AesRoundTrips(cipher) && RoundTrips(json)
    requires store.GetItem(VAULT_KEY) == Some(Seal(cipher, json, data, masterPassword))
    ensures LoadAndDecrypt(store, cipher, json, masterPassword) == Some(data)
  {
    var text := json.stringify(data);
    assert cipher.decrypt(cipher.encrypt(text, masterPassword), masterPassword) == Some(text);
  }

  /** A slot holding the empty string counts as an existing vault, yet loads as none. */
  lemma EmptySlotExistsButLoadsNothing<D>(store: LocalStorage, cipher: Cipher, json: JsonCodec<D>, masterPassword: string)
    requires store.GetItem(VAULT_KEY) == Some("")
    ensures VaultExists(store) && LoadAndDecrypt(store, cipher, json, masterPassword) == None
  {
  }
}
