/**
 * The vault session held by `VaultProvider`: whether the vault is unlocked,
 * the decrypted accounts, the master password kept for later saves, and
 * whether a vault exists. States: no vault; locked; unlocked.
 */
module VaultContext {
  import opened Wrappers
  import opened Storage
  import opened Json
  import opened VaultCrypto
  import opened JsArray

  /** One saved credential. */
  datatype Account = Account(id: string, website: string, username: string, password: string)

  /** `Omit<Account, 'id'>`: what the add form hands to `addAccount`. */
  datatype AccountInput = AccountInput(website: string, username: string, password: string)

  /** The add form submits only when every field is non-empty. */
  predicate IsFilled(input: AccountInput) {
    input.website != "" && input.username != "" && input.password != ""
  }

  predicate UniqueIds(accounts: seq<Account>) {
    forall i, j :: 0 <= i < j < |accounts| ==> accounts[i].id != accounts[j].id
  }

  /** `[...accounts, { ...account, id }]`: the new record goes last. */
  function WithAccount(accounts: seq<Account>, input: AccountInput, id: string): (r: seq<Account>)
    ensures |r| == |accounts| + 1
    ensures r[..|accounts|] == accounts
    ensures r[|accounts|] == Account(id, input.website, input.username, input.password)
  {
    accounts + [Account(id, input.website, input.username, input.password)]
  }

  /** `accounts.filter(acc => acc.id !== id)`. */
  function WithoutId(accounts: seq<Account>, id: string): (r: seq<Account>)
    ensures IsSubsequence(r, accounts)
    ensures forall a :: a in r <==> a in accounts && a.id != id
  {
    Filter(accounts, (a: Account) => a.id != id)
  }

  /** Deleting the same id twice leaves the list as the first delete left it. */
  lemma WithoutIdIdempotent(accounts: seq<Account>, id: string)
    ensures WithoutId(WithoutId(accounts, id), id) == WithoutId(accounts, id)
  {
    FilterIdempotent(accounts, (a: Account) => a.id != id);
  }

  /** Deleting an id no record carries leaves the list as it was. */
  lemma WithoutAbsentId(accounts: seq<Account>, id: string)
    requires forall a :: a in accounts ==> a.id != id
    ensures WithoutId(accounts, id) == accounts
  {
    FilterKeepsAll(accounts, (a: Account) => a.id != id);
  }

  /** A fresh id keeps the ids unique. */
  lemma WithAccountKeepsIdsUnique(accounts: seq<Account>, input: AccountInput, id: string)
    requires UniqueIds(accounts)
    requires forall a :: a in accounts ==> a.id != id
    ensures UniqueIds(WithAccount(accounts, input, id))
  {
    var r := WithAccount(accounts, input, id);
    forall i, j | 0 <= i < j < |r|
      ensures r[i].id != r[j].id
    {
      if j == |accounts| {
        assert r[i] == accounts[i];
        assert accounts[i] in accounts;
      } else {
        assert r[i] == accounts[i] && r[j] == accounts[j];
      }
    }
  }

  class VaultProvider {
    const store: LocalStorage
    const cipher: Cipher
    const json: JsonCodec<seq<Account>>
    var isUnlocked: bool
    var accounts: seq<Account>
    var masterPassword: string
    var vaultExists: bool

    /**
     * The session invariant: only an existing vault is ever unlocked; a
     * locked session holds no account and no password; a stored vault is
     * known to exist.
     */
    ghost predicate Valid()
      reads this, store
    {
      && (isUnlocked ==> vaultExists)
      && (!isUnlocked ==> accounts == [] && masterPassword == "")
      && (VAULT_KEY in store.items ==> vaultExists)
    }

    /** The slot holds exactly the in-memory list, sealed with the held password. */
    ghost predicate Committed()
      reads this, store
    {
      store.GetItem(VAULT_KEY) == Some(Seal(cipher, json, accounts, masterPassword))
    }

    /** The provider's initial state; `vaultExists` starts as the store says. */
    constructor (store: LocalStorage, cipher: Cipher, json: JsonCodec<seq<Account>>)
      ensures this.store == store && this.cipher == cipher && this.json == json
      ensures !isUnlocked && accounts == [] && masterPassword == ""
      ensures vaultExists == VaultExists(store)
      ensures Valid()
    {
      this.store := store;
      this.cipher := cipher;
      this.json := json;
      isUnlocked := false;
      accounts := [];
      masterPassword := "";
      vaultExists := VaultExists(store);
    }

    /**
     * `login`: with no vault, create an empty one (the save's outcome is not
     * looked at); with a vault, unlock it if it decrypts, else change nothing.
     */
    method Login(password: string, saveFails: bool)
      requires Valid()
      modifies this, store
      ensures Valid() && vaultExists
      ensures !old(vaultExists) ==>
                && VAULT_KEY !in old(store.items)
                && isUnlocked && accounts == [] && masterPassword == password
                && store.items == if saveFails then old(store.items)
                                  else old(store.items)[VAULT_KEY := Seal(cipher, json, [], password)]
      ensures !old(vaultExists) && !saveFails ==> Committed()
      ensures old(vaultExists) ==> store.items == old(store.items)
      ensures old(vaultExists) && LoadAndDecrypt(store, cipher, json, password).Some? ==>
                isUnlocked && accounts == LoadAndDecrypt(store, cipher, json, password).value && masterPassword == password
      ensures old(vaultExists) && LoadAndDecrypt(store, cipher, json, password).None? ==>
                isUnlocked == old(isUnlocked) && accounts == old(accounts) && masterPassword == old(masterPassword)
    {
      if vaultExists {
        var decryptedData := LoadAndDecrypt(store, cipher, json, password);
        if decryptedData.Some? {
          accounts := decryptedData.value;
          isUnlocked := true;
          masterPassword := password;
        }
      } else {
        accounts := [];
        isUnlocked := true;
        masterPassword := password;
        var ignored := EncryptAndSave(store, cipher, json, [], password, saveFails);
        vaultExists := true;
      }
    }

    /** `logout`: forget the accounts and the password; the store is not touched. */
    method Logout()
      requires Valid()
      modifies this
      ensures Valid()
      ensures !isUnlocked && accounts == [] && masterPassword == ""
      ensures vaultExists == old(vaultExists)
    {
      isUnlocked := false;
      accounts := [];
      masterPassword := "";
    }

    /** `saveData`: the new list replaces the old one only once it is saved. */
    method SaveData(updatedAccounts: seq<Account>, saveFails: bool)
      requires Valid() && isUnlocked
      modifies this, store
      ensures Valid() && isUnlocked
      ensures masterPassword == old(masterPassword) && vaultExists == old(vaultExists)
      ensures accounts == if saveFails then old(accounts) else updatedAccounts
      ensures store.items == if saveFails then old(store.items)
                             else old(store.items)[VAULT_KEY := Seal(cipher, json, updatedAccounts, old(masterPassword))]
      ensures !saveFails ==> Committed()
      ensures saveFails ==> (Committed() <==> old(Committed()))
    {
      var saved := EncryptAndSave(store, cipher, json, updatedAccounts, masterPassword, saveFails);
      if saved {
        accounts := updatedAccounts;
      }
    }

    /** `addAccount`: save the list with the new record, under a fresh id, appended. */
    method AddAccount(account: AccountInput, freshId: string, saveFails: bool)
      requires Valid() && isUnlocked && IsFilled(account)
      requires forall a :: a in accounts ==> a.id != freshId
      modifies this, store
      ensures Valid() && isUnlocked
      ensures masterPassword == old(masterPassword) && vaultExists == old(vaultExists)
      ensures accounts == if saveFails then old(accounts) else WithAccount(old(accounts), account, freshId)
      ensures store.items == if saveFails then old(store.items)
                             else old(store.items)[VAULT_KEY := Seal(cipher, json, accounts, masterPassword)]
      ensures UniqueIds(old(accounts)) ==> UniqueIds(accounts)
    {
      ghost var before := accounts;
      var updatedAccounts := accounts + [Account(freshId, account.website, account.username, account.password)];
      if UniqueIds(before) {
        WithAccountKeepsIdsUnique(before, account, freshId);
      }
      SaveData(updatedAccounts, saveFails);
    }

    /** `deleteAccount`: save the list without the records carrying `id`. */
    method DeleteAccount(id: string, saveFails: bool)
      requires Valid() && isUnlocked
      modifies this, store
      ensures Valid() && isUnlocked
      ensures masterPassword == old(masterPassword) && vaultExists == old(vaultExists)
      ensures accounts == if saveFails then old(accounts) else WithoutId(old(accounts), id)
      ensures store.items == if saveFails then old(store.items)
                             else old(store.items)[VAULT_KEY := Seal(cipher, json, accounts, masterPassword)]
    {
      var updatedAccounts := Filter(accounts, (acc: Account) => acc.id != id);
      SaveData(updatedAccounts, saveFails);
    }

    /** A committed session reloads, with its password, to exactly its accounts. */
    lemma CommittedReloads()
      requires Committed() && AesRoundTrips(cipher) && RoundTrips(json)
      ensures LoadAndDecrypt(store, cipher, json, masterPassword) == Some(accounts)
    {
      LoadAfterSave(store, cipher, json, accounts, masterPassword);
    }
  }

  /**
   * Create a vault, add one record, log out, log in again with the same
   * password: the record comes back.
   */
  method CreateAddLogoutLogin(cipher: Cipher, json: JsonCodec<seq<Account>>)
    requires AesRoundTrips(cipher) && RoundTrips(json)
  {
    var store := new LocalStorage(map[]);
    var vault := new VaultProvider(store, cipher, json);
    assert !vault.vaultExists;
    vault.Login("Sesame123", false);
    vault.AddAccount(AccountInput("example.com", "bob", "hunter2"), "id-1", false);
    ghost var saved := vault.accounts;
    vault.CommittedReloads();
    vault.Logout();
    assert !vault.isUnlocked && vault.accounts == [];
    vault.Login("Sesame123", false);
    assert vault.isUnlocked && vault.accounts == saved;
    assert |vault.accounts| == 1 && vault.accounts[0].password == "hunter2";
  }
}
