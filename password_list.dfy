/** The search filter of the card list. */
module PasswordList {
  import opened JsString
  import opened JsArray
  import opened VaultContext

  /** The website or the username contains the term, ignoring case. */
  predicate Matches(account: Account, searchTerm: string) {
    || Includes(ToLowerCase(account.website), ToLowerCase(searchTerm))
    || Includes(ToLowerCase(account.username), ToLowerCase(searchTerm))
  }

  /** `filteredAccounts`. */
  function FilteredAccounts(accounts: seq<Account>, searchTerm: string): (r: seq<Account>)
    ensures IsSubsequence(r, accounts) && |r| <= |accounts|
    ensures forall a :: a in r <==> a in accounts && Matches(a, searchTerm)
  {
    Filter(accounts, (account: Account) => Matches(account, searchTerm))
  }

  /** What the component renders: the empty-state notice, or one card per account. */
  datatype View = EmptyState | Cards(shown: seq<Account>)

  function Render(accounts: seq<Account>, searchTerm: string): (v: View)
    ensures v.EmptyState? <==> forall a :: a in accounts ==> !Matches(a, searchTerm)
    ensures v.Cards? ==> v.shown != [] && v.shown == FilteredAccounts(accounts, searchTerm)
  {
    var filtered := FilteredAccounts(accounts, searchTerm);
    if |filtered| == 0 then EmptyState
    else
      assert filtered[0] in filtered;
      Cards(filtered)
  }

  /** An empty search term shows every account. */
  lemma EmptyTermKeepsAll(accounts: seq<Account>)
    ensures FilteredAccounts(accounts, "") == accounts
  {
    FilterKeepsAll(accounts, (account: Account) => Matches(account, ""));
  }

  /** Only the lower-cased term matters. */
  lemma TermCaseInsensitive(accounts: seq<Account>, searchTerm: string)
    ensures FilteredAccounts(accounts, searchTerm) == FilteredAccounts(accounts, ToLowerCase(searchTerm))
  {
    ToLowerCaseIdempotent(searchTerm);
    FilterCongruent(accounts,
      (account: Account) => Matches(account, searchTerm),
      (account: Account) => Matches(account, ToLowerCase(searchTerm)));
  }
}
