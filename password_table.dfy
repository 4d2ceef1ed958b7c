/** The search filter of the table view, which skips empty fields. */
module PasswordTable {
  import opened JsString
  import opened JsArray
  import opened VaultContext
  import PasswordList

  /** A field takes part only when it is a non-empty string. */
  predicate FieldMatches(field: string, searchTerm: string) {
    field != "" && Includes(ToLowerCase(field), ToLowerCase(searchTerm))
  }

  predicate Matches(account: Account, searchTerm: string) {
    FieldMatches(account.website, searchTerm) || FieldMatches(account.username, searchTerm)
  }

  predicate HasLabel(account: Account) {
    account.website != "" || account.username != ""
  }

  /** `filteredAccounts`. */
  function FilteredAccounts(accounts: seq<Account>, searchTerm: string): (r: seq<Account>)
    ensures IsSubsequence(r, accounts) && |r| <= |accounts|
    ensures forall a :: a in r <==> a in accounts && Matches(a, searchTerm)
    ensures forall a :: a in r ==> HasLabel(a)
  {
    Filter(accounts, (account: Account) => Matches(account, searchTerm))
  }

  /** What the component renders: the empty-state notice, or one row per account. */
  datatype View = EmptyState | Rows(shown: seq<Account>)

  function Render(accounts: seq<Account>, searchTerm: string): (v: View)
    ensures v.EmptyState? <==> forall a :: a in accounts ==> !Matches(a, searchTerm)
    ensures v.Rows? ==> v.shown != [] && v.shown == FilteredAccounts(accounts, searchTerm)
  {
    var filtered := FilteredAccounts(accounts, searchTerm);
    if |filtered| == 0 then EmptyState
    else
      assert filtered[0] in filtered;
      Rows(filtered)
  }

  /** With an empty term the table shows exactly the accounts with a website or a username. */
  lemma EmptyTermShowsLabelled(accounts: seq<Account>)
    ensures FilteredAccounts(accounts, "") == Filter(accounts, HasLabel)
  {
    FilterCongruent(accounts, (account: Account) => Matches(account, ""), HasLabel);
  }

  /** Two terms equal up to case select the same accounts. */
  lemma TermCaseInsensitive(accounts: seq<Account>, term1: string, term2: string)
    requires ToLowerCase(term1) == ToLowerCase(term2)
    ensures FilteredAccounts(accounts, term1) == FilteredAccounts(accounts, term2)
  {
    FilterCongruent(accounts,
      (account: Account) => Matches(account, term1),
      (account: Account) => Matches(account, term2));
  }

  /** Two accounts whose fields are equal up to case are shown or hidden together. */
  lemma FieldCaseInsensitive(a: Account, b: Account, searchTerm: string)
    requires ToLowerCase(a.website) == ToLowerCase(b.website)
    requires ToLowerCase(a.username) == ToLowerCase(b.username)
    ensures Matches(a, searchTerm) <==> Matches(b, searchTerm)
  {
  }

  /**
   * The card list and the table agree on accounts whose website and username
   * are both filled in; an account with neither is listed by the cards under
   * the empty term but never by the table.
   */
  lemma AgreesWithListOnFilledFields(a: Account, searchTerm: string)
    ensures a.website != "" && a.username != "" ==> (Matches(a, searchTerm) <==> PasswordList.Matches(a, searchTerm))
    ensures a.website == "" && a.username == "" ==> !Matches(a, searchTerm) && PasswordList.Matches(a, "")
  {
  }
}
