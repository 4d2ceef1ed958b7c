/**
 * The re-verification dialog shown before one account's password is
 * revealed or copied.
 */
module DecryptModal {
  import opened VaultContext

  /** What submitting the dialog makes happen, in order. */
  datatype Effect =
    | OnSuccess(secret: string)     // the `onSuccess` callback, given a secret
    | IncorrectPasswordToast        // the error notice
    | OnClose                       // the `onClose` callback

  /**
   * The effects of one submit: the target account's secret is handed over
   * exactly when the entered password is accepted, and at most once; the
   * dialog closes once, last, either way.
   */
  function SubmitEffects(verified: bool, accountToVerify: Account): (r: seq<Effect>)
    ensures |r| > 0 && r[|r| - 1] == OnClose && multiset(r)[OnClose] == 1
    ensures forall s :: multiset(r)[OnSuccess(s)] <= 1
    ensures forall s :: OnSuccess(s) in r <==> verified && s == accountToVerify.password
    ensures !verified ==> IncorrectPasswordToast in r
  {
    [if verified then OnSuccess(accountToVerify.password) else IncorrectPasswordToast, OnClose]
  }

  class DecryptModal {
    const accountToVerify: Account
    var password: string
    var effects: seq<Effect>

    constructor (accountToVerify: Account)
      ensures this.accountToVerify == accountToVerify
      ensures password == "" && effects == []
    {
      this.accountToVerify := accountToVerify;
      password := "";
      effects := [];
    }

    /** The input field's `onChange`. */
    method Type(entered: string)
      modifies this
      ensures password == entered && effects == old(effects)
    {
      password := entered;
    }

    /**
     * `handleSubmit`: check the entered password with `verifyMasterPassword`,
     * then clear the field and close.
     */
    method HandleSubmit(verifyMasterPassword: string -> bool)
      modifies this
      ensures password == ""
      ensures effects == old(effects) + SubmitEffects(verifyMasterPassword(old(password)), accountToVerify)
    {
      if verifyMasterPassword(password) {
        effects := effects + [OnSuccess(accountToVerify.password)];
      } else {
        effects := effects + [IncorrectPasswordToast];
      }
      password := "";
      effects := effects + [OnClose];
    }
  }
}
