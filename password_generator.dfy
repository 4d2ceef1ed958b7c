/** The random password generator of the add form. */
module PasswordGenerator {

  const LowerChars: string := "abcdefghijklmnopqrstuvwxyz"
  const UpperChars: string := "ABCDEFGHIJKLMNOPQRSTUVWXYZ"
  const NumberChars: string := "0123456789"
  const SymbolChars: string := "!@#$%^&*()_+~`|}{[]:;?><,./-="

  /** The characters a password is drawn from, for the given options. */
  function CharPool(includeUppercase: bool, includeNumbers: bool, includeSymbols: bool): (pool: string)
    ensures LowerChars <= pool
    ensures |pool| == 26 + (if includeUppercase then 26 else 0) + (if includeNumbers then 10 else 0)
                         + (if includeSymbols then |SymbolChars| else 0)
    ensures forall c :: c in pool <==>
              || c in LowerChars
              || (includeUppercase && c in UpperChars)
              || (includeNumbers && c in NumberChars)
              || (includeSymbols && c in SymbolChars)
  {
    LowerChars + (if includeUppercase then UpperChars else "")
               + (if includeNumbers then NumberChars else "")
               + (if includeSymbols then SymbolChars else "")
  }

  /**
   * `Math.floor(Math.random() * n)` at the `i`-th draw, as an oracle; it is
   * below `n` whenever `n` is positive.
   */
  ghost predicate IsIndexOracle(random: (nat, nat) -> nat) {
    forall i, n :: 0 < n ==> random(i, n) < n
  }

  class PasswordGenerator {
    var length: nat
    var includeUppercase: bool
    var includeNumbers: bool
    var includeSymbols: bool
    var generatedPassword: string

    /** The component's initial state. */
    constructor ()
      ensures length == 16 && includeUppercase && includeNumbers && includeSymbols
      ensures generatedPassword == ""
    {
      length := 16;
      includeUppercase, includeNumbers, includeSymbols := true, true, true;
      generatedPassword := "";
    }

    /** The current pool. */
    function Pool(): string
      reads this
    {
      CharPool(includeUppercase, includeNumbers, includeSymbols)
    }

    /**
     * `generatePassword`: build the pool, draw `length` characters from it,
     * show the result and hand it to `setPassword` (returned here).
     */
    method GeneratePassword(random: (nat, nat) -> nat) returns (passwordSet: string)
      requires IsIndexOracle(random)
      modifies this`generatedPassword
      ensures generatedPassword == passwordSet
      ensures |passwordSet| == length
      ensures forall k :: 0 <= k < |passwordSet| ==> passwordSet[k] in Pool()
      ensures forall k :: 0 <= k < |passwordSet| ==> passwordSet[k] == Pool()[random(k, |Pool()|)]
    {
      var charPool := LowerChars;
      if includeUppercase { charPool := charPool + UpperChars; }
      if includeNumbers { charPool := charPool + NumberChars; }
      if includeSymbols { charPool := charPool + SymbolChars; }
      assert charPool == Pool();

      var newPassword := "";
      for i := 0 to length
        invariant |newPassword| == i
        invariant forall k :: 0 <= k < i ==> newPassword[k] == charPool[random(k, |charPool|)]
      {
        var randomIndex := random(i, |charPool|);
        newPassword := newPassword + [charPool[randomIndex]];
      }
      generatedPassword := newPassword;
      passwordSet := newPassword;
    }
  }

  /** With every option off, a generated password has only lower-case letters. */
  lemma LowerCaseOnlyPool(c: char)
    ensures c in CharPool(false, false, false) <==> 'a' <= c <= 'z'
  {
    assert CharPool(false, false, false) == LowerChars;
    if 'a' <= c <= 'z' {
      assert LowerChars[c as int - 'a' as int] == c;
    }
  }
}
