/**
 * The JavaScript string operations the application relies on, over ASCII:
 * `toLowerCase`, `includes`, and the code-unit order that `Array.prototype.sort`
 * uses when it is given no comparator.
 */
module JsString {

  predicate IsUpper(c: char) {
    'A' <= c <= 'Z'
  }

  /** `toLowerCase` of one character; only the ASCII letters are mapped. */
  function LowerChar(c: char): char {
    if IsUpper(c) then (c as int - 'A' as int + 'a' as int) as char else c
  }

  /** `String.prototype.toLowerCase`, restricted to ASCII case mapping. */
  function ToLowerCase(s: string): (r: string)
    ensures |r| == |s|
    ensures forall i :: 0 <= i < |r| ==> !IsUpper(r[i])
    ensures forall i :: 0 <= i < |s| && !IsUpper(s[i]) ==> r[i] == s[i]
    ensures forall i :: 0 <= i < |s| && IsUpper(s[i]) ==> r[i] as int == s[i] as int + 32
  {
    seq(|s|, i requires 0 <= i < |s| => LowerChar(s[i]))
  }

  lemma ToLowerCaseIdempotent(s: string)
    ensures ToLowerCase(ToLowerCase(s)) == ToLowerCase(s)
  {
  }

  /** `String.prototype.includes`: true exactly when `sub` occurs in `s` at some position. */
  function Includes(s: string, sub: string): (r: bool)
    ensures r <==> exists i :: 0 <= i <= |s| && sub <= s[i..]
    decreases |s|
  {
    assert s[0..] == s;
    if sub <= s then true
    else if s == [] then false
    else
      var rest := Includes(s[1..], sub);
      assert rest ==> exists i :: 0 <= i <= |s| && sub <= s[i..] by {
        if rest {
          var j :| 0 <= j <= |s[1..]| && sub <= s[1..][j..];
          assert s[1..][j..] == s[j + 1..];
        }
      }
      assert (exists i :: 0 <= i <= |s| && sub <= s[i..]) ==> rest by {
        if exists i :: 0 <= i <= |s| && sub <= s[i..] {
          var i :| 0 <= i <= |s| && sub <= s[i..];
          assert s[1..][i - 1..] == s[i..];
        }
      }
      rest
  }

  /** A string included in an included string is itself included. */
  lemma IncludesTransitive(s: string, mid: string, sub: string)
    requires Includes(s, mid) && Includes(mid, sub)
    ensures Includes(s, sub)
  {
    var i :| 0 <= i <= |s| && mid <= s[i..];
    var j :| 0 <= j <= |mid| && sub <= mid[j..];
    assert sub <= s[i + j..] by {
      assert s[i..][j..] == s[i + j..];
    }
  }

  /**
   * `a` sorts no later than `b` when the default comparator of
   * `Array.prototype.sort` compares them (code unit by code unit, a proper
   * prefix first).
   */
  predicate CodeUnitLessEq(a: string, b: string)
    decreases |a|
  {
    a == [] || (b != [] && (a[0] < b[0] || (a[0] == b[0] && CodeUnitLessEq(a[1..], b[1..]))))
  }

  lemma {:induction false} CodeUnitOrderTotal(a: string, b: string)
    ensures CodeUnitLessEq(a, b) || CodeUnitLessEq(b, a)
    decreases |a|
  {
    if a != [] && b != [] && a[0] == b[0] {
      CodeUnitOrderTotal(a[1..], b[1..]);
    }
  }

  lemma {:induction false} CodeUnitOrderAntisymmetric(a: string, b: string)
    requires CodeUnitLessEq(a, b) && CodeUnitLessEq(b, a)
    ensures a == b
    decreases |a|
  {
    if a != [] {
      CodeUnitOrderAntisymmetric(a[1..], b[1..]);
      assert a == [a[0]] + a[1..] && b == [b[0]] + b[1..];
    }
  }
}
