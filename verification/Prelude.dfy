/** Result types and the string operations that the indexer applies to hashes and identifiers. */
module Prelude {

  datatype Option<+T> = None | Some(value: T)

  datatype Result<+R, +E> = Success(value: R) | Failure(error: E) {
    predicate IsFailure() {
      Failure?
    }

    function PropagateFailure<U>(): Result<U, E>
      requires Failure?
    {
      Failure(error)
    }

    function Extract(): R
      requires Success?
    {
      value
    }
  }

  function Min(a: int, b: int): int {
    if a <= b then a else b
  }

  function Max(a: int, b: int): int {
    if a >= b then a else b
  }

  function LowerChar(c: char): char {
    if 'A' <= c <= 'Z' then (c as int + 32) as char else c
  }

  /** `String.prototype.toLowerCase` on the ASCII text that hashes and addresses are made of. */
  function ToLower(s: string): (r: string)
    ensures |r| == |s|
  {
    seq(|s|, i requires 0 <= i < |s| => LowerChar(s[i]))
  }

  lemma ToLowerIdempotent(s: string)
    ensures ToLower(ToLower(s)) == ToLower(s)
  {
  }

  /** Lower-casing leaves no capital, and identifies exactly the texts that differ in nothing but case. */
  lemma CaseIsForgotten(s: string, t: string)
    ensures forall c :: c in ToLower(s) ==> !('A' <= c <= 'Z')
    ensures (forall c :: c in s ==> !('A' <= c <= 'Z')) ==> ToLower(s) == s
    ensures ToLower(s) == ToLower(t) <==> |s| == |t| && forall i :: 0 <= i < |s| ==> SameLetter(s[i], t[i])
  {
    assert forall i :: 0 <= i < |s| ==> s[i] in s;
    if ToLower(s) == ToLower(t) {
      forall i | 0 <= i < |s|
        ensures SameLetter(s[i], t[i])
      {
        assert ToLower(s)[i] == ToLower(t)[i];
      }
    }
  }

  predicate SameLetter(c: char, d: char) {
    c == d || ('A' <= c <= 'Z' && d as int == c as int + 32) || ('A' <= d <= 'Z' && c as int == d as int + 32)
  }

  predicate IsLower(s: string) {
    ToLower(s) == s
  }

  /** The decimal text of a number, as a template literal renders it. */
  function Decimal(n: nat): string {
    if n < 10 then [Digit(n)] else Decimal(n / 10) + [Digit(n % 10)]
  }

  function Digit(n: nat): (c: char)
    requires n < 10
    ensures c != '_'
  {
    (n + '0' as int) as char
  }

  predicate IsDigits(s: string) {
    forall c :: c in s ==> '0' <= c <= '9'
  }

  /** The number that a text of digits denotes. */
  function ValueOf(s: string): int {
    if s == [] then 0 else 10 * ValueOf(s[..|s| - 1]) + s[|s| - 1] as int - '0' as int
  }

  /** A number is read back from its text, which has no leading zero: so there is one text for each number. */
  lemma {:induction false} DecimalIsReadBack(n: nat)
    ensures var s := Decimal(n); IsDigits(s) && ValueOf(s) == n && s != [] && (|s| > 1 ==> s[0] != '0')
  {
    var s := Decimal(n);
    if n >= 10 {
      DecimalIsReadBack(n / 10);
      assert s[..|s| - 1] == Decimal(n / 10);
    } else {
      assert s[..0] == [];
    }
  }

  /** Up to the first separator, a text determines what stands before it. */
  lemma SeparatorSplits(a: string, b: string, c: string, d: string)
    requires '_' !in a && '_' !in c
    ensures a + "_" + b == c + "_" + d <==> a == c && b == d
  {
    var s := a + "_" + b;
    if s == c + "_" + d {
      assert s[|a|] == '_' && s[|c|] == '_';
      assert forall i :: 0 <= i < |a| ==> a[i] in a && s[i] == a[i];
      assert forall i :: 0 <= i < |c| ==> c[i] in c && s[i] == c[i];
      assert |a| == |c|;
      assert a == s[..|a|] && c == s[..|a|];
      assert b == s[|a| + 1..] && d == s[|a| + 1..];
    }
  }
}
