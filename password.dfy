/** `GenerateSecurePassword`: a 12-character password with one character of each required class. */
module Password {
  import opened Chars
  import Validation

  /** `n` consecutive characters starting at `first`. */
  function CharRange(first: char, n: nat): (r: string)
    requires first as int + n <= 0x80
    ensures |r| == n && forall i :: 0 <= i < n ==> r[i] == (first as int + i) as char
  {
    seq(n, i requires 0 <= i < n => (first as int + i) as char)
  }

  /** `letters` (a-z then A-Z), `numbers` and `specialChars`, written as the ranges they spell. */
  const Letters: string := CharRange('a', 26) + CharRange('A', 26)
  const Numbers: string := CharRange('0', 10)
  const SpecialChars: string := "@"
  const PasswordLength: nat := 12

  /** The pool used for the positions after the first four. */
  const AllChars: string := Letters + Numbers + SpecialChars

  /**
   * The random numbers the generator consumes: three `rand.Intn` results for the fixed positions, eight
   * for the remaining positions, and the eleven swap targets `rand.Shuffle` draws for i = 11 down to 1.
   */
  datatype Draws = Draws(lower: nat, upper: nat, digit: nat, rest: seq<nat>, swaps: seq<nat>)

  /** Each draw lies in the range `rand.Intn` and `rand.Shuffle` produce it from. */
  predicate ValidDraws(d: Draws) {
    d.lower < 26 && d.upper < 26 && d.digit < 10 &&
    |d.rest| == PasswordLength - 4 && (forall k :: 0 <= k < |d.rest| ==> d.rest[k] < |AllChars|) &&
    |d.swaps| == PasswordLength - 1 && (forall k :: 0 <= k < |d.swaps| ==> d.swaps[k] <= PasswordLength - 1 - k)
  }

  /** The password before the shuffle. */
  function Unshuffled(d: Draws): (p: string)
    requires ValidDraws(d)
    ensures |p| == PasswordLength
  {
    [Letters[d.lower], Letters[26 + d.upper], Numbers[d.digit], SpecialChars[0]] +
    seq(PasswordLength - 4, k requires 0 <= k < PasswordLength - 4 => AllChars[d.rest[k]])
  }

  /** `GenerateSecurePassword`: fill the 12-byte buffer, then shuffle it in place. */
  method GenerateSecurePassword(d: Draws) returns (p: string)
    requires ValidDraws(d)
    ensures |p| == PasswordLength
    ensures multiset(p) == multiset(Unshuffled(d))
    ensures Validation.PasswordRule(p)
    ensures forall i :: 0 <= i < |p| ==> p[i] in AllChars
  {
    var u := Unshuffled(d);
    var password := new char[PasswordLength];
    password[0] := Letters[d.lower];
    password[1] := Letters[26 + d.upper];
    password[2] := Numbers[d.digit];
    password[3] := SpecialChars[0];
    var i := 4;
    while i < PasswordLength
      invariant 4 <= i <= PasswordLength
      invariant forall k :: 0 <= k < i ==> password[k] == u[k]
    {
      password[i] := AllChars[d.rest[i - 4]];
      i := i + 1;
    }
    assert password[..] == u;
    Shuffle(password, d.swaps);
    p := password[..];
    GeneratedPasswordIsValid(d, p);
  }

  /** `rand.Shuffle` with the swap callback: for i from the last index down to 1, swap i with its draw. */
  method Shuffle(a: array<char>, swaps: seq<nat>)
    requires |swaps| == a.Length - 1 && forall k :: 0 <= k < |swaps| ==> swaps[k] <= a.Length - 1 - k
    modifies a
    ensures multiset(a[..]) == old(multiset(a[..]))
  {
    var i := a.Length - 1;
    while i > 0
      invariant 0 <= i <= a.Length - 1
      invariant multiset(a[..]) == old(multiset(a[..]))
    {
      var j := swaps[a.Length - 1 - i];
      a[i], a[j] := a[j], a[i];
      i := i - 1;
    }
  }

  lemma CharRangeMembers(k: nat)
    ensures k < 26 ==> IsLower(Letters[k]) && IsUpper(Letters[26 + k])
    ensures k < 10 ==> IsDigit(Numbers[k])
  {
  }

  /** Every character of the unshuffled password comes from letters, digits and '@'. */
  lemma UnshuffledDrawnFromPool(d: Draws)
    requires ValidDraws(d)
    ensures forall i :: 0 <= i < |Unshuffled(d)| ==> Unshuffled(d)[i] in AllChars
  {
    var p := Unshuffled(d);
    assert p[0] == AllChars[d.lower];
    assert p[1] == AllChars[26 + d.upper];
    assert p[2] == AllChars[52 + d.digit];
    assert p[3] == AllChars[62];
    forall i | 4 <= i < |p| ensures p[i] in AllChars {
      assert p[i] == AllChars[d.rest[i - 4]];
    }
  }

  /** The pool holds exactly lower-case letters, upper-case letters, digits and '@'. */
  lemma PoolMembers(c: char)
    requires c in AllChars
    ensures IsLetter(c) || IsDigit(c) || c == '@'
  {
    var k :| 0 <= k < |AllChars| && AllChars[k] == c;
    if k >= 52 && k < 62 { assert AllChars[k] == Numbers[k - 52]; }
  }

  /** A rearrangement of the characters keeps every character-class requirement of the password rule. */
  lemma PermutationKeepsRule(a: string, b: string)
    requires multiset(a) == multiset(b) && Validation.PasswordRule(a)
    ensures Validation.PasswordRule(b)
  {
    assert |a| == |multiset(a)| == |multiset(b)| == |b|;
    forall p: char -> bool | Validation.AnyChar(a, p) ensures Validation.AnyChar(b, p) {
      var i :| 0 <= i < |a| && p(a[i]);
      assert a[i] in multiset(a);
      assert a[i] in multiset(b);
      var j :| 0 <= j < |b| && b[j] == a[i];
    }
  }

  /** Every generated password passes `IsValidPassword`, whatever the draws. */
  lemma GeneratedPasswordIsValid(d: Draws, p: string)
    requires ValidDraws(d) && multiset(p) == multiset(Unshuffled(d))
    ensures Validation.PasswordRule(p)
    ensures forall i :: 0 <= i < |p| ==> p[i] in AllChars
  {
    var u := Unshuffled(d);
    CharRangeMembers(d.lower);
    CharRangeMembers(d.upper);
    CharRangeMembers(d.digit);
    assert IsLower(u[0]) && IsUpper(u[1]) && IsDigit(u[2]) && u[3] == '@';
    assert Validation.SpecialChars[1] == '@';
    assert Validation.AnyChar(u, IsLower) && Validation.AnyChar(u, IsUpper) && Validation.AnyChar(u, IsDigit);
    assert Validation.AnyChar(u, Validation.IsSpecial);
    PermutationKeepsRule(u, p);
    UnshuffledDrawnFromPool(d);
    forall i | 0 <= i < |p| ensures p[i] in AllChars {
      assert p[i] in multiset(u);
      var j :| 0 <= j < |u| && u[j] == p[i];
    }
  }
}
