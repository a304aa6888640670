/**
 * The backend's field validators. The validators that scan their input in a loop are methods
 * proved equal to a rule predicate; the other validators and every caller use the rules.
 */
module Validation {
  import opened Chars
  import opened Numeric
  import opened Wrappers
  import Common

  // ---------------------------------------------------------------- e-mail

  predicate EmailLocalChar(c: char) { IsAlnum(c) || c in "._%+-" }
  predicate EmailDomainChar(c: char) { IsAlnum(c) || c in ".-" }

  /** The text splits at an '@' at position i and a '.' at position j into local part, domain and top-level domain. */
  predicate EmailSplitAt(s: string, i: int, j: int) {
    0 < i && i + 1 < j && j + 2 < |s| &&
    s[i] == '@' && s[j] == '.' &&
    (forall k :: 0 <= k < i ==> EmailLocalChar(s[k])) &&
    (forall k :: i < k < j ==> EmailDomainChar(s[k])) &&
    (forall k :: j < k < |s| ==> IsLetter(s[k]))
  }

  /** The language of `^[a-zA-Z0-9._%+\-]+@[a-zA-Z0-9.\-]+\.[a-zA-Z]{2,}$`. */
  ghost predicate EmailPattern(s: string) {
    exists i, j :: EmailSplitAt(s, i, j)
  }

  function LastIndexOf(s: string, c: char): (k: nat)
    requires c in s
    ensures k < |s| && s[k] == c
    ensures forall m :: k < m < |s| ==> s[m] != c
  {
    if s[|s| - 1] == c then |s| - 1
    else
      assert c in s[..|s| - 1] by {
        var m :| 0 <= m < |s| && s[m] == c;
        assert s[..|s| - 1][m] == c;
      }
      LastIndexOf(s[..|s| - 1], c)
  }

  /** The only split worth trying: the first '@' and the last '.' after it. */
  function EmailSplit(s: string): (r: Option<(int, int)>)
    ensures r.Some? ==> 0 <= r.value.0 < r.value.1 < |s| && s[r.value.0] == '@' && s[r.value.1] == '.'
  {
    if '@' !in s then None
    else
      var i := IndexOf(s, '@');
      if '.' !in s[i + 1..] then None
      else Some((i, i + 1 + LastIndexOf(s[i + 1..], '.')))
  }

  /** `IsValidEmail`: the pattern above and at most 255 characters. */
  function IsValidEmail(email: string): (r: bool)
    ensures r <==> EmailPattern(email) && |email| <= 255
  {
    EmailSplitUnique(email);
    |email| <= 255 &&
    match EmailSplit(email)
    case None => false
    case Some((i, j)) => EmailSplitAt(email, i, j)
  }

  /** Any split that matches the pattern is the one `EmailSplit` computes. */
  lemma EmailSplitUnique(s: string)
    ensures EmailPattern(s) <==> EmailSplit(s).Some? && EmailSplitAt(s, EmailSplit(s).value.0, EmailSplit(s).value.1)
  {
    if EmailPattern(s) {
      var i, j :| EmailSplitAt(s, i, j);
      EmailSplitIsFound(s, i, j);
    }
  }

  lemma EmailSplitIsFound(s: string, i: int, j: int)
    requires EmailSplitAt(s, i, j)
    ensures EmailSplit(s) == Some((i, j))
  {
    var i' := IndexOf(s, '@');
    assert !EmailLocalChar(s[i']);
    assert forall m :: 0 <= m < i' ==> s[..i'][m] == s[m];
    assert i' == i;
    var rest := s[i + 1..];
    assert rest[j - i - 1] == '.';
    var j' := i + 1 + LastIndexOf(rest, '.');
    assert j' == j;
  }

  // ---------------------------------------------------------------- names

  predicate LettersAndSpaces(s: string) { forall i :: 0 <= i < |s| ==> IsLetter(s[i]) || s[i] == ' ' }

  predicate NoDoubleSpace(s: string) { forall i :: 0 < i < |s| ==> s[i - 1] != ' ' || s[i] != ' ' }

  /** The rule `IsValidNameField` decides: length in range, letters and single inner spaces only. */
  predicate NameFieldRule(s: string, minLen: int, maxLen: int) {
    minLen <= |s| <= maxLen && LettersAndSpaces(s) && NoDoubleSpace(s) &&
    (s != [] ==> s[0] != ' ' && s[|s| - 1] != ' ')
  }

  /** `IsValidNameField`: the length guard, then one pass with the `spaceAllowed` and `firstChar` flags. */
  method IsValidNameField(s: string, minLen: int, maxLen: int) returns (ok: bool)
    ensures ok <==> NameFieldRule(s, minLen, maxLen)
  {
    if |s| < minLen || |s| > maxLen {
      return false;
    }
    var spaceAllowed := true;
    var firstChar := true;
    var i := 0;
    while i < |s|
      invariant 0 <= i <= |s|
      invariant firstChar <==> i == 0
      invariant 0 < i ==> (spaceAllowed <==> s[i - 1] != ' ') && s[0] != ' '
      invariant 0 < i && s[i - 1] == ' ' ==> i < |s|
      invariant LettersAndSpaces(s[..i]) && NoDoubleSpace(s[..i])
    {
      var c := s[i];
      if firstChar && c == ' ' {
        return false;
      }
      firstChar := false;
      if IsLetter(c) {
        spaceAllowed := true;
      } else if c == ' ' {
        if !spaceAllowed || i == |s| - 1 {
          assert !NoDoubleSpace(s) || s[|s| - 1] == ' ';
          return false;
        }
        spaceAllowed := false;
      } else {
        assert !(IsLetter(s[i]) || s[i] == ' ');
        return false;
      }
      assert s[..i + 1] == s[..i] + [c];
      i := i + 1;
    }
    assert s[..i] == s;
    return true;
  }

  /** The rule `isAlphabetic` decides: letters and spaces, never two spaces in a row. */
  predicate AlphabeticRule(s: string) { LettersAndSpaces(s) && NoDoubleSpace(s) }

  /** `isAlphabetic`: one pass; a space is refused after a space, but may open or close the text. */
  method IsAlphabetic(s: string) returns (ok: bool)
    ensures ok <==> AlphabeticRule(s)
  {
    var spaceAllowed := true;
    var i := 0;
    while i < |s|
      invariant 0 <= i <= |s|
      invariant spaceAllowed <==> (i == 0 || s[i - 1] != ' ')
      invariant AlphabeticRule(s[..i])
    {
      var c := s[i];
      if IsLetter(c) {
        spaceAllowed := true;
      } else if c == ' ' {
        if !spaceAllowed || (i > 0 && s[i - 1] == ' ') {
          assert s[i - 1] == ' ' && s[i] == ' ';
          return false;
        }
        spaceAllowed := false;
      } else {
        assert !(IsLetter(s[i]) || s[i] == ' ');
        return false;
      }
      assert s[..i + 1] == s[..i] + [c];
      i := i + 1;
    }
    assert s[..i] == s;
    return true;
  }

  /** A text that passes the name rule also passes the alphabetic rule; the converse fails for " ab". */
  lemma NameFieldIsAlphabetic(s: string, minLen: int, maxLen: int)
    requires NameFieldRule(s, minLen, maxLen)
    ensures AlphabeticRule(s)
  {
  }

  lemma AlphabeticAllowsOuterSpace()
    ensures AlphabeticRule(" ab ") && !NameFieldRule(" ab ", 0, 50)
  {
    assert " ab "[0] == ' ';
  }

  function IsValidFirstName(name: string): (r: bool)
    ensures r <==> 3 <= |name| <= 50 && LettersAndSpaces(name) && NoDoubleSpace(name) &&
                   name[0] != ' ' && name[|name| - 1] != ' '
  {
    NameFieldRule(name, 3, 50)
  }

  function IsValidLastName(name: string): (r: bool)
    ensures name == [] ==> r
    ensures name != [] ==> (r <==> IsValidFirstName(name))
  {
    name == [] || NameFieldRule(name, 3, 50)
  }

  function IsValidCountry(country: string): (r: bool)
    ensures r <==> IsValidFirstName(country)
  {
    NameFieldRule(country, 3, 50)
  }

  function IsValidTownCity(town: string): (r: bool)
    ensures r <==> 5 <= |town| <= 100 && LettersAndSpaces(town) && NoDoubleSpace(town) &&
                   town[0] != ' ' && town[|town| - 1] != ' '
    ensures r <==> IsValidRegion(town)
  {
    NameFieldRule(town, 5, 100)
  }

  function IsValidRegion(region: string): (r: bool)
    ensures r <==> 5 <= |region| <= 100 && LettersAndSpaces(region) && NoDoubleSpace(region) &&
                   region[0] != ' ' && region[|region| - 1] != ' '
  {
    NameFieldRule(region, 5, 100)
  }

  // ---------------------------------------------------------------- password

  const SpecialChars: string := "!@#$%^&*()-_=+[]{}|;:'\",.<>/?`~"

  /** `isSpecialChar`: a scan of the special-character list. */
  method IsSpecialChar(c: char) returns (b: bool)
    ensures b <==> c in SpecialChars
  {
    b := ScanChars(c, SpecialChars);
  }

  /** The scan `isSpecialChar` makes: the first entry of `list` equal to `c` ends it. */
  method ScanChars(c: char, list: string) returns (b: bool)
    ensures b <==> c in list
  {
    var k := 0;
    while k < |list|
      invariant 0 <= k <= |list|
      invariant c !in list[..k]
    {
      if c == list[k] {
        return true;
      }
      assert list[..k + 1] == list[..k] + [list[k]];
      k := k + 1;
    }
    assert list[..k] == list;
    return false;
  }

  /** Some character of `s` satisfies `p`. */
  predicate AnyChar(s: string, p: char -> bool) { exists i :: 0 <= i < |s| && p(s[i]) }

  lemma AnyCharSnoc(s: string, c: char, p: char -> bool)
    ensures AnyChar(s + [c], p) <==> AnyChar(s, p) || p(c)
  {
    var t := s + [c];
    if AnyChar(t, p) && !p(c) {
      var i :| 0 <= i < |t| && p(t[i]);
      assert i < |s| && s[i] == t[i];
    }
    if AnyChar(s, p) {
      var i :| 0 <= i < |s| && p(s[i]);
      assert t[i] == s[i];
    }
    if p(c) { assert t[|s|] == c; }
  }

  predicate IsSpecial(c: char) { c in SpecialChars }

  /** No letter or digit is a special character. */
  lemma AlnumIsNotSpecial(c: char)
    requires IsAlnum(c)
    ensures !IsSpecial(c)
  {
    forall k | 0 <= k < |SpecialChars|
      ensures SpecialChars[k] != c
    {
    }
  }

  /** One step of the password scan: each flag after `c` is the flag before it or the class of `c`. */
  lemma PasswordStep(s: string, c: char)
    ensures AnyChar(s + [c], IsUpper) <==> AnyChar(s, IsUpper) || IsUpper(c)
    ensures AnyChar(s + [c], IsLower) <==> AnyChar(s, IsLower) || IsLower(c)
    ensures AnyChar(s + [c], IsDigit) <==> AnyChar(s, IsDigit) || IsDigit(c)
    ensures AnyChar(s + [c], IsSpecial) <==> AnyChar(s, IsSpecial) || IsSpecial(c)
  {
    AnyCharSnoc(s, c, IsUpper);
    AnyCharSnoc(s, c, IsLower);
    AnyCharSnoc(s, c, IsDigit);
    AnyCharSnoc(s, c, IsSpecial);
  }

  /** The rule `IsValidPassword` decides. */
  predicate PasswordRule(p: string) {
    8 <= |p| <= 20 && AnyChar(p, IsUpper) && AnyChar(p, IsLower) && AnyChar(p, IsDigit) && AnyChar(p, IsSpecial)
  }

  /** `IsValidPassword`: the length guard, then one pass setting a flag per character class. */
  method IsValidPassword(password: string) returns (ok: bool)
    ensures ok <==> PasswordRule(password)
  {
    if |password| < 8 || |password| > 20 {
      return false;
    }
    var hasUpper, hasLower, hasNumber, hasSpecial := false, false, false, false;
    var i := 0;
    while i < |password|
      invariant 0 <= i <= |password|
      invariant hasUpper <==> AnyChar(password[..i], IsUpper)
      invariant hasLower <==> AnyChar(password[..i], IsLower)
      invariant hasNumber <==> AnyChar(password[..i], IsDigit)
      invariant hasSpecial <==> AnyChar(password[..i], IsSpecial)
    {
      var c := password[i];
      assert password[..i + 1] == password[..i] + [c];
      PasswordStep(password[..i], c);
      if IsAlnum(c) {
        AlnumIsNotSpecial(c);
      }
      if 'A' <= c <= 'Z' {
        hasUpper := true;
      } else if 'a' <= c <= 'z' {
        hasLower := true;
      } else if '0' <= c <= '9' {
        hasNumber := true;
      } else {
        var special := IsSpecialChar(c);
        if special {
          hasSpecial := true;
        }
      }
      i := i + 1;
    }
    assert password[..i] == password;
    return hasUpper && hasLower && hasNumber && hasSpecial;
  }

  // ---------------------------------------------------------------- other fields

  function IsValidKitType(kitType: string): (r: bool)
    ensures r <==> kitType in {"blood", "saliva"}
  {
    kitType == "blood" || kitType == "saliva"
  }

  /** The rule `IsValidSupplierName` decides. */
  predicate SupplierNameRule(name: string) { 3 <= |name| <= 50 && AlphabeticRule(name) }

  method IsValidSupplierName(name: string) returns (ok: bool)
    ensures ok <==> 3 <= |name| <= 50 && LettersAndSpaces(name) && NoDoubleSpace(name)
  {
    if |name| < 3 || |name| > 50 {
      return false;
    }
    ok := IsAlphabetic(name);
  }

  /** A regular-expression character class `[...]`: character ranges and single characters. */
  datatype CharClass = CharClass(ranges: seq<(char, char)>, singles: string)

  predicate InClass(c: char, k: CharClass) {
    (exists i :: 0 <= i < |k.ranges| && k.ranges[i].0 <= c <= k.ranges[i].1) || c in k.singles
  }

  /** The language of `^[...]+$` for the class `k`. */
  predicate MatchesPlus(s: string, k: CharClass) {
    |s| > 0 && forall i :: 0 <= i < |s| ==> InClass(s[i], k)
  }

  /** The ranges `a-zA-Z0-9` together with the given single characters. */
  function AlnumAnd(singles: string): (k: CharClass)
    ensures forall c :: InClass(c, k) <==> IsAlnum(c) || c in singles
  {
    var k := CharClass([('a', 'z'), ('A', 'Z'), ('0', '9')], singles);
    assert forall c :: IsLower(c) ==> k.ranges[0].0 <= c <= k.ranges[0].1;
    assert forall c :: IsUpper(c) ==> k.ranges[1].0 <= c <= k.ranges[1].1;
    assert forall c :: IsDigit(c) ==> k.ranges[2].0 <= c <= k.ranges[2].1;
    k
  }

  /** The RE2 class `\s` spelled out: tab, line feed, form feed, carriage return, space. */
  const RegexSpaceChars: string := "\t\n\U{000C}\r "

  lemma RegexSpaceCharsAre(c: char)
    ensures c in RegexSpaceChars <==> IsRegexSpace(c)
  {
  }

  /** `IsValidContactNumber`: 10 to 15 characters matching `^[0-9]+$`. */
  function IsValidContactNumber(number: string): (r: bool)
    ensures r <==> 10 <= |number| <= 15 && AllDigits(number)
  {
    var k := CharClass([('0', '9')], "");
    assert forall c :: InClass(c, k) <==> IsDigit(c) by {
      forall c ensures InClass(c, k) <==> IsDigit(c) { if IsDigit(c) { assert k.ranges[0].0 <= c <= k.ranges[0].1; } }
    }
    10 <= |number| <= 15 && MatchesPlus(number, k)
  }

  /** `IsValidProductName`: 3 to 100 characters matching `^[a-zA-Z0-9\s\-_,.&()]+$`. */
  function IsValidProductName(name: string): (r: bool)
    ensures r <==> (3 <= |name| <= 100 &&
      forall i :: 0 <= i < |name| ==> IsAlnum(name[i]) || IsRegexSpace(name[i]) || name[i] in "-_,.&()")
  {
    var k := AlnumAnd(RegexSpaceChars + "-_,.&()");
    assert forall c :: c in RegexSpaceChars + "-_,.&()" <==> IsRegexSpace(c) || c in "-_,.&()";
    3 <= |name| <= 100 && MatchesPlus(name, k)
  }

  /** `IsValidPostcode`: 3 to 20 characters matching `^[a-zA-Z0-9\-]+$`. */
  function IsValidPostcode(postcode: string): (r: bool)
    ensures r <==> (3 <= |postcode| <= 20 && forall i :: 0 <= i < |postcode| ==> IsAlnum(postcode[i]) || postcode[i] == '-')
  {
    3 <= |postcode| <= 20 && MatchesPlus(postcode, AlnumAnd("-"))
  }

  /** `IsValidStreetAddress`: 5 to 255 characters matching `^[a-zA-Z0-9\-#.,'"&\s/]+$`. */
  function IsValidStreetAddress(address: string): (r: bool)
    ensures r <==> (5 <= |address| <= 255 &&
      forall i :: 0 <= i < |address| ==> IsAlnum(address[i]) || IsRegexSpace(address[i]) || address[i] in "-#.,'\"&/")
  {
    var k := AlnumAnd("-#.,'\"&" + RegexSpaceChars + "/");
    assert forall c :: c in "-#.,'\"&" + RegexSpaceChars + "/" <==> IsRegexSpace(c) || c in "-#.,'\"&/";
    5 <= |address| <= 255 && MatchesPlus(address, k)
  }

  /** `IsValidQuantity`: `strconv.Atoi` succeeds with a positive value. */
  function IsValidQuantity(quantity: string): (r: bool)
    ensures r <==> Atoi(quantity).Some? && Atoi(quantity).value > 0
    ensures r ==> quantity != []
    ensures forall n :: 0 < n <= MaxInt64 ==> (quantity == Itoa(n) ==> r)
  {
    forall n | 0 < n <= MaxInt64 ensures quantity == Itoa(n) ==> Atoi(quantity) == Some(n) {
      AtoiOfItoa(n);
    }
    match Atoi(quantity)
    case Some(v) => v > 0
    case None => false
  }

  // ---------------------------------------------------------------- images

  const Base64Alphabet: string := "ABCDEFGHIJKLMNOPQRSTUVWXYZabcdefghijklmnopqrstuvwxyz0123456789+/"

  /** Drops every carriage return and line feed and keeps the other characters in order. */
  function StripNewlines(s: string): (r: string)
    ensures '\r' !in r && '\n' !in r
    ensures |r| <= |s|
    ensures forall c :: c in r <==> c in s && c != '\r' && c != '\n'
    ensures '\r' !in s && '\n' !in s ==> r == s
  {
    if s == [] then []
    else (if s[0] == '\r' || s[0] == '\n' then [] else [s[0]]) + StripNewlines(s[1..])
  }

  /** Stripping works piecewise: the text of two pieces is stripped piece by piece, so order is kept. */
  lemma {:induction false} StripNewlinesAppend(a: string, b: string)
    ensures StripNewlines(a + b) == StripNewlines(a) + StripNewlines(b)
    decreases |a|
  {
    if a != [] {
      assert (a + b)[0] == a[0];
      assert (a + b)[1..] == a[1..] + b;
      StripNewlinesAppend(a[1..], b);
    } else {
      assert a + b == b;
    }
  }

  /**
   * What `base64.StdEncoding.DecodeString` accepts (section 4 of RFC 4648, padded alphabet): after
   * carriage returns and line feeds are dropped, whole groups of four, at most two '=' and only at the end.
   */
  predicate Base64Decodable(s: string) {
    var t := StripNewlines(s);
    |t| % 4 == 0 && (PaddedBy(t, 0) || PaddedBy(t, 1) || PaddedBy(t, 2))
  }

  /** `t` is alphabet characters followed by exactly `pad` padding characters. */
  predicate PaddedBy(t: string, pad: nat) {
    pad <= |t| && AllIn(t[..|t| - pad], Base64Alphabet) && forall k :: |t| - pad <= k < |t| ==> t[k] == '='
  }

  /** `IsValidBase64Image`: empty, or a `data:image/` prefix and a decodable payload after the first comma. */
  function IsValidBase64Image(str: string): (r: bool)
    ensures str == [] ==> r
    ensures str != [] ==> (r <==> "data:image/" <= str && ',' in str && Base64Decodable(str[IndexOf(str, ',') + 1..]))
  {
    if str == [] then true
    else if !("data:image/" <= str) then false
    else if ',' !in str then false
    else Base64Decodable(str[IndexOf(str, ',') + 1..])
  }

  /** After a scheme of length n: `[^\s/$.?#]`, one character other than a line feed, then `[^\s]*`. */
  predicate URLRest(url: string, n: nat) {
    |url| >= n + 2 &&
    !IsRegexSpace(url[n]) && url[n] !in "/$.?#" && url[n + 1] != '\n' &&
    forall k :: n + 2 <= k < |url| ==> !IsRegexSpace(url[k])
  }

  /** The language of `^(https?|ftp)://[^\s/$.?#].[^\s]*$`. */
  predicate URLPattern(url: string) {
    ("http://" <= url && URLRest(url, 7)) || ("https://" <= url && URLRest(url, 8)) || ("ftp://" <= url && URLRest(url, 6))
  }

  const ImageExtensions: seq<string> := [".jpg", ".jpeg", ".png", ".gif", ".bmp", ".webp"]

  /** A URL of the accepted form whose lower-cased text ends in an image extension. */
  predicate ImageURLRule(url: string) {
    URLPattern(url) && exists m :: 0 <= m < |ImageExtensions| && HasSuffix(Lower(url), ImageExtensions[m])
  }

  /** `IsValidImageURL`: the URL pattern, then a scan for an image extension at the end of the lower-cased URL. */
  method IsValidImageURL(url: string) returns (ok: bool)
    ensures ok <==> ImageURLRule(url)
  {
    if !URLPattern(url) {
      return false;
    }
    var lowered := Lower(url);
    var k := 0;
    while k < |ImageExtensions|
      invariant 0 <= k <= |ImageExtensions|
      invariant forall m :: 0 <= m < k ==> !HasSuffix(lowered, ImageExtensions[m])
    {
      if HasSuffix(lowered, ImageExtensions[k]) {
        return true;
      }
      k := k + 1;
    }
    return false;
  }

  /** `IsInList`: membership by a scan of the list. */
  method IsInList(value: string, list: seq<string>) returns (found: bool)
    ensures found <==> value in list
  {
    found := Common.StringInSlice(value, list);
  }
}
