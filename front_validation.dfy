/**
 * The web front end's form validation: `validateField` runs a fixed sequence of checks on one field's
 * value and returns the first message that fires, or "" when none does; `validateForm` collects the
 * messages of a whole form keyed by field name.
 */
module FrontValidation {
  import opened Wrappers
  import opened Chars
  import Numeric
  import Validation

  // ---------------------------------------------------------------- JavaScript text

  /**
   * The characters `String.prototype.trim` removes and the regular-expression class `\s` matches:
   * white space (tab, vertical tab, form feed, space, no-break space, the byte order mark and the
   * space separators) and line terminators.
   */
  predicate IsJsSpace(c: char)
  {
    c == '\t' || c == '\n' || c == '\U{000B}' || c == '\U{000C}' || c == '\r' || c == ' ' ||
    c == '\U{00A0}' || c == '\U{1680}' || ('\U{2000}' <= c <= '\U{200A}') || c == '\U{2028}' ||
    c == '\U{2029}' || c == '\U{202F}' || c == '\U{205F}' || c == '\U{3000}' || c == '\U{FEFF}'
  }

  function TrimStart(s: string): (r: string)
    ensures |r| <= |s| && r == s[|s| - |r|..]
    ensures r == [] || !IsJsSpace(r[0])
    ensures forall i :: 0 <= i < |s| - |r| ==> IsJsSpace(s[i])
    decreases |s|
  {
    if |s| > 0 && IsJsSpace(s[0]) then TrimStart(s[1..]) else s
  }

  function TrimEnd(s: string): (r: string)
    ensures |r| <= |s| && r == s[..|r|]
    ensures r == [] || !IsJsSpace(r[|r| - 1])
    ensures forall i :: |r| <= i < |s| ==> IsJsSpace(s[i])
    decreases |s|
  {
    if |s| > 0 && IsJsSpace(s[|s| - 1]) then TrimEnd(s[..|s| - 1]) else s
  }

  /** `value.trim()`: the text between the leading and the trailing white space. */
  function Trim(s: string): (r: string)
    ensures |r| <= |s|
    ensures r == [] || (!IsJsSpace(r[0]) && !IsJsSpace(r[|r| - 1]))
    ensures (s == [] || (!IsJsSpace(s[0]) && !IsJsSpace(s[|s| - 1]))) ==> r == s
  {
    TrimEnd(TrimStart(s))
  }

  /** `value.includes("  ")`. */
  predicate HasDoubleSpace(s: string) { exists i :: 0 <= i < |s| - 1 && s[i] == ' ' && s[i + 1] == ' ' }

  /** The value `parseFloat` produces: not a number, a finite number, or an infinity. */
  datatype JsNumber = NaN | Finite(x: real) | PosInfinity | NegInfinity

  predicate Below(n: JsNumber, bound: real)
  {
    match n
    case Finite(x) => x < bound
    case NegInfinity => true
    case _ => false
  }

  predicate Above(n: JsNumber, bound: real)
  {
    match n
    case Finite(x) => x > bound
    case PosInfinity => true
    case _ => false
  }

  /** A number in the closed range `lo..hi`: no NaN, no infinity. */
  predicate Within(n: JsNumber, lo: real, hi: real) { n.Finite? && lo <= n.x <= hi }

  // ---------------------------------------------------------------- fields

  /** `validationRules`: a rule name ("" when absent) and maxLength, minLength (0 when absent, as JavaScript tests them). */
  datatype Rules = Rules(ruleType: string, maxLength: int, minLength: int)

  /** `InputField`: `kind` is the input `type`; the field-level lengths are 0 when absent. */
  datatype InputField = InputField(
    name: string, labelText: string, kind: string, required: bool, maxLength: int, minLength: int, rules: Rules)

  type FormState = map<string, string>

  /** `state?.key || ""`: a missing key reads as the empty text. */
  function StateValue(state: FormState, key: string): (r: string)
    ensures key !in state ==> r == ""
  {
    if key in state then state[key] else ""
  }

  // ---------------------------------------------------------------- the patterns

  /** `/^[A-Za-z]+(?:\s[A-Za-z]+)?$/`: one word of letters, or two joined by one white-space character. */
  predicate LettersWithOneSpace(t: string)
  {
    (t != [] && AllLetters(t)) ||
    (exists k :: 0 < k < |t| - 1 && IsJsSpace(t[k]) && AllLetters(t[..k]) && AllLetters(t[k + 1..]))
  }

  predicate IsNameChar(c: char) { IsLetter(c) }
  predicate IsAlnumOrSpace(c: char) { IsAlnum(c) || IsJsSpace(c) }
  predicate IsNhiChar(c: char) { IsAlnum(c) || c == '-' }

  /** `[^\s@]`. */
  predicate IsEmailChar(c: char) { !IsJsSpace(c) && c != '@' }

  predicate EmailPart(s: string) { s != [] && forall i :: 0 <= i < |s| ==> IsEmailChar(s[i]) }

  /** `[^\s@]+\.[^\s@]+`: email characters with a dot that is neither the first nor the last. */
  predicate EmailDomain(d: string)
  {
    EmailPart(d) && exists i :: 1 <= i < |d| - 1 && d[i] == '.'
  }

  /** `/^[^\s@]+@[^\s@]+\.[^\s@]+$/`. */
  predicate EmailShape(v: string)
  {
    exists p :: 0 < p < |v| && v[p] == '@' && EmailPart(v[..p]) && EmailDomain(v[p + 1..])
  }

  /** `[!@#$%^&*(),.?":{}|<>]`. */
  const FrontSpecials: string := "!@#$%^&*(),.?\":{}|<>"

  predicate HasLower(s: string) { exists i :: 0 <= i < |s| && IsLower(s[i]) }
  predicate HasUpper(s: string) { exists i :: 0 <= i < |s| && IsUpper(s[i]) }
  predicate HasDigit(s: string) { exists i :: 0 <= i < |s| && IsDigit(s[i]) }
  predicate HasFrontSpecial(s: string) { exists i :: 0 <= i < |s| && s[i] in FrontSpecials }

  /** The password strength rules the form applies. */
  predicate FrontPasswordRule(p: string)
  {
    8 <= |p| <= 20 && HasLower(p) && HasUpper(p) && HasDigit(p) && HasFrontSpecial(p)
  }

  // ---------------------------------------------------------------- the checks

  function RequiredCheck(value: string, field: InputField): string
  {
    if field.required && value == "" then field.labelText + " is required." else ""
  }

  function SelectCheck(value: string, field: InputField): string
  {
    if field.kind == "select" && field.required && value == "" then "Please select a " + Lower(field.labelText) else ""
  }

  function NameWithSpaceCheck(value: string, labelText: string): string
  {
    var t := Trim(value);
    if !LettersWithOneSpace(t) then labelText + "  can have letters and one optional space between words."
    else if value != t || HasDoubleSpace(value) then labelText + "  cannot have multiple or leading/trailing spaces."
    else ""
  }

  function NameWithoutSpaceCheck(value: string, labelText: string): string
  {
    var t := Trim(value);
    if !(t != [] && AllLetters(t)) then labelText + "  must contain only letters, no spaces allowed."
    else if ' ' in value then labelText + "  cannot contain any spaces."
    else ""
  }

  function EmailCheck(value: string): string
  {
    if !EmailShape(value) then "Please enter a valid email address." else ""
  }

  /** The strength checks in order, then the comparison with the old or the new password held in the form. */
  function PasswordCheck(value: string, fieldName: string, state: FormState): string
  {
    if |value| < 8 || |value| > 20 then "Password must be between 8 and 20 characters."
    else if !HasLower(value) then "Password must contain at least one lowercase letter."
    else if !HasUpper(value) then "Password must contain at least one uppercase letter."
    else if !HasDigit(value) then "Password must contain at least one number."
    else if !HasFrontSpecial(value) then "Password must contain at least one special character."
    else if fieldName == "new_password" && value == StateValue(state, "old_password") then
      "New password cannot be the same as the old password."
    else if fieldName == "confirm_password" && value != StateValue(state, "new_password") then
      "Confirm password must match the new password."
    else ""
  }

  /** The rule checks that run before the length rules; a field names one rule, so at most one of them applies. */
  function EarlyRuleCheck(value: string, field: InputField, state: FormState): string
  {
    if value == "" then ""
    else if field.rules.ruleType == "nameWithSpace" then NameWithSpaceCheck(value, field.labelText)
    else if field.rules.ruleType == "nameWithoutSpace" then NameWithoutSpaceCheck(value, field.labelText)
    else if field.rules.ruleType == "email" then EmailCheck(value)
    else if field.rules.ruleType == "password" then PasswordCheck(value, field.name, state)
    else ""
  }

  function MaxLengthCheck(value: string, field: InputField): string
  {
    if value != "" && field.rules.maxLength != 0 && |value| > field.rules.maxLength then
      field.labelText + " cannot exceed " + Numeric.Itoa(field.rules.maxLength) + " characters."
    else ""
  }

  function MinLengthCheck(value: string, field: InputField): string
  {
    if value != "" && field.rules.minLength != 0 && |value| < field.rules.minLength then
      field.labelText + " must be at least " + Numeric.Itoa(field.rules.minLength) + " characters long."
    else ""
  }

  /** The textarea checks read the field-level lengths and do not require a non-empty value. */
  function TextareaCheck(value: string, field: InputField): string
  {
    if field.kind == "textarea" then
      if field.required && (value == "" || Trim(value) == "") then field.labelText + " is required"
      else if field.minLength != 0 && |value| < field.minLength then
        field.labelText + " must be at least " + Numeric.Itoa(field.minLength) + " characters"
      else if field.maxLength != 0 && |value| > field.maxLength then
        field.labelText + " must not exceed " + Numeric.Itoa(field.maxLength) + " characters"
      else ""
    else ""
  }

  /** The `number` and `onlyNumber` rules, which run the same check on the parsed value. */
  function AmountCheck(n: JsNumber, labelText: string): string
  {
    if n == NaN then labelText + " must be a valid number."
    else if Below(n, 0.0) then labelText + " cannot be negative."
    else if Below(n, 1.0) || Above(n, 99999.0) then labelText + " must be between 1 and 99999."
    else ""
  }

  function AgeCheck(n: JsNumber, labelText: string): string
  {
    if n == NaN then labelText + " must be a valid number."
    else if Below(n, 0.0) then labelText + " cannot be negative."
    else if Below(n, 18.0) then labelText + " must be at least 18."
    else if Above(n, 99999.0) then labelText + " must not exceed 99999."
    else ""
  }

  function ClinicOrderQuantityCheck(n: JsNumber, labelText: string): string
  {
    if n == NaN then labelText + " must be a valid number."
    else if Below(n, 0.0) then labelText + " cannot be negative."
    else if Below(n, 25.0) then labelText + " cannot be less then 25."
    else if Below(n, 1.0) || Above(n, 99999.0) then labelText + " must be between 1 and 99999."
    else ""
  }

  function PhoneNumberCheck(value: string, labelText: string): string
  {
    if !AllDigits(value) then labelText + " must contain only numbers."
    else if |value| < 10 || |value| > 15 then labelText + " must be between 10 to 15 digits long."
    else ""
  }

  /** The second step the three character-class rules share. */
  function OuterOrDoubleSpaces(value: string, labelText: string): string
  {
    if value != Trim(value) || HasDoubleSpace(value) then labelText + " cannot have multiple or leading/trailing spaces."
    else ""
  }

  predicate AllAlnumOrSpace(t: string) { forall i :: 0 <= i < |t| ==> IsAlnumOrSpace(t[i]) }
  predicate AllNhiChars(t: string) { forall i :: 0 <= i < |t| ==> IsNhiChar(t[i]) }

  function AlnumWithSpaceCheck(value: string, labelText: string): string
  {
    var t := Trim(value);
    if !(t != [] && AllAlnumOrSpace(t)) then labelText + " must contain only letters, numbers, and spaces."
    else OuterOrDoubleSpaces(value, labelText)
  }

  function AlnumWithoutSpaceCheck(value: string, labelText: string): string
  {
    var t := Trim(value);
    if !(t != [] && AllAlnum(t)) then labelText + " must contain only letters, numbers."
    else OuterOrDoubleSpaces(value, labelText)
  }

  function NhiNumberCheck(value: string, labelText: string): string
  {
    var t := Trim(value);
    if !(t != [] && AllNhiChars(t)) then labelText + " must contain only letters, numbers and may include '-'."
    else OuterOrDoubleSpaces(value, labelText)
  }

  /** The rule checks that run after the textarea checks. */
  function LateRuleCheck(value: string, field: InputField, parseFloat: string -> JsNumber): string
  {
    if value == "" then ""
    else if field.rules.ruleType == "number" || field.rules.ruleType == "onlyNumber" then AmountCheck(parseFloat(value), field.labelText)
    else if field.rules.ruleType == "age" then AgeCheck(parseFloat(value), field.labelText)
    else if field.rules.ruleType == "clinicOrderQuantity" then ClinicOrderQuantityCheck(parseFloat(value), field.labelText)
    else if field.rules.ruleType == "phoneNumber" then PhoneNumberCheck(value, field.labelText)
    else if field.rules.ruleType == "alphanumericWithSpace" then AlnumWithSpaceCheck(value, field.labelText)
    else if field.rules.ruleType == "alphanumericWithoutSpace" then AlnumWithoutSpaceCheck(value, field.labelText)
    else if field.rules.ruleType == "nhi_number" then NhiNumberCheck(value, field.labelText)
    else ""
  }

  /** The first of two messages that is not empty. */
  function Or(first: string, next: string): string { if first != "" then first else next }

  /** `validateField`: the checks in code order; the first non-empty message is the result. */
  function ValidateField(value: string, field: InputField, state: FormState, parseFloat: string -> JsNumber): (r: string)
  {
    Or(RequiredCheck(value, field), Or(SelectCheck(value, field), Or(EarlyRuleCheck(value, field, state),
    Or(MaxLengthCheck(value, field), Or(MinLengthCheck(value, field), Or(TextareaCheck(value, field),
    LateRuleCheck(value, field, parseFloat)))))))
  }

  /**
   * The field passes exactly when every check passes; otherwise the message is the first check's that
   * fires: required before select, and the rule, length and textarea checks in code order after them.
   */
  lemma ValidateFieldFirstMessage(value: string, field: InputField, state: FormState, parseFloat: string -> JsNumber)
    ensures var r := ValidateField(value, field, state, parseFloat);
            r == "" <==> (RequiredCheck(value, field) == "" && SelectCheck(value, field) == "" &&
                          EarlyRuleCheck(value, field, state) == "" && MaxLengthCheck(value, field) == "" &&
                          MinLengthCheck(value, field) == "" && TextareaCheck(value, field) == "" &&
                          LateRuleCheck(value, field, parseFloat) == "")
    ensures RequiredCheck(value, field) != "" ==> ValidateField(value, field, state, parseFloat) == RequiredCheck(value, field)
    ensures RequiredCheck(value, field) == "" && SelectCheck(value, field) == "" ==>
              ValidateField(value, field, state, parseFloat) ==
              Or(EarlyRuleCheck(value, field, state), Or(MaxLengthCheck(value, field), Or(MinLengthCheck(value, field),
              Or(TextareaCheck(value, field), LateRuleCheck(value, field, parseFloat)))))
    ensures var r := ValidateField(value, field, state, parseFloat);
            r == RequiredCheck(value, field) || r == SelectCheck(value, field) || r == EarlyRuleCheck(value, field, state) ||
            r == MaxLengthCheck(value, field) || r == MinLengthCheck(value, field) || r == TextareaCheck(value, field) ||
            r == LateRuleCheck(value, field, parseFloat)
  {
  }

  // ---------------------------------------------------------------- what the checks accept

  /** The pattern leaves no white space at either end and no two spaces in a row. */
  lemma NameWithSpaceShapeHasNoOuterSpace(v: string)
    requires LettersWithOneSpace(v)
    ensures v != [] && !IsJsSpace(v[0]) && !IsJsSpace(v[|v| - 1]) && !HasDoubleSpace(v)
  {
    if !(v != [] && AllLetters(v)) {
      var k :| 0 < k < |v| - 1 && IsJsSpace(v[k]) && AllLetters(v[..k]) && AllLetters(v[k + 1..]);
      assert v[0] == v[..k][0];
      assert v[|v| - 1] == v[k + 1..][|v| - k - 2];
      forall i | 0 <= i < |v| - 1 ensures !(v[i] == ' ' && v[i + 1] == ' ') {
        if i < k { assert v[i] == v[..k][i]; } else { assert v[i + 1] == v[k + 1..][i - k]; }
      }
    }
  }

  /** `nameWithSpace` accepts exactly the values its pattern matches untrimmed. */
  lemma NameWithSpaceCheckIff(value: string, labelText: string)
    ensures NameWithSpaceCheck(value, labelText) == "" <==> LettersWithOneSpace(value)
  {
    if LettersWithOneSpace(value) {
      NameWithSpaceShapeHasNoOuterSpace(value);
    }
  }

  /** Letters, digits and '-' only: nothing to trim and no spaces. */
  lemma NhiShapeHasNoSpace(v: string)
    requires v != [] && AllNhiChars(v)
    ensures Trim(v) == v && !HasDoubleSpace(v)
  {
    assert !IsJsSpace(v[0]) && !IsJsSpace(v[|v| - 1]);
  }

  lemma NhiNumberCheckIff(value: string, labelText: string)
    ensures NhiNumberCheck(value, labelText) == "" <==> value != [] && AllNhiChars(value)
  {
    if value != [] && AllNhiChars(value) {
      NhiShapeHasNoSpace(value);
    }
  }

  /** Letters, digits and white space, none at either end, no two spaces in a row. */
  predicate SpacedAlnum(v: string)
  {
    v != [] && AllAlnumOrSpace(v) && !IsJsSpace(v[0]) && !IsJsSpace(v[|v| - 1]) && !HasDoubleSpace(v)
  }

  lemma AlnumWithSpaceCheckIff(value: string, labelText: string)
    ensures AlnumWithSpaceCheck(value, labelText) == "" <==> SpacedAlnum(value)
  {
  }

  lemma PasswordCheckIff(value: string, fieldName: string, state: FormState)
    ensures PasswordCheck(value, fieldName, state) == "" <==>
              FrontPasswordRule(value) &&
              (fieldName == "new_password" ==> value != StateValue(state, "old_password")) &&
              (fieldName == "confirm_password" ==> value == StateValue(state, "new_password"))
  {
  }

  /** Every password the form accepts also meets the server's strength rule. */
  lemma FrontPasswordMeetsServerRule(p: string)
    requires FrontPasswordRule(p)
    ensures Validation.PasswordRule(p)
  {
    var i :| 0 <= i < |p| && p[i] in FrontSpecials;
    assert Validation.IsSpecial(p[i]);
    var u :| 0 <= u < |p| && IsUpper(p[u]);
    assert Validation.AnyChar(p, IsUpper);
    var l :| 0 <= l < |p| && IsLower(p[l]);
    assert Validation.AnyChar(p, IsLower);
    var d :| 0 <= d < |p| && IsDigit(p[d]);
    assert Validation.AnyChar(p, IsDigit);
  }

  /** The converse fails: the server counts '-' as a special character, the form does not. */
  lemma ServerPasswordNotAlwaysFrontPassword()
    ensures Validation.PasswordRule("Abcdefg1-") && !FrontPasswordRule("Abcdefg1-")
  {
    ServerTakesDash();
    assert AllNhiChars("Abcdefg1-");
    NhiCharsAreNotFrontSpecials("Abcdefg1-");
  }

  lemma ServerTakesDash()
    ensures Validation.PasswordRule("Abcdefg1-")
  {
    var p := "Abcdefg1-";
    assert Validation.IsSpecial(p[8]) && IsUpper(p[0]) && IsLower(p[1]) && IsDigit(p[7]);
  }

  /** None of the form's special characters is a letter, a digit or '-'. */
  lemma NhiCharsAreNotFrontSpecials(p: string)
    requires AllNhiChars(p)
    ensures !HasFrontSpecial(p)
  {
    assert forall k :: 0 <= k < |FrontSpecials| ==> !IsNhiChar(FrontSpecials[k]);
    forall i | 0 <= i < |p| ensures p[i] !in FrontSpecials {
      assert IsNhiChar(p[i]);
    }
  }

  /** The email pattern has exactly one '@'. */
  lemma EmailHasOneAt(v: string, i: int, j: int)
    requires EmailShape(v) && 0 <= i < j < |v|
    ensures !(v[i] == '@' && v[j] == '@')
  {
    var p :| 0 < p < |v| && v[p] == '@' && EmailPart(v[..p]) && EmailDomain(v[p + 1..]);
  }

  // ---------------------------------------------------------------- what validateField promises

  /** An empty required field reports "<label> is required." whatever else it declares. */
  lemma RequiredComesFirst(field: InputField, state: FormState, parseFloat: string -> JsNumber)
    requires field.required
    ensures ValidateField("", field, state, parseFloat) == field.labelText + " is required."
  {
  }

  /** The select message can never be shown: on the same input the required check fires first. */
  lemma SelectMessageShadowed(value: string, field: InputField)
    ensures SelectCheck(value, field) != "" ==> RequiredCheck(value, field) != ""
  {
  }

  /** A field whose only setting is its rule name: no length rules, not a textarea. */
  predicate OnlyRule(field: InputField, rule: string)
  {
    field.rules == Rules(rule, 0, 0) && field.kind != "textarea"
  }

  /** On a non-empty value of such a field, the rule checks alone decide. */
  lemma RuleChecksDecide(value: string, field: InputField, state: FormState, parseFloat: string -> JsNumber)
    requires value != "" && OnlyRule(field, field.rules.ruleType)
    ensures ValidateField(value, field, state, parseFloat) ==
              Or(EarlyRuleCheck(value, field, state), LateRuleCheck(value, field, parseFloat))
  {
  }

  /** A rule that `EarlyRuleCheck` does not know is decided by `LateRuleCheck` alone. */
  lemma LateRuleDecides(value: string, field: InputField, state: FormState, parseFloat: string -> JsNumber)
    requires value != "" && OnlyRule(field, field.rules.ruleType) && EarlyRuleCheck(value, field, state) == ""
    ensures ValidateField(value, field, state, parseFloat) == LateRuleCheck(value, field, parseFloat)
  {
    RuleChecksDecide(value, field, state, parseFloat);
  }

  /** A rule that `LateRuleCheck` does not know is decided by `EarlyRuleCheck` alone. */
  lemma EarlyRuleDecides(value: string, field: InputField, state: FormState, parseFloat: string -> JsNumber)
    requires value != "" && OnlyRule(field, field.rules.ruleType) && LateRuleCheck(value, field, parseFloat) == ""
    ensures ValidateField(value, field, state, parseFloat) == EarlyRuleCheck(value, field, state)
  {
    RuleChecksDecide(value, field, state, parseFloat);
  }

  /** `nameWithSpace`: one or two letter words, one white-space character between them, nothing around them. */
  lemma NameWithSpaceIff(value: string, field: InputField, state: FormState, parseFloat: string -> JsNumber)
    requires value != "" && OnlyRule(field, "nameWithSpace")
    ensures ValidateField(value, field, state, parseFloat) == "" <==> LettersWithOneSpace(value)
  {
    assert LateRuleCheck(value, field, parseFloat) == "";
    EarlyRuleDecides(value, field, state, parseFloat);
    assert EarlyRuleCheck(value, field, state) == NameWithSpaceCheck(value, field.labelText);
    NameWithSpaceCheckIff(value, field.labelText);
  }

  /** `nameWithoutSpace` looks for the plain space only, so other white space at either end passes. */
  lemma NameWithoutSpaceIff(value: string, field: InputField, state: FormState, parseFloat: string -> JsNumber)
    requires value != "" && OnlyRule(field, "nameWithoutSpace")
    ensures ValidateField(value, field, state, parseFloat) == "" <==>
              Trim(value) != [] && AllLetters(Trim(value)) && ' ' !in value
  {
    assert LateRuleCheck(value, field, parseFloat) == "";
    EarlyRuleDecides(value, field, state, parseFloat);
    assert EarlyRuleCheck(value, field, state) == NameWithoutSpaceCheck(value, field.labelText);
  }

  /** A tab before a letter-only name is not caught by `nameWithoutSpace`. */
  lemma NameWithoutSpaceLetsTabThrough(labelText: string)
    ensures NameWithoutSpaceCheck("\tAnn", labelText) == ""
  {
    TabAnnTrimmed();
    TabAnnLetters();
  }

  lemma TabAnnLetters()
    ensures AllLetters("Ann") && ' ' !in "\tAnn"
  {
    var ann, tabAnn := "Ann", "\tAnn";
    assert IsLetter(ann[0]) && IsLetter(ann[1]) && IsLetter(ann[2]);
    assert tabAnn[0] != ' ' && tabAnn[1] != ' ' && tabAnn[2] != ' ' && tabAnn[3] != ' ';
  }

  lemma TabAnnTrimmed()
    ensures Trim("\tAnn") == "Ann"
  {
    var ann := "Ann";
    assert !IsJsSpace(ann[0]) && !IsJsSpace(ann[2]);
    assert TrimStart(ann) == ann && TrimEnd(ann) == ann;
    var tabAnn := "\tAnn";
    assert tabAnn[1..] == ann;
    assert TrimStart(tabAnn) == ann;
  }

  lemma EmailIff(value: string, field: InputField, state: FormState, parseFloat: string -> JsNumber)
    requires value != "" && OnlyRule(field, "email")
    ensures ValidateField(value, field, state, parseFloat) == "" <==> EmailShape(value)
  {
    assert LateRuleCheck(value, field, parseFloat) == "";
    EarlyRuleDecides(value, field, state, parseFloat);
    assert EarlyRuleCheck(value, field, state) == EmailCheck(value);
  }

  /**
   * A password field passes exactly when the strength rules hold, a new password differs from the old one
   * and a confirmation equals the new one (a value missing from the form counts as "").
   */
  lemma PasswordIff(value: string, field: InputField, state: FormState, parseFloat: string -> JsNumber)
    requires value != "" && OnlyRule(field, "password")
    ensures ValidateField(value, field, state, parseFloat) == "" <==>
              FrontPasswordRule(value) &&
              (field.name == "new_password" ==> value != StateValue(state, "old_password")) &&
              (field.name == "confirm_password" ==> value == StateValue(state, "new_password"))
  {
    assert LateRuleCheck(value, field, parseFloat) == "";
    EarlyRuleDecides(value, field, state, parseFloat);
    assert EarlyRuleCheck(value, field, state) == PasswordCheck(value, field.name, state);
    PasswordCheckIff(value, field.name, state);
  }

  /** A number or onlyNumber value passes exactly when it parses to a number from 1 to 99999. */
  lemma AmountIff(value: string, field: InputField, state: FormState, parseFloat: string -> JsNumber)
    requires value != "" && (OnlyRule(field, "number") || OnlyRule(field, "onlyNumber"))
    ensures ValidateField(value, field, state, parseFloat) == "" <==> Within(parseFloat(value), 1.0, 99999.0)
  {
    assert EarlyRuleCheck(value, field, state) == "";
    LateRuleDecides(value, field, state, parseFloat);
    assert LateRuleCheck(value, field, parseFloat) == AmountCheck(parseFloat(value), field.labelText);
  }

  /** An age passes exactly when it parses to a number from 18 to 99999. */
  lemma AgeIff(value: string, field: InputField, state: FormState, parseFloat: string -> JsNumber)
    requires value != "" && OnlyRule(field, "age")
    ensures ValidateField(value, field, state, parseFloat) == "" <==> Within(parseFloat(value), 18.0, 99999.0)
  {
    assert EarlyRuleCheck(value, field, state) == "";
    LateRuleDecides(value, field, state, parseFloat);
    assert LateRuleCheck(value, field, parseFloat) == AgeCheck(parseFloat(value), field.labelText);
  }

  /** A clinic order quantity passes exactly when it parses to a number from 25 to 99999. */
  lemma ClinicOrderQuantityIff(value: string, field: InputField, state: FormState, parseFloat: string -> JsNumber)
    requires value != "" && OnlyRule(field, "clinicOrderQuantity")
    ensures ValidateField(value, field, state, parseFloat) == "" <==> Within(parseFloat(value), 25.0, 99999.0)
  {
    assert EarlyRuleCheck(value, field, state) == "";
    LateRuleDecides(value, field, state, parseFloat);
    assert LateRuleCheck(value, field, parseFloat) == ClinicOrderQuantityCheck(parseFloat(value), field.labelText);
  }

  /** A phone number passes exactly when the server's contact-number rule accepts it: 10 to 15 digits. */
  lemma PhoneNumberMatchesServer(value: string, field: InputField, state: FormState, parseFloat: string -> JsNumber)
    requires value != "" && OnlyRule(field, "phoneNumber")
    ensures ValidateField(value, field, state, parseFloat) == "" <==> Validation.IsValidContactNumber(value)
  {
    assert EarlyRuleCheck(value, field, state) == "";
    LateRuleDecides(value, field, state, parseFloat);
    assert LateRuleCheck(value, field, parseFloat) == PhoneNumberCheck(value, field.labelText);
  }

  lemma AlnumWithSpaceIff(value: string, field: InputField, state: FormState, parseFloat: string -> JsNumber)
    requires value != "" && OnlyRule(field, "alphanumericWithSpace")
    ensures ValidateField(value, field, state, parseFloat) == "" <==> SpacedAlnum(value)
  {
    assert EarlyRuleCheck(value, field, state) == "";
    LateRuleDecides(value, field, state, parseFloat);
    assert LateRuleCheck(value, field, parseFloat) == AlnumWithSpaceCheck(value, field.labelText);
    AlnumWithSpaceCheckIff(value, field.labelText);
  }

  /** `nhi_number` accepts exactly the non-empty values made of letters, digits and '-'. */
  lemma NhiNumberIff(value: string, field: InputField, state: FormState, parseFloat: string -> JsNumber)
    requires value != "" && OnlyRule(field, "nhi_number")
    ensures ValidateField(value, field, state, parseFloat) == "" <==> AllNhiChars(value)
  {
    assert EarlyRuleCheck(value, field, state) == "";
    LateRuleDecides(value, field, state, parseFloat);
    assert LateRuleCheck(value, field, parseFloat) == NhiNumberCheck(value, field.labelText);
    NhiNumberCheckIff(value, field.labelText);
  }

  /** The rule lengths apply to a non-empty value whatever its rule; the maximum is checked first. */
  lemma RuleLengthsIff(value: string, field: InputField, state: FormState, parseFloat: string -> JsNumber)
    requires value != "" && field.rules.ruleType == "" && field.kind != "textarea"
    ensures ValidateField(value, field, state, parseFloat) == "" <==>
              (field.rules.maxLength == 0 || |value| <= field.rules.maxLength) &&
              (field.rules.minLength == 0 || |value| >= field.rules.minLength)
    ensures field.rules.maxLength != 0 && |value| > field.rules.maxLength ==>
              ValidateField(value, field, state, parseFloat) ==
              field.labelText + " cannot exceed " + Numeric.Itoa(field.rules.maxLength) + " characters."
  {
    assert Numeric.Itoa(field.rules.maxLength) != "" && Numeric.Itoa(field.rules.minLength) != "";
  }

  /** A textarea's own minimum length is enforced even on the empty value of an optional field. */
  lemma TextareaMinLengthOnEmpty(field: InputField, state: FormState, parseFloat: string -> JsNumber)
    requires field.kind == "textarea" && !field.required && field.minLength > 0
    ensures ValidateField("", field, state, parseFloat) ==
              field.labelText + " must be at least " + Numeric.Itoa(field.minLength) + " characters"
  {
  }

  /** A required textarea holding only white space is reported as missing, without the final period. */
  lemma TextareaBlankIsMissing(value: string, field: InputField, state: FormState, parseFloat: string -> JsNumber)
    requires value != "" && Trim(value) == "" && field.kind == "textarea" && field.required && field.rules == Rules("", 0, 0)
    ensures ValidateField(value, field, state, parseFloat) == field.labelText + " is required"
  {
  }

  // ---------------------------------------------------------------- validateForm

  /** Each non-empty message under its key, a later entry replacing an earlier one of the same key. */
  function Collect(entries: seq<(string, string)>): map<string, string>
    decreases |entries|
  {
    if entries == [] then map[]
    else
      var errors := Collect(entries[..|entries| - 1]);
      var e := entries[|entries| - 1];
      if e.1 != "" then errors[e.0 := e.1] else errors
  }

  /** A key is present exactly when some entry of that key has a message; no stored message is empty. */
  lemma {:induction false} CollectKeys(entries: seq<(string, string)>, key: string)
    ensures key in Collect(entries) <==> exists i :: 0 <= i < |entries| && entries[i].0 == key && entries[i].1 != ""
    ensures key in Collect(entries) ==> Collect(entries)[key] != ""
    decreases |entries|
  {
    if entries != [] {
      var init := entries[..|entries| - 1];
      CollectKeys(init, key);
      assert forall i :: 0 <= i < |init| ==> init[i] == entries[i];
      if key in Collect(entries) && key !in Collect(init) {
        assert entries[|entries| - 1].0 == key;
      }
    }
  }

  predicate DistinctKeys(entries: seq<(string, string)>)
  {
    forall i, j :: 0 <= i < j < |entries| ==> entries[i].0 != entries[j].0
  }

  /** With distinct keys, each entry's key is present exactly when its message is non-empty, with that message. */
  lemma {:induction false} CollectDistinct(entries: seq<(string, string)>, k: nat)
    requires DistinctKeys(entries) && k < |entries|
    ensures entries[k].0 in Collect(entries) <==> entries[k].1 != ""
    ensures entries[k].0 in Collect(entries) ==> Collect(entries)[entries[k].0] == entries[k].1
    decreases |entries|
  {
    var init := entries[..|entries| - 1];
    if k < |entries| - 1 {
      assert init[k] == entries[k];
      assert DistinctKeys(init);
      CollectDistinct(init, k);
    } else {
      CollectKeys(init, entries[k].0);
      assert forall i :: 0 <= i < |init| ==> init[i] == entries[i];
    }
  }

  /** One field's message, its value read from the form state. */
  function FieldMessage(state: FormState, field: InputField, parseFloat: string -> JsNumber): string
  {
    ValidateField(StateValue(state, field.name), field, state, parseFloat)
  }

  /** Each field's name with its message, in field order. */
  function Entries(state: FormState, fields: seq<InputField>, parseFloat: string -> JsNumber): (r: seq<(string, string)>)
    ensures |r| == |fields|
    ensures forall i :: 0 <= i < |fields| ==> r[i] == (fields[i].name, FieldMessage(state, fields[i], parseFloat))
  {
    seq(|fields|, i requires 0 <= i < |fields| => (fields[i].name, FieldMessage(state, fields[i], parseFloat)))
  }

  /** What `validateForm` returns. */
  function FormErrors(state: FormState, fields: seq<InputField>, parseFloat: string -> JsNumber): map<string, string>
  {
    Collect(Entries(state, fields, parseFloat))
  }

  /** `validateForm`: one pass over the fields, adding every non-empty message under the field's name. */
  method ValidateForm(state: FormState, fields: seq<InputField>, parseFloat: string -> JsNumber)
    returns (errors: map<string, string>)
    ensures errors == FormErrors(state, fields, parseFloat)
  {
    ghost var entries := Entries(state, fields, parseFloat);
    errors := map[];
    for i := 0 to |fields|
      invariant errors == Collect(entries[..i])
    {
      assert entries[..i + 1][..i] == entries[..i];
      var field := fields[i];
      var value := StateValue(state, field.name);
      var message := ValidateField(value, field, state, parseFloat);
      assert entries[i] == (field.name, message);
      if message != "" {
        errors := errors[field.name := message];
      }
    }
    assert entries[..|fields|] == entries;
  }

  predicate DistinctNames(fields: seq<InputField>)
  {
    forall i, j :: 0 <= i < j < |fields| ==> fields[i].name != fields[j].name
  }

  /** A name is a key of the result exactly when some field of that name has a message; no stored message is empty. */
  lemma FormErrorsKeys(state: FormState, fields: seq<InputField>, parseFloat: string -> JsNumber, key: string)
    ensures key in FormErrors(state, fields, parseFloat) <==>
              exists i :: 0 <= i < |fields| && fields[i].name == key && FieldMessage(state, fields[i], parseFloat) != ""
    ensures key in FormErrors(state, fields, parseFloat) ==> FormErrors(state, fields, parseFloat)[key] != ""
  {
    var entries := Entries(state, fields, parseFloat);
    CollectKeys(entries, key);
    if key in Collect(entries) {
      var i :| 0 <= i < |entries| && entries[i].0 == key && entries[i].1 != "";
      assert fields[i].name == key && FieldMessage(state, fields[i], parseFloat) != "";
    }
  }

  /** With distinct names, each field's entry is its own message, present exactly when that message is non-empty. */
  lemma FormErrorsOfDistinct(state: FormState, fields: seq<InputField>, parseFloat: string -> JsNumber, k: nat)
    requires DistinctNames(fields) && k < |fields|
    ensures fields[k].name in FormErrors(state, fields, parseFloat) <==> FieldMessage(state, fields[k], parseFloat) != ""
    ensures fields[k].name in FormErrors(state, fields, parseFloat) ==>
              FormErrors(state, fields, parseFloat)[fields[k].name] == FieldMessage(state, fields[k], parseFloat)
  {
    CollectDistinct(Entries(state, fields, parseFloat), k);
  }

  /** A form whose state holds no value reports every required field as missing. */
  lemma EmptyFormReportsRequired(fields: seq<InputField>, parseFloat: string -> JsNumber, k: nat)
    requires DistinctNames(fields) && k < |fields| && fields[k].required
    ensures fields[k].name in FormErrors(map[], fields, parseFloat)
    ensures FormErrors(map[], fields, parseFloat)[fields[k].name] == fields[k].labelText + " is required."
  {
    RequiredComesFirst(fields[k], map[], parseFloat);
    FormErrorsOfDistinct(map[], fields, parseFloat, k);
  }
}
