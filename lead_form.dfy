/**
 * The lead form of src/components/LeadForm.jsx: the field validator with
 * its e-mail and phone patterns, the per-field error clearing on input,
 * and the early exit of a submission that fails validation.
 *
 * The POST to the form service, the stored lead, the analytics event and
 * the auto-close timer are not modelled.
 */
module LeadForm {
  import opened Text

  // ---------------------------------------------------------------------
  // The e-mail pattern

  /** The class `[^\s@]`. */
  predicate Plain(c: char) {
    !IsSpace(c) && c != '@'
  }

  predicate AllPlain(s: string) {
    s == [] || (Plain(s[0]) && AllPlain(s[1..]))
  }

  lemma {:induction false} AllPlainIff(s: string)
    ensures AllPlain(s) <==> forall k :: 0 <= k < |s| ==> Plain(s[k])
  {
    if s != [] {
      AllPlainIff(s[1..]);
      assert forall k :: 0 < k < |s| ==> s[k] == s[1..][k - 1];
    }
  }

  /** `/^[^\s@]+@[^\s@]+\.[^\s@]+$/.test(s)`: an '@' at `i` and a '.' at
      `j` cut `s` into three non-empty runs of `[^\s@]`. */
  predicate EmailPattern(s: string) {
    exists i, j :: 0 < i && i + 1 < j < |s| - 1 && s[i] == '@' && s[j] == '.'
      && AllPlain(s[..i]) && AllPlain(s[i + 1..j]) && AllPlain(s[j + 1..])
  }

  /** The same language described field by field: one '@', not first,
      every other character in `[^\s@]` (so no white space and no second
      '@'), and a '.' after the '@' that is neither the domain's first nor
      its last character. */
  predicate EmailShape(s: string) {
    exists i :: 0 < i < |s| && s[i] == '@'
      && (forall k :: 0 <= k < |s| && k != i ==> Plain(s[k]))
      && (exists j :: i + 1 < j < |s| - 1 && s[j] == '.')
  }

  lemma EmailPatternHasShape(s: string)
    requires EmailPattern(s)
    ensures EmailShape(s)
  {
    var i, j :| 0 < i && i + 1 < j < |s| - 1 && s[i] == '@' && s[j] == '.'
      && AllPlain(s[..i]) && AllPlain(s[i + 1..j]) && AllPlain(s[j + 1..]);
    var local, domain, tld := s[..i], s[i + 1..j], s[j + 1..];
    AllPlainIff(local);
    AllPlainIff(domain);
    AllPlainIff(tld);
    forall k | 0 <= k < i ensures Plain(s[k]) {
      assert s[k] == local[k];
    }
    forall k | i < k < j ensures Plain(s[k]) {
      assert s[k] == domain[k - i - 1];
    }
    forall k | j < k < |s| ensures Plain(s[k]) {
      assert s[k] == tld[k - j - 1];
    }
    assert Plain(s[j]);
    assert forall k :: 0 <= k < |s| && k != i ==> Plain(s[k]);
    assert i + 1 < j < |s| - 1 && s[j] == '.';
  }

  lemma EmailShapeMatchesPattern(s: string)
    requires EmailShape(s)
    ensures EmailPattern(s)
  {
    var i :| 0 < i < |s| && s[i] == '@'
      && (forall k :: 0 <= k < |s| && k != i ==> Plain(s[k]))
      && (exists j :: i + 1 < j < |s| - 1 && s[j] == '.');
    var j :| i + 1 < j < |s| - 1 && s[j] == '.';
    forall k | 0 <= k < i ensures Plain(s[..i][k]) {
      assert s[..i][k] == s[k];
    }
    var domain, tld := s[i + 1..j], s[j + 1..];
    forall k | 0 <= k < |domain| ensures Plain(domain[k]) {
      assert domain[k] == s[k + i + 1];
    }
    forall k | 0 <= k < |tld| ensures Plain(tld[k]) {
      assert tld[k] == s[k + j + 1];
    }
    AllPlainIff(s[..i]);
    AllPlainIff(domain);
    AllPlainIff(tld);
  }

  /** The e-mail pattern accepts exactly the strings of that shape. */
  lemma EmailPatternIff(s: string)
    ensures EmailPattern(s) <==> EmailShape(s)
  {
    if EmailPattern(s) {
      EmailPatternHasShape(s);
    }
    if EmailShape(s) {
      EmailShapeMatchesPattern(s);
    }
  }

  // ---------------------------------------------------------------------
  // The phone pattern

  /** `s.replace(/\D/g, '')`: the digits of `s`, in order. */
  function DigitsOnly(s: string): (r: string)
    ensures |r| <= |s|
  {
    if s == [] then []
    else
      var rest := DigitsOnly(s[1..]);
      if IsDigit(s[0]) then [s[0]] + rest else rest
  }

  /** What is left is exactly the digits of `s`. */
  lemma {:induction false} DigitsOnlyKeepsDigits(s: string)
    ensures AllDigits(DigitsOnly(s))
    ensures forall c :: c in DigitsOnly(s) <==> c in s && IsDigit(c)
  {
    if s != [] {
      DigitsOnlyKeepsDigits(s[1..]);
      assert forall c :: c in s <==> c == s[0] || c in s[1..];
    }
  }

  /** `[1-9][\d]{0,15}`. */
  predicate LeadDigitRun(t: string) {
    1 <= |t| <= 16 && '1' <= t[0] <= '9' && AllDigits(t[1..])
  }

  /** `/^[\+]?[1-9][\d]{0,15}$/.test(t)`, the optional '+' taken or not. */
  predicate PhonePattern(t: string) {
    LeadDigitRun(t) || (t != [] && t[0] == '+' && LeadDigitRun(t[1..]))
  }

  /** Since only digits are left when the pattern is tested, the '+' can
      never match: the phone is valid exactly when 1 to 16 digits remain
      and the first is not '0'. */
  lemma PhoneValidIff(s: string)
    ensures PhonePattern(DigitsOnly(s)) <==>
      1 <= |DigitsOnly(s)| <= 16 && DigitsOnly(s)[0] != '0'
  {
    var d := DigitsOnly(s);
    DigitsOnlyKeepsDigits(s);
    if d != [] {
      assert IsDigit(d[0]);
      forall k | 0 <= k < |d[1..]| ensures IsDigit(d[1..][k]) {
        assert d[1..][k] == d[k + 1];
      }
    }
  }

  // ---------------------------------------------------------------------
  // The form

  const NameRequired := "Name is required"
  const EmailRequired := "Email is required"
  const EmailInvalid := "Please enter a valid email"
  const PhoneRequired := "Phone number is required"
  const PhoneInvalid := "Please enter a valid phone number"

  /** The fields of the initial `formData`, all empty. */
  const InitialForm: map<string, string> := map[
    "name" := "", "email" := "", "phone" := "", "zip" := "",
    "vehicleInterest" := "", "budget" := "", "timeframe" := "", "message" := ""]

  /** Every validated field passes its check. */
  predicate FieldsPass(formData: map<string, string>)
    requires "name" in formData && "email" in formData && "phone" in formData
  {
    !NameFails(formData["name"]) && !EmailFails(formData["email"]) && !PhoneFails(formData["phone"])
  }

  /** `!s.trim()`: nothing but white space. */
  predicate Blank(s: string) {
    s == [] || (IsSpace(s[0]) && Blank(s[1..]))
  }

  lemma {:induction false} BlankIff(s: string)
    ensures Blank(s) <==> forall k :: 0 <= k < |s| ==> IsSpace(s[k])
  {
    if s != [] {
      BlankIff(s[1..]);
      assert forall k :: 0 < k < |s| ==> s[k] == s[1..][k - 1];
    }
  }

  lemma {:induction false} BlankTrimsAway(s: string)
    requires Blank(s)
    ensures TrimStart(s) == []
  {
    if s != [] {
      BlankTrimsAway(s[1..]);
    }
  }

  /** `Blank` is the source's test `!s.trim()`. */
  lemma BlankIsEmptyTrim(s: string)
    ensures Blank(s) <==> Trim(s) == ""
  {
    BlankIff(s);
    if Blank(s) {
      BlankTrimsAway(s);
    }
  }

  predicate NameFails(name: string) {
    Blank(name)
  }

  predicate EmailFails(email: string) {
    Blank(email) || !EmailPattern(email)
  }

  predicate PhoneFails(phone: string) {
    Blank(phone) || !PhonePattern(DigitsOnly(phone))
  }

  /** The errors `validateForm()` collects for `formData`, rule by rule. */
  function Errors(formData: map<string, string>): map<string, string>
    requires "name" in formData && "email" in formData && "phone" in formData
  {
    var name := if Blank(formData["name"]) then map["name" := NameRequired] else map[];
    var email :=
      if Blank(formData["email"]) then name["email" := EmailRequired]
      else if !EmailPattern(formData["email"]) then name["email" := EmailInvalid]
      else name;
    if Blank(formData["phone"]) then email["phone" := PhoneRequired]
    else if !PhonePattern(DigitsOnly(formData["phone"])) then email["phone" := PhoneInvalid]
    else email
  }

  /** The collected errors field by field: a key exactly for each failing
      rule, with its message, and no other key. */
  lemma ErrorsByField(formData: map<string, string>)
    requires "name" in formData && "email" in formData && "phone" in formData
    ensures var e := Errors(formData);
      && e.Keys <= {"name", "email", "phone"}
      && (|e| == 0 <==> FieldsPass(formData))
      && ("name" in e <==> NameFails(formData["name"]))
      && ("name" in e ==> e["name"] == NameRequired)
      && ("email" in e <==> EmailFails(formData["email"]))
      && ("email" in e ==> e["email"] == if Blank(formData["email"]) then EmailRequired else EmailInvalid)
      && ("phone" in e <==> PhoneFails(formData["phone"]))
      && ("phone" in e ==> e["phone"] == if Blank(formData["phone"]) then PhoneRequired else PhoneInvalid)
  {
  }

  /** `validateForm()` over the current `formData`: one message for each field that fails, and no
      other keys. */
  method ValidateForm(formData: map<string, string>) returns (newErrors: map<string, string>)
    requires "name" in formData && "email" in formData && "phone" in formData
    ensures newErrors == Errors(formData)
    ensures |newErrors| == 0 <==> FieldsPass(formData)
    ensures newErrors.Keys <= {"name", "email", "phone"}
    ensures "name" in newErrors <==> NameFails(formData["name"])
    ensures "name" in newErrors ==> newErrors["name"] == NameRequired
    ensures "email" in newErrors <==> EmailFails(formData["email"])
    ensures "email" in newErrors ==>
      newErrors["email"] == if Blank(formData["email"]) then EmailRequired else EmailInvalid
    ensures "phone" in newErrors <==> PhoneFails(formData["phone"])
    ensures "phone" in newErrors ==>
      newErrors["phone"] == if Blank(formData["phone"]) then PhoneRequired else PhoneInvalid
  {
    newErrors := map[];
    if Blank(formData["name"]) {
      newErrors := newErrors["name" := NameRequired];
    }
    if Blank(formData["email"]) {
      newErrors := newErrors["email" := EmailRequired];
    } else if !EmailPattern(formData["email"]) {
      newErrors := newErrors["email" := EmailInvalid];
    }
    if Blank(formData["phone"]) {
      newErrors := newErrors["phone" := PhoneRequired];
    } else if !PhonePattern(DigitsOnly(formData["phone"])) {
      newErrors := newErrors["phone" := PhoneInvalid];
    }
  }

  /** The form's state: its fields, its error messages by field, and
      whether a submission went on to be sent. */
  class Form {
    var formData: map<string, string>
    var errors: map<string, string>
    var isSubmitting: bool

    /** The validator reads these three fields. */
    predicate Valid()
      reads this
    {
      "name" in formData && "email" in formData && "phone" in formData
    }

    constructor ()
      ensures Valid()
      ensures formData == InitialForm && errors == map[] && !isSubmitting
    {
      formData := InitialForm;
      errors := map[];
      isSubmitting := false;
    }

    /** `handleInputChange` for the input `name` now holding `value`: the
        field is set, and a truthy error on that field is cleared to ''. */
    method HandleInputChange(name: string, value: string)
      requires Valid()
      modifies this
      ensures Valid()
      ensures formData == old(formData)[name := value]
      ensures name in old(errors) && old(errors)[name] != "" ==> errors == old(errors)[name := ""]
      ensures !(name in old(errors) && old(errors)[name] != "") ==> errors == old(errors)
      ensures isSubmitting == old(isSubmitting)
    {
      formData := formData[name := value];
      if name in errors && errors[name] != "" {
        errors := errors[name := ""];
      }
    }

    /** The part of `handleSubmit` before the request: with any validation
        error nothing is sent and the errors are stored; otherwise the form
        starts submitting (`sent`).  The stored errors are the validator's,
        so `ValidateForm`'s contract describes them field by field. */
    method HandleSubmit() returns (sent: bool)
      requires Valid()
      modifies this
      ensures Valid() && formData == old(formData)
      ensures sent ==> errors == old(errors) && isSubmitting
      ensures !sent ==> errors == Errors(old(formData)) && |errors| > 0
      ensures !sent ==> errors.Keys <= {"name", "email", "phone"}
      ensures !sent ==> isSubmitting == old(isSubmitting)
      ensures sent <==> FieldsPass(formData)
    {
      var validationErrors := ValidateForm(formData);
      if |validationErrors| > 0 {
        errors := validationErrors;
        sent := false;
      } else {
        isSubmitting := true;
        sent := true;
      }
    }
  }
}
