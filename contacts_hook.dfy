/** The record hook on the "contacts" sheet (typescript/index.ts): lower-case
    the first name, check the email's shape, and check the phone number with
    libphonenumber, recording errors on the record. */
module ContactsHook {
  import opened Wrappers

  /** A cell value of a Flatfile record. */
  datatype CellValue = Text(s: string) | Number(n: int) | Boolean(b: bool) | Null

  /** An error message attached to one field of a record. */
  datatype FieldError = FieldError(field: string, message: string)

  const InvalidFirstName: string := "Invalid first name"
  const InvalidEmail: string := "Invalid email address"
  const InvalidPhone: string := "Invalid phone number"
  const DefaultRegion: string := "US"

  /** A Flatfile record: its values by field key, and the errors added to it. */
  class FlatfileRecord {
    var values: map<string, CellValue>
    var errors: seq<FieldError>

    constructor (values: map<string, CellValue>)
      ensures this.values == values && errors == []
    {
      this.values := values;
      errors := [];
    }

    /** `record.get(key)`: the value, or undefined for a missing key. */
    function Get(key: string): (v: Option<CellValue>)
      reads this
      ensures v.Some? <==> key in values
      ensures v.Some? ==> v.value == values[key]
    {
      if key in values then Some(values[key]) else None
    }

    /** `record.set(key, value)`. */
    method Set(key: string, value: CellValue)
      modifies this
      ensures values == old(values)[key := value] && errors == old(errors)
    {
      values := values[key := value];
    }

    /** `record.addError(key, message)`. */
    method AddError(key: string, message: string)
      modifies this
      ensures errors == old(errors) + [FieldError(key, message)] && values == old(values)
    {
      errors := errors + [FieldError(key, message)];
    }
  }

  /** A parsed phone number, as libphonenumber represents it. */
  datatype PhoneNumber = PhoneNumber(countryCode: nat, nationalNumber: nat, rawInput: string)

  /** What parseAndKeepRawInput does: a number, or the message of what it throws. */
  datatype ParseOutcome = Parsed(number: PhoneNumber) | Threw(message: string)

  /** The three libphonenumber calls the hook makes; their behaviour is not modelled. */
  datatype PhoneNumberUtil = PhoneNumberUtil(
    parseAndKeepRawInput: (Option<CellValue>, string) -> ParseOutcome,
    isPossibleNumber: PhoneNumber -> bool,
    isValidNumber: PhoneNumber -> bool)

  // ---------------------------------------------------------------------
  // The email pattern /^[^\s@]+@[^\s@]+\.[^\s@]+$/

  /** A character JavaScript's `\s` matches. */
  predicate IsWhitespace(c: char) {
    c == '\t' || c == '\n' || c == '\U{000B}' || c == '\U{000C}' || c == '\r' || c == ' ' ||
    c == '\U{00A0}' || c == '\U{1680}' || ('\U{2000}' <= c <= '\U{200A}') ||
    c == '\U{2028}' || c == '\U{2029}' || c == '\U{202F}' || c == '\U{205F}' ||
    c == '\U{3000}' || c == '\U{FEFF}'
  }

  /** A character of the class `[^\s@]`. */
  predicate IsPlain(c: char) {
    !IsWhitespace(c) && c != '@'
  }

  predicate AllPlain(s: string) {
    forall k | 0 <= k < |s| :: IsPlain(s[k])
  }

  /** The pattern, as a regular expression means it: the string splits into
      plain text, "@", plain text, ".", plain text, each part non-empty. */
  ghost predicate MatchesEmailPattern(s: string) {
    exists i, j | 0 < i && i + 1 < j && j + 1 < |s| ::
      s[i] == '@' && s[j] == '.' && AllPlain(s[..i]) && AllPlain(s[i + 1..j]) && AllPlain(s[j + 1..])
  }

  /** Index of the first '@' of `s`, or `|s|`. */
  function IndexOfAt(s: string): (i: nat)
    ensures i <= |s|
    ensures i < |s| ==> s[i] == '@'
    ensures forall k | 0 <= k < i :: s[k] != '@'
  {
    if s == [] then 0
    else if s[0] == '@' then 0
    else 1 + IndexOfAt(s[1..])
  }

  /** The email check: one '@', a non-empty local part, and a domain with a
      '.' strictly inside it, with no whitespace and no second '@' anywhere. */
  predicate IsValidEmail(s: string) {
    var i := IndexOfAt(s);
    i < |s| && 0 < i && AllPlain(s[..i]) && AllPlain(s[i + 1..]) &&
    exists k | i + 1 < k < |s| - 1 :: s[k] == '.'
  }

  /** A slice of an all-plain slice is all plain. */
  lemma PlainSlice(s: string, lo: nat, hi: nat, lo2: nat, hi2: nat)
    requires lo <= lo2 <= hi2 <= hi <= |s| && AllPlain(s[lo..hi])
    ensures AllPlain(s[lo2..hi2])
  {
    var t, u := s[lo..hi], s[lo2..hi2];
    forall k | 0 <= k < |u| ensures IsPlain(u[k]) {
      assert u[k] == t[k + lo2 - lo];
    }
  }

  /** Two all-plain slices around a plain character make an all-plain slice. */
  lemma PlainJoin(s: string, lo: nat, mid: nat, hi: nat)
    requires lo <= mid < hi <= |s|
    requires AllPlain(s[lo..mid]) && IsPlain(s[mid]) && AllPlain(s[mid + 1..hi])
    ensures AllPlain(s[lo..hi])
  {
    var a, b, u := s[lo..mid], s[mid + 1..hi], s[lo..hi];
    forall k | 0 <= k < |u| ensures IsPlain(u[k]) {
      if k < mid - lo {
        assert u[k] == a[k];
      } else if k > mid - lo {
        assert u[k] == b[k - (mid - lo) - 1];
      }
    }
  }

  /** An '@' after an all-plain prefix is the first '@'. */
  lemma FirstAt(s: string, i: nat)
    requires i < |s| && s[i] == '@' && AllPlain(s[..i])
    ensures IndexOfAt(s) == i
  {
  }

  lemma EmailCheckSound(s: string)
    requires IsValidEmail(s)
    ensures MatchesEmailPattern(s)
  {
    var i := IndexOfAt(s);
    var j :| i + 1 < j < |s| - 1 && s[j] == '.';
    assert s[i + 1..] == s[i + 1..|s|];
    PlainSlice(s, i + 1, |s|, i + 1, j);
    PlainSlice(s, i + 1, |s|, j + 1, |s|);
    assert s[j + 1..] == s[j + 1..|s|];
  }

  lemma EmailCheckComplete(s: string)
    requires MatchesEmailPattern(s)
    ensures IsValidEmail(s)
  {
    var i, j :| 0 < i && i + 1 < j && j + 1 < |s| &&
      s[i] == '@' && s[j] == '.' && AllPlain(s[..i]) && AllPlain(s[i + 1..j]) && AllPlain(s[j + 1..]);
    FirstAt(s, i);
    assert s[j + 1..] == s[j + 1..|s|];
    PlainJoin(s, i + 1, j, |s|);
    assert s[i + 1..] == s[i + 1..|s|];
  }

  /** The check accepts exactly the strings the pattern matches. */
  lemma EmailCheckMatchesPattern(s: string)
    ensures IsValidEmail(s) <==> MatchesEmailPattern(s)
  {
    if IsValidEmail(s) {
      EmailCheckSound(s);
    }
    if MatchesEmailPattern(s) {
      EmailCheckComplete(s);
    }
  }

  /** The decimal digits of a natural number. */
  function NatToDecimal(n: nat): (r: string)
    ensures forall k | 0 <= k < |r| :: '0' <= r[k] <= '9'
  {
    var d := ['0', '1', '2', '3', '4', '5', '6', '7', '8', '9'][n % 10];
    if n < 10 then [d] else NatToDecimal(n / 10) + [d]
  }

  /** `String(v)`: what the regular expression's `test` reads for a cell value
      (a missing value reads as "undefined"). */
  function JsString(v: Option<CellValue>): string {
    match v
    case None => "undefined"
    case Some(Text(s)) => s
    case Some(Number(n)) => if n < 0 then "-" + NatToDecimal(-n) else NatToDecimal(n)
    case Some(Boolean(b)) => if b then "true" else "false"
    case Some(Null) => "null"
  }

  /** Only a string email can pass: every other value reads as text without '@'. */
  lemma NonTextEmailRejected(v: Option<CellValue>)
    requires !(v.Some? && v.value.Text?)
    ensures !MatchesEmailPattern(JsString(v))
  {
    EmailCheckMatchesPattern(JsString(v));
    var s := JsString(v);
    assert forall k | 0 <= k < |s| :: s[k] != '@';
  }

  // ---------------------------------------------------------------------
  // The hook as a function of the record's values

  function Lookup(values: map<string, CellValue>, key: string): Option<CellValue> {
    if key in values then Some(values[key]) else None
  }

  /** The values after the hook: a string first name is lower-cased. */
  function HookValues(values: map<string, CellValue>, toLowerCase: string -> string): (r: map<string, CellValue>)
    ensures r.Keys == values.Keys
    ensures forall k | k in values && k != "firstName" :: r[k] == values[k]
  {
    match Lookup(values, "firstName")
    case Some(Text(s)) => values["firstName" := Text(toLowerCase(s))]
    case _ => values
  }

  function FirstNameErrors(values: map<string, CellValue>): seq<FieldError> {
    match Lookup(values, "firstName")
    case Some(Text(_)) => []
    case _ => [FieldError("firstName", InvalidFirstName)]
  }

  function EmailErrors(values: map<string, CellValue>): seq<FieldError> {
    if IsValidEmail(JsString(Lookup(values, "email"))) then []
    else [FieldError("email", InvalidEmail)]
  }

  function PhoneErrors(values: map<string, CellValue>, phoneUtil: PhoneNumberUtil): seq<FieldError> {
    match phoneUtil.parseAndKeepRawInput(Lookup(values, "phoneNumber"), DefaultRegion)
    case Threw(message) => [FieldError("phoneNumber", message)]
    case Parsed(number) =>
      if !phoneUtil.isPossibleNumber(number) then [FieldError("phoneNumber", InvalidPhone)]
      else if !phoneUtil.isValidNumber(number) then [FieldError("phoneNumber", InvalidPhone)]
      else []
  }

  /** The errors the hook adds, in the order it adds them. */
  function HookErrors(values: map<string, CellValue>, phoneUtil: PhoneNumberUtil): seq<FieldError> {
    FirstNameErrors(values) + EmailErrors(values) + PhoneErrors(values, phoneUtil)
  }

  /** The hook: `record` is updated in place and returned. */
  method ContactsRecordHook(record: FlatfileRecord, toLowerCase: string -> string, phoneUtil: PhoneNumberUtil)
    returns (result: FlatfileRecord)
    modifies record
    ensures result == record
    ensures record.values == HookValues(old(record.values), toLowerCase)
    ensures record.errors == old(record.errors) + HookErrors(old(record.values), phoneUtil)
  {
    ghost var values0 := record.values;
    ghost var errors0 := record.errors;

    var value := record.Get("firstName");
    if value.Some? && value.value.Text? {
      record.Set("firstName", Text(toLowerCase(value.value.s)));
    } else {
      record.AddError("firstName", InvalidFirstName);
    }
    assert record.errors == errors0 + FirstNameErrors(values0);

    var email := record.Get("email");
    assert email == Lookup(values0, "email");
    if !IsValidEmail(JsString(email)) {
      record.AddError("email", InvalidEmail);
    }
    assert record.errors == errors0 + FirstNameErrors(values0) + EmailErrors(values0);

    var phoneNumber := record.Get("phoneNumber");
    assert phoneNumber == Lookup(values0, "phoneNumber");
    match phoneUtil.parseAndKeepRawInput(phoneNumber, DefaultRegion) {
      case Threw(message) =>
        record.AddError("phoneNumber", message);
      case Parsed(parsedNumber) =>
        if !phoneUtil.isPossibleNumber(parsedNumber) {
          record.AddError("phoneNumber", InvalidPhone);
        } else {
          if !phoneUtil.isValidNumber(parsedNumber) {
            record.AddError("phoneNumber", InvalidPhone);
          }
        }
    }
    return record;
  }

  // ---------------------------------------------------------------------
  // Properties of the hook

  /** The errors of `errors` on one field, in order. */
  function ErrorsOn(errors: seq<FieldError>, field: string): (r: seq<FieldError>)
    ensures |r| <= |errors|
    ensures forall e | e in r :: e in errors && e.field == field
  {
    if errors == [] then []
    else if errors[0].field == field then [errors[0]] + ErrorsOn(errors[1..], field)
    else ErrorsOn(errors[1..], field)
  }

  lemma {:induction false} ErrorsOnAppend(a: seq<FieldError>, b: seq<FieldError>, field: string)
    ensures ErrorsOn(a + b, field) == ErrorsOn(a, field) + ErrorsOn(b, field)
  {
    if a != [] {
      ErrorsOnAppend(a[1..], b, field);
      assert (a + b)[0] == a[0];
      assert (a + b)[1..] == a[1..] + b;
    } else {
      assert a + b == b;
    }
  }

  /** A string first name is lower-cased with no error; any other value is
      left as it was and gets exactly the "Invalid first name" error. */
  lemma FirstNameRule(values: map<string, CellValue>, toLowerCase: string -> string, phoneUtil: PhoneNumberUtil)
    ensures var errs := ErrorsOn(HookErrors(values, phoneUtil), "firstName");
      if "firstName" in values && values["firstName"].Text? then
        HookValues(values, toLowerCase)["firstName"] == Text(toLowerCase(values["firstName"].s)) && errs == []
      else
        HookValues(values, toLowerCase) == values && errs == [FieldError("firstName", InvalidFirstName)]
  {
    ErrorsOnAppend(FirstNameErrors(values) + EmailErrors(values), PhoneErrors(values, phoneUtil), "firstName");
    ErrorsOnAppend(FirstNameErrors(values), EmailErrors(values), "firstName");
  }

  /** The email gets the "Invalid email address" error exactly when it does not match the pattern. */
  lemma EmailRule(values: map<string, CellValue>, phoneUtil: PhoneNumberUtil)
    ensures ErrorsOn(HookErrors(values, phoneUtil), "email") ==
      if MatchesEmailPattern(JsString(Lookup(values, "email"))) then [] else [FieldError("email", InvalidEmail)]
  {
    EmailCheckMatchesPattern(JsString(Lookup(values, "email")));
    ErrorsOnAppend(FirstNameErrors(values) + EmailErrors(values), PhoneErrors(values, phoneUtil), "email");
    ErrorsOnAppend(FirstNameErrors(values), EmailErrors(values), "email");
  }

  /** At most one phone error, present exactly when parsing throws, or the
      number is not possible, or it is possible but not valid. */
  lemma PhoneRule(values: map<string, CellValue>, phoneUtil: PhoneNumberUtil)
    ensures var errs := ErrorsOn(HookErrors(values, phoneUtil), "phoneNumber");
      var parsed := phoneUtil.parseAndKeepRawInput(Lookup(values, "phoneNumber"), DefaultRegion);
      |errs| <= 1 &&
      (parsed.Threw? ==> errs == [FieldError("phoneNumber", parsed.message)]) &&
      (parsed.Parsed? && !phoneUtil.isPossibleNumber(parsed.number) ==>
         errs == [FieldError("phoneNumber", InvalidPhone)]) &&
      (parsed.Parsed? && phoneUtil.isPossibleNumber(parsed.number) && !phoneUtil.isValidNumber(parsed.number) ==>
         errs == [FieldError("phoneNumber", InvalidPhone)]) &&
      (parsed.Parsed? && phoneUtil.isPossibleNumber(parsed.number) && phoneUtil.isValidNumber(parsed.number) ==>
         errs == [])
  {
    ErrorsOnAppend(FirstNameErrors(values) + EmailErrors(values), PhoneErrors(values, phoneUtil), "phoneNumber");
    ErrorsOnAppend(FirstNameErrors(values), EmailErrors(values), "phoneNumber");
  }

  /** Errors go only to the three checked fields, at most one to each. */
  lemma ErrorsOnlyOnCheckedFields(values: map<string, CellValue>, phoneUtil: PhoneNumberUtil)
    ensures |HookErrors(values, phoneUtil)| <= 3
    ensures forall e | e in HookErrors(values, phoneUtil) :: e.field in {"firstName", "email", "phoneNumber"}
  {
  }
}
