/** The field validators: length bounds on the UTF-8 encoding, the two character-class
    patterns, id positivity and currency membership. Each returns `None` for Go's nil error,
    or the kind of error it reports. */
module Validator {
  import opened Wrappers

  /** The errors the validators report; each stands for one message of the source. */
  datatype ValidationError =
    | BadLength(minLength: int, maxLength: int)   // "must contain from min-max characters"
    | BadUsernameChars                            // "must contain only lower case letters, digits, or underscores"
    | BadFullNameChars                            // "must contain only letters or spaces"
    | BadEmail                                    // "invalid email address"
    | BadId                                       // "invalid id"
    | UnsupportedCurrency                         // "unsupported currency"
    | BadAmount                                   // the errors of ValidateAmount,
    | BadLimit                                    // ValidateLimit and ValidateOffset,
    | BadOffset                                   // whose definitions are not part of this model

  /** What the validators need that is configuration or foreign code: the supported
      currencies, Go's RFC 5322 address parser, and the acceptance tests of ValidateAmount,
      ValidateLimit and ValidateOffset. */
  datatype Rules = Rules(
    supportedCurrencies: seq<string>,
    emailParses: string -> bool,
    amountOk: int -> bool,
    limitOk: int -> bool,
    offsetOk: int -> bool)

  /** The number of bytes of the UTF-8 encoding of one character. */
  function Utf8Width(c: char): (w: nat)
    ensures 1 <= w <= 4
    ensures w == 1 <==> c as int < 0x80
  {
    if c as int < 0x80 then 1
    else if c as int < 0x800 then 2
    else if c as int < 0x1_0000 then 3
    else 4
  }

  /** Go's `len` on a string: the length of its UTF-8 encoding in bytes. */
  function ByteLen(s: string): (n: nat)
    ensures |s| <= n <= 4 * |s|
    ensures n == |s| <==> forall i :: 0 <= i < |s| ==> s[i] as int < 0x80
  {
    if s == [] then 0 else Utf8Width(s[0]) + ByteLen(s[1..])
  }

  /** Whether the anchored pattern `^[class]+$` matches `s`, reading one character at a time. */
  function MatchesClassPlus(s: string, inClass: char -> bool): (r: bool)
    ensures r <==> |s| > 0 && forall i :: 0 <= i < |s| ==> inClass(s[i])
  {
    |s| > 0 && inClass(s[0]) && (|s| == 1 || MatchesClassPlus(s[1..], inClass))
  }

  /** The class `[a-z0-9_]`. */
  predicate UsernameChar(c: char) {
    ('a' <= c <= 'z') || ('0' <= c <= '9') || c == '_'
  }

  /** Go's `\s`: tab, newline, form feed, carriage return and space. */
  predicate IsSpace(c: char) {
    c == '\t' || c == '\n' || c as int == 0x0C || c == '\r' || c == ' '
  }

  /** The class `[a-zA-Z\s]`. */
  predicate FullNameChar(c: char) {
    ('a' <= c <= 'z') || ('A' <= c <= 'Z') || IsSpace(c)
  }

  function ValidateString(s: string, minLength: int, maxLength: int): (r: Option<ValidationError>)
    ensures r.None? <==> minLength <= ByteLen(s) <= maxLength
    ensures r.Some? ==> r.value == BadLength(minLength, maxLength)
  {
    var n := ByteLen(s);
    if n < minLength || n > maxLength then Some(BadLength(minLength, maxLength)) else None
  }

  /** A username is 3 to 100 bytes of lower-case letters, digits and underscores; the length
      is checked first. */
  function ValidateUsername(name: string): (r: Option<ValidationError>)
    ensures r.None? <==> 3 <= |name| <= 100 && forall i :: 0 <= i < |name| ==> UsernameChar(name[i])
    ensures !(3 <= ByteLen(name) <= 100) ==> r == Some(BadLength(3, 100))
    ensures 3 <= ByteLen(name) <= 100 && r.Some? ==> r == Some(BadUsernameChars)
  {
    match ValidateString(name, 3, 100)
    case Some(e) => Some(e)
    case None => if !MatchesClassPlus(name, UsernameChar) then Some(BadUsernameChars) else None
  }

  function ValidatePassword(pwd: string): (r: Option<ValidationError>)
    ensures r.None? <==> 8 <= ByteLen(pwd) <= 100
    ensures r.Some? ==> r == Some(BadLength(8, 100))
  {
    ValidateString(pwd, 8, 100)
  }

  /** A full name is 3 to 100 bytes of ASCII letters and white space; the length is checked first. */
  function ValidateFullName(name: string): (r: Option<ValidationError>)
    ensures r.None? <==> 3 <= |name| <= 100 && forall i :: 0 <= i < |name| ==> FullNameChar(name[i])
    ensures !(3 <= ByteLen(name) <= 100) ==> r == Some(BadLength(3, 100))
    ensures 3 <= ByteLen(name) <= 100 && r.Some? ==> r == Some(BadFullNameChars)
  {
    match ValidateString(name, 3, 100)
    case Some(e) => Some(e)
    case None => if !MatchesClassPlus(name, FullNameChar) then Some(BadFullNameChars) else None
  }

  function ValidateID(id: int): (r: Option<ValidationError>)
    ensures r.Some? <==> id <= 0
    ensures r.Some? ==> r.value == BadId
  {
    if id <= 0 then Some(BadId) else None
  }

  /** `supported` is the list of currencies the service accepts, which is configuration here. */
  function ValidateCurrency(currency: string, supported: seq<string>): (r: Option<ValidationError>)
    ensures r.None? <==> exists i :: 0 <= i < |supported| && supported[i] == currency
    ensures r.Some? ==> r.value == UnsupportedCurrency
  {
    if currency !in supported then Some(UnsupportedCurrency) else None
  }

  /** An email is valid when the address parser accepts it. */
  function ValidateEmail(rules: Rules, email: string): (r: Option<ValidationError>)
    ensures r.None? <==> rules.emailParses(email)
    ensures r.Some? ==> r.value == BadEmail
  {
    if !rules.emailParses(email) then Some(BadEmail) else None
  }

  function ValidateAmount(rules: Rules, amount: int): (r: Option<ValidationError>)
    ensures r.None? <==> rules.amountOk(amount)
    ensures r.Some? ==> r.value == BadAmount
  {
    if !rules.amountOk(amount) then Some(BadAmount) else None
  }

  function ValidateLimit(rules: Rules, limit: int): (r: Option<ValidationError>)
    ensures r.None? <==> rules.limitOk(limit)
    ensures r.Some? ==> r.value == BadLimit
  {
    if !rules.limitOk(limit) then Some(BadLimit) else None
  }

  function ValidateOffset(rules: Rules, offset: int): (r: Option<ValidationError>)
    ensures r.None? <==> rules.offsetOk(offset)
    ensures r.Some? ==> r.value == BadOffset
  {
    if !rules.offsetOk(offset) then Some(BadOffset) else None
  }
}
