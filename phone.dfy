/**
 * lib/phone.ts: thin wrappers over libphonenumber-js. The library itself is
 * not modelled; what it answers is passed in as a function, and only the
 * decisions lib/phone.ts makes around it are fixed here.
 */
module Phone {
  import opened Js

  /** `parsePhoneNumberFromString(val)` followed by `pn.isValid()`. */
  datatype ParseResult = NoNumber | Number(isValid: bool) | ParseThrew

  /** `new AsYouType()`, `input(digits)`, `getNumberValue()` and `formatComplete()`. */
  datatype AsYouTypeResult = Typed(hasNumberValue: bool, complete: Option<string>) | TypingThrew

  /**
   * `isValidPhone(val)`: false for an absent or empty value and whenever the
   * library finds no number or throws; otherwise the library's verdict.
   */
  function IsValidPhone(val: Option<string>, parse: string -> ParseResult): (r: bool)
    ensures !Truthy(val) ==> !r
    ensures r <==> Truthy(val) && parse(val.value) == Number(true)
  {
    if !Truthy(val) then false
    else match parse(val.value)
      case NoNumber => false
      case Number(valid) => valid
      case ParseThrew => false
  }

  predicate IsDialChar(c: char) {
    '0' <= c <= '9' || c == '+'
  }

  /** `val.replace(/[^\d+]/g, '')`: keeps the digits and every '+', in order. */
  function DialChars(s: string): (r: string)
    ensures |r| <= |s|
    ensures forall k :: 0 <= k < |r| ==> IsDialChar(r[k])
    ensures (forall k :: 0 <= k < |s| ==> IsDialChar(s[k])) ==> r == s
    decreases |s|
  {
    if s == [] then []
    else if IsDialChar(s[0]) then [s[0]] + DialChars(s[1..])
    else DialChars(s[1..])
  }

  /** Stripping works character by character: it distributes over concatenation. */
  lemma {:induction false} DialCharsAppend(a: string, b: string)
    ensures DialChars(a + b) == DialChars(a) + DialChars(b)
    decreases |a|
  {
    if a == [] {
      assert a + b == b;
    } else {
      assert (a + b)[0] == a[0];
      assert (a + b)[1..] == a[1..] + b;
      DialCharsAppend(a[1..], b);
    }
  }

  /** One character is kept exactly when it is a digit or '+'. */
  lemma DialCharsSingle(c: char)
    ensures DialChars([c]) == (if IsDialChar(c) then [c] else [])
  {
    assert [c][1..] == [];
  }

  /** Stripping twice is stripping once. */
  lemma DialCharsIdempotent(s: string)
    ensures DialChars(DialChars(s)) == DialChars(s)
  {
  }

  /**
   * `formatPhoneForDisplay(val)`: the library's complete formatting when it
   * recognised a number, else the stripped digits; the input unchanged when
   * the library throws.
   */
  function FormatPhoneForDisplay(val: string, asYouType: string -> AsYouTypeResult): (r: string)
    ensures asYouType(DialChars(val)).TypingThrew? ==> r == val
    ensures asYouType(DialChars(val)).Typed? && !asYouType(DialChars(val)).hasNumberValue ==>
      r == DialChars(val)
    ensures asYouType(DialChars(val)).Typed? && asYouType(DialChars(val)).hasNumberValue ==>
      r == asYouType(DialChars(val)).complete.GetOr(DialChars(val))
  {
    var digits := DialChars(val);
    match asYouType(digits)
    case TypingThrew => val
    case Typed(hasNumberValue, complete) =>
      if hasNumberValue then complete.GetOr(digits) else digits
  }
}
