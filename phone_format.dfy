/**
 * The phone number `createShopifyCustomer` sends to Shopify: a number that
 * does not start with "+91" gets "+91" put in front, after a leading "+91" or
 * "91" is removed (`phone.replace(/^\+?91/, "")`).
 */
module PhoneFormat {
  import opened Text

  const CountryCode := "+91"

  /** A ten-digit national mobile number. */
  predicate NationalNumber(n: string) {
    |n| == 10 && AllDigits(n)
  }

  /** `phone.replace(/^\+?91/, "")`. */
  function StripCountryCode(phone: string): string {
    if StartsWith(phone, "+91") then phone[3..]
    else if StartsWith(phone, "91") then phone[2..]
    else phone
  }

  /** The formatting as written. */
  function FormatPhone(phone: string): (formatted: string)
    ensures StartsWith(formatted, CountryCode)
  {
    if StartsWith(phone, CountryCode) then phone else CountryCode + StripCountryCode(phone)
  }

  /** As written, a national number is sent with the country code in front,
      unless it begins with "91", whose first two digits are taken for the
      country code and dropped. */
  lemma FormatPhoneDropsLeading91(n: string)
    requires NationalNumber(n)
    ensures !StartsWith(n, "91") ==> FormatPhone(n) == CountryCode + n
    ensures StartsWith(n, "91") ==> FormatPhone(n) == CountryCode + n[2..] && |FormatPhone(n)| == 11
  {
    DigitsLackPlus(n);
  }

  lemma DigitsLackPlus(n: string)
    requires n != [] && IsDigit(n[0])
    ensures !StartsWith(n, CountryCode)
    ensures !StartsWith(n, "+91")
  {
    assert CountryCode[0] == '+';
  }

  /** The national number 9123456789 is sent as "+9123456789": "+91" and
      then only eight digits, which are not the customer's number. */
  lemma FormatPhoneCounterexample()
    ensures NationalNumber("9123456789")
    ensures FormatPhone("9123456789") == "+9123456789"
    ensures FormatPhone("9123456789") != CountryCode + "9123456789"
  {
    var n := "9123456789";
    DigitsLackPlus(n);
    assert StartsWith(n, "91");
    assert n[2..] == "23456789";
    assert CountryCode + "23456789" == "+9123456789";
  }

  /** The formatting intended: a number already carrying "+91" is kept, a
      twelve-character "91…" has its code completed with "+", and any other
      number gets "+91" in front. */
  function FormatPhoneIntended(phone: string): (formatted: string)
    ensures StartsWith(formatted, CountryCode)
  {
    if StartsWith(phone, CountryCode) then phone
    else if StartsWith(phone, "91") && |phone| == 12 then "+" + phone
    else CountryCode + phone
  }

  /** Every way of writing a national number (bare, with "91", with "+91")
      is sent as "+91" followed by that number. */
  lemma FormatPhoneIntendedKeepsNumber(n: string)
    requires NationalNumber(n)
    ensures FormatPhoneIntended(n) == CountryCode + n
    ensures FormatPhoneIntended("91" + n) == CountryCode + n
    ensures FormatPhoneIntended(CountryCode + n) == CountryCode + n
  {
    DigitsLackPlus(n);
    DigitsLackPlus("91" + n);
    assert "+" + ("91" + n) == CountryCode + n;
    assert StartsWith(CountryCode + n, CountryCode);
  }

  /** Formatting twice is formatting once. */
  lemma FormatPhoneIntendedIdempotent(phone: string)
    ensures FormatPhoneIntended(FormatPhoneIntended(phone)) == FormatPhoneIntended(phone)
  {
  }
}
