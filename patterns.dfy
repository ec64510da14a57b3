/** The field formats that the three validators test with regular expressions, each as a
    whole-string predicate (the pattern between `^` and `$`). The PHP and JavaScript
    validators apply them with their own anchoring and case rules. */
module Patterns {
  import opened Text

  /** `(0[1-9]|1[0-2])\/20\d{2}`: a month 01-12, a slash and a year 2000-2099. */
  predicate Expiry(s: string) {
    && |s| == 7
    && ((s[0] == '0' && '1' <= s[1] <= '9') || (s[0] == '1' && '0' <= s[1] <= '2'))
    && s[2] == '/' && s[3] == '2' && s[4] == '0'
    && IsDigit(s[5]) && IsDigit(s[6])
  }

  /** `\d{3,4}` */
  predicate Cvv(s: string) {
    3 <= |s| <= 4 && AllDigits(s)
  }

  /** `\d{13,19}` */
  predicate Card(s: string) {
    13 <= |s| <= 19 && AllDigits(s)
  }

  /** `[VE]\d+` */
  predicate CedulaUpper(s: string) {
    |s| >= 2 && (s[0] == 'V' || s[0] == 'E') && AllDigits(s[1..])
  }

  /** `[VE]\d+` with the `i` flag: the letter may also be `v` or `e`. */
  predicate CedulaAnyCase(s: string) {
    |s| >= 2 && (s[0] in "VEve") && AllDigits(s[1..])
  }

  /** Reference rendering of a month and a year as "MM/YYYY". */
  function ExpiryText(month: int, year: int): (r: string)
    requires 1 <= month <= 12 && 2000 <= year <= 2099
    ensures |r| == 7
  {
    [Digit(month / 10), Digit(month % 10), '/', '2', '0', Digit((year - 2000) / 10), Digit(year % 10)]
  }

  function MonthOf(s: string): int
    requires |s| == 7
  {
    10 * DigitValue(s[0]) + DigitValue(s[1])
  }

  function YearOf(s: string): int
    requires |s| == 7
  {
    1000 * DigitValue(s[3]) + 100 * DigitValue(s[4]) + 10 * DigitValue(s[5]) + DigitValue(s[6])
  }

  /** Every month 1-12 of a year 2000-2099, written "MM/YYYY", has the expiry format. */
  lemma ExpiryTextHasFormat(month: int, year: int)
    requires 1 <= month <= 12 && 2000 <= year <= 2099
    ensures Expiry(ExpiryText(month, year))
    ensures MonthOf(ExpiryText(month, year)) == month && YearOf(ExpiryText(month, year)) == year
  {
  }

  /** Conversely, a string of the expiry format is the rendering of a month 1-12 and a
      year 2000-2099. */
  lemma ExpiryIsMonthAndYear(s: string)
    requires Expiry(s)
    ensures 1 <= MonthOf(s) <= 12 && 2000 <= YearOf(s) <= 2099
    ensures s == ExpiryText(MonthOf(s), YearOf(s))
  {
    var m, y := MonthOf(s), YearOf(s);
    assert m / 10 == DigitValue(s[0]) && m % 10 == DigitValue(s[1]);
    assert (y - 2000) / 10 == DigitValue(s[5]) && y % 10 == DigitValue(s[6]);
    assert ExpiryText(m, y)[0] == s[0] && ExpiryText(m, y)[1] == s[1];
    assert ExpiryText(m, y)[5] == s[5] && ExpiryText(m, y)[6] == s[6];
  }

  /** Sample inputs: months 13 and 00 and a two-digit year are refused; 01/2025 and
      12/2099 are accepted. */
  lemma ExpiryExamples()
    ensures !Expiry("13/2025") && !Expiry("00/2025") && !Expiry("01/99")
    ensures Expiry("01/2025") && Expiry("12/2099")
  {
  }

  /** The case-sensitive cédula rule is strictly stronger than the case-insensitive one. */
  lemma CedulaUpperIsStricter(s: string)
    ensures CedulaUpper(s) ==> CedulaAnyCase(s)
    ensures CedulaAnyCase("v123") && !CedulaUpper("v123")
  {
  }
}
