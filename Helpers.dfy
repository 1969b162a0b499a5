/** The small conversion helper of the front-end: `_as_int`. */
module Helpers {
  import opened Text

  /**
   * `_as_int(s, default)`: the integer written in `s` (surrounding whitespace
   * ignored), or `default` when `s` is not an integer literal.
   */
  function AsInt(s: string, default: int): (v: int)
    ensures IsBlank(s) ==> v == default
  {
    match ParseInt(Strip(s))
    case Some(n) => n
    case None => default
  }

  /** A number written with any whitespace around it reads back as that number. */
  lemma AsIntRoundTrip(n: int, default: int, lead: string, trail: string)
    requires IsBlank(lead) && IsBlank(trail)
    ensures AsInt(lead + IntToString(n) + trail, default) == n
  {
    var x := IntToString(n);
    assert !IsSpace(x[0]) && !IsSpace(x[|x| - 1]);
    StripPadded(lead, x, trail);
    ParseIntToString(n);
  }

  /** Text with no digit in it at all gives the default. */
  lemma AsIntWithoutDigits(s: string, default: int)
    requires forall i :: 0 <= i < |s| ==> !IsDigit(s[i])
    ensures AsInt(s, default) == default
  {
    var t := Strip(s);
    StripKeepsCharacters(s);
    forall i | 0 <= i < |t| ensures !IsDigit(t[i]) {
      assert t[i] in s;
    }
    if |t| > 1 { assert !IsDigit(t[1]); }
    if |t| > 0 { assert !IsDigit(t[0]); }
  }
}
