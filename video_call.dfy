/**
 * The call screen's two pure pieces: the `m:ss` rendering of the call timer
 * and the connection-quality badge.
 */
module VideoCall {
  import opened Wrappers
  import opened Text

  /** JavaScript's `%`: the remainder takes the sign of the dividend. */
  function JsRem(a: int, b: int): (r: int)
    requires b > 0
    ensures a >= 0 ==> r == a % b
    ensures a < 0 ==> -b < r <= 0
  {
    if a >= 0 then a % b else -((-a) % b)
  }

  /**
   * `formatDuration`: `Math.floor(s / 60)` (Dafny's division by a positive
   * divisor already rounds down), a colon, and the remainder padded to two
   * characters with zeros.
   */
  function FormatDuration(seconds: int): string {
    IntToString(seconds / 60) + ":" + PadStart(IntToString(JsRem(seconds, 60)), 2, '0')
  }

  /** Reads an `m:ss` text back: digits, a colon, and exactly two digits. */
  function ReadDuration(t: string): Option<nat> {
    if |t| >= 4 && t[|t| - 3] == ':' && AllDigits(t[..|t| - 3]) && AllDigits(t[|t| - 2..]) then
      Some(DigitsValue(t[..|t| - 3]) * 60 + DigitsValue(t[|t| - 2..]))
    else None
  }

  /** The seconds part of a non-negative duration: two digits denoting `r`. */
  lemma TwoDigitSeconds(r: nat)
    requires r < 60
    ensures var t := PadStart(IntToString(r), 2, '0');
      |t| == 2 && AllDigits(t) && DigitsValue(t) == r
  {
    var t := PadStart(IntToString(r), 2, '0');
    if r < 10 {
      assert t == ['0', DigitChar(r)];
      assert t[..1] == ['0'];
      assert ['0'][..0] == [];
      assert DigitsValue(['0']) == 0;
      assert DigitValue(DigitChar(r)) == r;
    } else {
      NatToStringRoundTrip(r);
      NatToStringRoundTrip(r / 10);
    }
  }

  /**
   * For a non-negative count the text is the minutes, a colon and two digits
   * whose value is below 60, and reading it back gives the count.
   */
  lemma FormatDurationRoundTrip(seconds: nat)
    ensures var t := FormatDuration(seconds);
      |t| >= 4 && t[|t| - 3] == ':' && AllDigits(t[|t| - 2..]) && DigitsValue(t[|t| - 2..]) == seconds % 60 < 60
    ensures ReadDuration(FormatDuration(seconds)) == Some(seconds)
  {
    var m := NatToString(seconds / 60);
    var ss := PadStart(IntToString(seconds % 60), 2, '0');
    TwoDigitSeconds(seconds % 60);
    NatToStringRoundTrip(seconds / 60);
    var t := FormatDuration(seconds);
    assert t == m + ":" + ss;
    assert t[..|t| - 3] == m;
    assert t[|t| - 2..] == ss;
  }

  datatype Quality = GoodConnection | FairConnection | PoorConnection

  datatype Variant = Default | Secondary | Destructive

  /** `getConnectionBadge`'s table. */
  function BadgeVariant(q: Quality): Variant {
    match q
    case GoodConnection => Default
    case FairConnection => Secondary
    case PoorConnection => Destructive
  }

  function BadgeLabel(q: Quality): string {
    match q
    case GoodConnection => "Good Connection"
    case FairConnection => "Fair Connection"
    case PoorConnection => "Poor Connection"
  }

  /** Different qualities never share a label or a variant, so the badge identifies the quality. */
  lemma BadgeIdentifiesQuality(a: Quality, b: Quality)
    ensures BadgeLabel(a) == BadgeLabel(b) <==> a == b
    ensures BadgeVariant(a) == BadgeVariant(b) <==> a == b
  {
  }
}
