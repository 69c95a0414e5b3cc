/**
 * The date-token check `validatePersianDate`: a Solar Hijri date written
 * `YYYY/MM/DD`, with range checks on the three numbers and no calendar
 * arithmetic (day 31 is accepted in every month).
 */
module Dates {

  predicate IsDigit(c: char) {
    '0' <= c <= '9'
  }

  predicate AllDigits(s: string) {
    forall i :: 0 <= i < |s| ==> IsDigit(s[i])
  }

  /** The numeric value of a run of decimal digits, as `parseInt(s)` reads it (leading zeros allowed). */
  function Value(s: string): nat
    requires AllDigits(s)
  {
    if s == [] then 0 else Value(s[..|s| - 1]) * 10 + (s[|s| - 1] as int - '0' as int)
  }

  function Pow10(w: nat): (p: nat)
    ensures p >= 1
  {
    if w == 0 then 1 else 10 * Pow10(w - 1)
  }

  /** `n` written with exactly `w` decimal digits, zero-padded on the left. */
  function Pad(n: nat, w: nat): (r: string)
    ensures |r| == w && AllDigits(r)
  {
    if w == 0 then [] else Pad(n / 10, w - 1) + ['0' + (n % 10) as char]
  }

  /** The regular expression `^\d{4}\/\d{2}\/\d{2}$` (JavaScript's `\d` is ASCII 0-9 only). */
  predicate MatchesPattern(s: string) {
    |s| == 10 && AllDigits(s[0..4]) && s[4] == '/' && AllDigits(s[5..7]) && s[7] == '/' && AllDigits(s[8..10])
  }

  predicate InRange(year: int, month: int, day: int) {
    1300 <= year <= 1500 && 1 <= month <= 12 && 1 <= day <= 31
  }

  /** `validatePersianDate`: the pattern, then the three `parseInt` values against their ranges. */
  function ValidatePersianDate(s: string): bool {
    MatchesPattern(s) && InRange(Value(s[0..4]), Value(s[5..7]), Value(s[8..10]))
  }

  /** The token for a year, a month and a day. */
  function Render(year: nat, month: nat, day: nat): (s: string)
    ensures MatchesPattern(s)
  {
    Pad(year, 4) + "/" + Pad(month, 2) + "/" + Pad(day, 2)
  }

  /** Reading back a padded number gives the number, when it fits in the width. */
  lemma {:induction false} ValuePad(n: nat, w: nat)
    requires n < Pow10(w)
    ensures Value(Pad(n, w)) == n
  {
    if w > 0 {
      var p := Pad(n / 10, w - 1);
      assert Pad(n, w)[..w - 1] == p;
      ValuePad(n / 10, w - 1);
    }
  }

  /** Padding the value of a digit run to its own length gives the run back. */
  lemma {:induction false} PadValue(s: string)
    requires AllDigits(s)
    ensures Pad(Value(s), |s|) == s
  {
    if s != [] {
      var init := s[..|s| - 1];
      var d := s[|s| - 1] as int - '0' as int;
      assert Value(s) / 10 == Value(init) && Value(s) % 10 == d;
      PadValue(init);
      assert s == init + [s[|s| - 1]];
    }
  }

  /** A rendered date reads back as the three numbers it was rendered from. */
  lemma RenderParts(year: nat, month: nat, day: nat)
    requires year < 10000 && month < 100 && day < 100
    ensures Render(year, month, day)[0..4] == Pad(year, 4)
    ensures Render(year, month, day)[5..7] == Pad(month, 2)
    ensures Render(year, month, day)[8..10] == Pad(day, 2)
  {
  }

  /**
   * The validator accepts exactly the renderings of in-range dates: every
   * accepted token is `Render` of its own three numbers, and every in-range
   * triple renders to an accepted token.
   */
  lemma {:induction false} ValidateIsRenderOfRange(s: string)
    ensures ValidatePersianDate(s) <==>
      exists year: nat, month: nat, day: nat :: InRange(year, month, day) && s == Render(year, month, day)
  {
    if ValidatePersianDate(s) {
      var year, month, day := Value(s[0..4]), Value(s[5..7]), Value(s[8..10]);
      PadValue(s[0..4]);
      PadValue(s[5..7]);
      PadValue(s[8..10]);
      assert s == s[0..4] + "/" + s[5..7] + "/" + s[8..10];
      assert s == Render(year, month, day);
    }
    if exists year: nat, month: nat, day: nat :: InRange(year, month, day) && s == Render(year, month, day) {
      var year: nat, month: nat, day: nat :| InRange(year, month, day) && s == Render(year, month, day);
      RenderAccepted(year, month, day);
    }
  }

  /** Every in-range triple renders to a token the validator accepts. */
  lemma RenderAccepted(year: nat, month: nat, day: nat)
    requires InRange(year, month, day)
    ensures ValidatePersianDate(Render(year, month, day))
  {
    RenderParts(year, month, day);
    assert Pow10(4) == 10000 && Pow10(2) == 100;
    ValuePad(year, 4);
    ValuePad(month, 2);
    ValuePad(day, 2);
  }

  /** `1404/08/16` passes. */
  lemma TypicalDateAccepted()
    ensures ValidatePersianDate("1404/08/16")
  {
    var s := "1404/08/16";
    assert s[0..4] == "1404" && s[5..7] == "08" && s[8..10] == "16";
    assert "1404"[..3] == "140" && "140"[..2] == "14" && "14"[..1] == "1";
    assert "08"[..1] == "0" && "16"[..1] == "1";
  }

  /** `1404/02/31` passes as well: there is no month-length check. */
  lemma ThirtyFirstAcceptedInAnyMonth()
    ensures ValidatePersianDate("1404/02/31")
  {
    var s := "1404/02/31";
    assert s[0..4] == "1404" && s[5..7] == "02" && s[8..10] == "31";
    assert "1404"[..3] == "140" && "140"[..2] == "14" && "14"[..1] == "1";
    assert "02"[..1] == "0" && "31"[..1] == "3";
  }

  /** `1404/13/01` fails on the month. */
  lemma MonthThirteenRejected()
    ensures !ValidatePersianDate("1404/13/01")
  {
    var s := "1404/13/01";
    assert s[5..7] == "13";
    assert "13"[..1] == "1";
  }

  /**
   * Every token of a year 2000-2999 fails on the year. The add form's default
   * date, `2024/10/27` rendered by `formatDateToPersian` (which can show
   * `2024/10/26` depending on the time zone), is such a token, so saving with
   * the default is refused.
   */
  lemma GregorianYearRejected(s: string)
    ensures MatchesPattern(s) && s[0] == '2' ==> !ValidatePersianDate(s)
  {
    if MatchesPattern(s) && s[0] == '2' {
      var y4 := s[0..4];
      var y3, y2, y1 := y4[..3], y4[..2], y4[..1];
      assert y3 == y4[..|y4| - 1] && y2 == y3[..|y3| - 1] && y1 == y2[..|y2| - 1];
      assert y1 == ['2'] && y1[..0] == [];
      assert Value(y1) == 2;
      assert Value(y2) >= 20;
      assert Value(y3) >= 200;
      assert Value(y4) >= 2000;
    }
  }
}
