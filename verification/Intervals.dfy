/** Bar intervals by name (data/backfill/common.py). */
module Intervals {
  import opened Collections
  import opened Market

  function NameOf(interval: Interval): string {
    match interval
    case Min1 => "1"
    case Min3 => "3"
    case Min5 => "5"
    case Min15 => "15"
    case Min30 => "30"
    case Hour1 => "60"
    case Hour2 => "120"
    case Hour4 => "240"
    case Hour6 => "360"
    case Hour12 => "720"
    case Day => "D"
    case Week => "W"
    case Month => "M"
  }

  /** `interval_to_timedelta`: the length of a named interval, and nothing for any other name. */
  function StepNamed(name: string): Option<int> {
    if name == "1" then Some(StepOf(Min1))
    else if name == "3" then Some(StepOf(Min3))
    else if name == "5" then Some(StepOf(Min5))
    else if name == "15" then Some(StepOf(Min15))
    else if name == "30" then Some(StepOf(Min30))
    else if name == "60" then Some(StepOf(Hour1))
    else if name == "120" then Some(StepOf(Hour2))
    else if name == "240" then Some(StepOf(Hour4))
    else if name == "360" then Some(StepOf(Hour6))
    else if name == "720" then Some(StepOf(Hour12))
    else if name == "D" then Some(StepOf(Day))
    else if name == "W" then Some(StepOf(Week))
    else if name == "M" then Some(StepOf(Month))
    else None
  }

  predicate IsNumeral(s: string) {
    s != [] && forall i :: 0 <= i < |s| ==> '0' <= s[i] <= '9'
  }

  /** The number a decimal numeral writes. */
  function ValueOf(s: string): int {
    if s == [] then 0 else 10 * ValueOf(s[..|s| - 1]) + (s[|s| - 1] as int - '0' as int)
  }

  /** An interval named by a number is that many minutes long; a day, a week and a month are 24
      hours, 7 and 30 days. Exactly the names of intervals have a length. */
  lemma NamesAreMinutes(interval: Interval, name: string)
    ensures StepNamed(NameOf(interval)) == Some(StepOf(interval))
    ensures IsNumeral(NameOf(interval)) ==> ValueOf(NameOf(interval)) == StepOf(interval)
    ensures !IsNumeral(NameOf(interval)) <==> interval in {Day, Week, Month}
    ensures StepOf(Day) == 24 * StepOf(Hour1) && StepOf(Week) == 7 * StepOf(Day) && StepOf(Month) == 30 * StepOf(Day)
    ensures StepNamed(name).Some? <==> exists i :: NameOf(i) == name
  {
    hide ValueOf;
    var s := NameOf(interval);
    if interval !in {Day, Week, Month} {
      DigitByDigit(s);
    }
    if StepNamed(name).Some? {
      NamedIsName(name);
    }
    forall i | NameOf(i) == name ensures StepNamed(name).Some? {
    }
  }

  lemma NamedIsName(name: string)
    requires StepNamed(name).Some?
    ensures exists i :: NameOf(i) == name
  {
    assert NameOf(Min1) == "1" && NameOf(Min3) == "3" && NameOf(Min5) == "5" && NameOf(Min15) == "15" && NameOf(Min30) == "30";
    assert NameOf(Hour1) == "60" && NameOf(Hour2) == "120" && NameOf(Hour4) == "240" && NameOf(Hour6) == "360" && NameOf(Hour12) == "720";
    assert NameOf(Day) == "D" && NameOf(Week) == "W" && NameOf(Month) == "M";
  }

  lemma DigitByDigit(s: string)
    requires 1 <= |s| <= 3
    ensures ValueOf(s) ==
      if |s| == 1 then s[0] as int - '0' as int
      else if |s| == 2 then 10 * (s[0] as int - '0' as int) + (s[1] as int - '0' as int)
      else 100 * (s[0] as int - '0' as int) + 10 * (s[1] as int - '0' as int) + (s[2] as int - '0' as int)
  {
    assert ValueOf([]) == 0;
    assert s[..1][..0] == [];
    assert ValueOf(s[..1]) == s[0] as int - '0' as int;
    if |s| == 1 {
      assert s[..1] == s;
    } else {
      assert s[..2][..1] == s[..1];
      assert ValueOf(s[..2]) == 10 * ValueOf(s[..1]) + (s[1] as int - '0' as int);
      if |s| == 2 {
        assert s[..2] == s;
      }
    }
  }
}
