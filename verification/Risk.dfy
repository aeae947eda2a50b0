/** Layered daily / weekly / monthly drawdown halts (mre/risk.py). */
module Risk {
  import opened Collections
  import opened Market

  datatype Reason = DailyDd | WeeklyDd | MonthlyDd

  datatype Limits = Limits(daily: real, weekly: real, monthly: real)

  /** Calendar keys of a timestamp: UTC day, ISO week, month. */
  datatype Calendar = Calendar(day: int -> int, week: int -> int, month: int -> int)

  predicate LimitsOk(limits: Limits) {
    0.0 < limits.daily <= limits.weekly <= limits.monthly < 1.0
  }

  /** One period's gate: its key, high-water mark and whether its reason is active. */
  datatype Gate = Gate(key: Option<int>, hwm: real, active: bool)

  predicate Breaches(hwm: real, equity: real, limit: real) {
    hwm > 0.0 && 1.0 - equity / hwm > limit
  }

  function GateUpdate(g: Gate, key: int, equity: real, limit: real): Gate {
    var reset := g.key != Some(key);
    var hwm := if reset then equity else Max(g.hwm, equity);
    Gate(Some(key), hwm, (!reset && g.active) || Breaches(hwm, equity, limit))
  }

  datatype RiskState = RiskState(daily: Gate, weekly: Gate, monthly: Gate, ever: set<Reason>)

  function NewRisk(initialEquity: real): RiskState {
    var g := Gate(None, initialEquity, false);
    RiskState(g, g, g, {})
  }

  function Halted(r: RiskState): set<Reason> {
    (if r.daily.active then {DailyDd} else {})
    + (if r.weekly.active then {WeeklyDd} else {})
    + (if r.monthly.active then {MonthlyDd} else {})
  }

  predicate IsHalted(r: RiskState) {
    r.daily.active || r.weekly.active || r.monthly.active
  }

  function RiskUpdate(r: RiskState, cal: Calendar, limits: Limits, time: int, equity: real): RiskState {
    var r' := r.(
      daily := GateUpdate(r.daily, cal.day(time), equity, limits.daily),
      weekly := GateUpdate(r.weekly, cal.week(time), equity, limits.weekly),
      monthly := GateUpdate(r.monthly, cal.month(time), equity, limits.monthly));
    r'.(ever := r.ever + Halted(r'))
  }

  function IsFlat(): Target -> bool {
    (t: Target) => t.qty == 0.0
  }

  function GateTargets(r: RiskState, targets: seq<Target>): seq<Target> {
    if IsHalted(r) then Filter(targets, IsFlat()) else targets
  }

  /** The gate lets everything through while no period is halted, and otherwise exactly the targets
      of zero. */
  lemma GatePasses(r: RiskState, targets: seq<Target>, t: Target)
    ensures Halted(r) == {} ==> GateTargets(r, targets) == targets
    ensures Halted(r) != {} ==> (t in GateTargets(r, targets) <==> t in targets && t.qty == 0.0)
  {
    assert IsHalted(r) <==> DailyDd in Halted(r) || WeeklyDd in Halted(r) || MonthlyDd in Halted(r);
    if t in targets && t.qty == 0.0 {
      FilterKeeps(targets, IsFlat(), t);
    }
    var kept := Filter(targets, IsFlat());
    assert t in kept ==> t in targets && IsFlat()(t);
  }

  class RiskManager {
    const calendar: Calendar
    const limits: Limits
    var dailyHwm: real
    var weeklyHwm: real
    var monthlyHwm: real
    var dailyKey: Option<int>
    var weeklyKey: Option<int>
    var monthlyKey: Option<int>
    var halted: set<Reason>
    var reasonsEver: set<Reason>

    function Value(): RiskState
      reads this
    {
      RiskState(Gate(dailyKey, dailyHwm, DailyDd in halted),
                Gate(weeklyKey, weeklyHwm, WeeklyDd in halted),
                Gate(monthlyKey, monthlyHwm, MonthlyDd in halted), reasonsEver)
    }

    constructor (calendar: Calendar, initialEquity: real, limits: Limits)
      requires LimitsOk(limits) && initialEquity > 0.0
      ensures Value() == NewRisk(initialEquity)
      ensures this.calendar == calendar && this.limits == limits
    {
      this.calendar, this.limits := calendar, limits;
      dailyHwm, weeklyHwm, monthlyHwm := initialEquity, initialEquity, initialEquity;
      dailyKey, weeklyKey, monthlyKey := None, None, None;
      halted, reasonsEver := {}, {};
    }

    method Update(time: int, equity: real)
      modifies this
      ensures Value() == RiskUpdate(old(Value()), calendar, limits, time, equity)
    {
      RollPeriods(time, equity);
      TripLimits(equity);
      HaltedIsTheSet();
      reasonsEver := reasonsEver + halted;
    }

    /** First half of `update`: a new period key restarts the high-water mark and lifts the halt. */
    method RollPeriods(time: int, equity: real)
      modifies `dailyHwm, `weeklyHwm, `monthlyHwm, `dailyKey, `weeklyKey, `monthlyKey, `halted
      ensures (dailyKey, weeklyKey, monthlyKey)
              == (Some(calendar.day(time)), Some(calendar.week(time)), Some(calendar.month(time)))
      ensures dailyHwm == if old(dailyKey) == dailyKey then Max(old(dailyHwm), equity) else equity
      ensures weeklyHwm == if old(weeklyKey) == weeklyKey then Max(old(weeklyHwm), equity) else equity
      ensures monthlyHwm == if old(monthlyKey) == monthlyKey then Max(old(monthlyHwm), equity) else equity
      ensures DailyDd in halted <==> DailyDd in old(halted) && old(dailyKey) == dailyKey
      ensures WeeklyDd in halted <==> WeeklyDd in old(halted) && old(weeklyKey) == weeklyKey
      ensures MonthlyDd in halted <==> MonthlyDd in old(halted) && old(monthlyKey) == monthlyKey
    {
      var day, week, month := calendar.day(time), calendar.week(time), calendar.month(time);
      if Some(day) != dailyKey {
        dailyKey, dailyHwm, halted := Some(day), equity, halted - {DailyDd};
      } else {
        dailyHwm := Max(dailyHwm, equity);
      }
      if Some(week) != weeklyKey {
        weeklyKey, weeklyHwm, halted := Some(week), equity, halted - {WeeklyDd};
      } else {
        weeklyHwm := Max(weeklyHwm, equity);
      }
      if Some(month) != monthlyKey {
        monthlyKey, monthlyHwm, halted := Some(month), equity, halted - {MonthlyDd};
      } else {
        monthlyHwm := Max(monthlyHwm, equity);
      }
    }

    /** Second half: a breached limit activates its reason, which then stays for the period. */
    method TripLimits(equity: real)
      modifies `halted
      ensures DailyDd in halted <==> DailyDd in old(halted) || Breaches(dailyHwm, equity, limits.daily)
      ensures WeeklyDd in halted <==> WeeklyDd in old(halted) || Breaches(weeklyHwm, equity, limits.weekly)
      ensures MonthlyDd in halted <==> MonthlyDd in old(halted) || Breaches(monthlyHwm, equity, limits.monthly)
    {
      if Breaches(dailyHwm, equity, limits.daily) {
        halted := halted + {DailyDd};
      }
      if Breaches(weeklyHwm, equity, limits.weekly) {
        halted := halted + {WeeklyDd};
      }
      if Breaches(monthlyHwm, equity, limits.monthly) {
        halted := halted + {MonthlyDd};
      }
    }

    lemma HaltedIsTheSet()
      ensures halted == Halted(Value())
      ensures halted == {} <==> !IsHalted(Value())
    {
      forall r: Reason ensures r in halted <==> r in Halted(Value()) {
        match r case DailyDd => case WeeklyDd => case MonthlyDd =>
      }
    }

    method GateTargetList(targets: seq<Target>) returns (allowed: seq<Target>)
      ensures allowed == GateTargets(Value(), targets)
    {
      HaltedIsTheSet();
      if halted == {} {
        return targets;
      }
      allowed := [];
      for i := 0 to |targets|
        invariant allowed == Filter(targets[..i], IsFlat())
      {
        FilterNext(targets, i, IsFlat());
        if targets[i].qty == 0.0 {
          allowed := allowed + [targets[i]];
        }
      }
      assert targets[..|targets|] == targets;
    }
  }
}
