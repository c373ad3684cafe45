/** The staffing arithmetic of the eVisa support calculator: the productive
    hours one agent gives in a month, the hours of work each support tier
    (FLS, first line; SLS, second line) brings, the agents each tier needs,
    and the headcount of the two tiers together.

    Numbers are exact reals. The script's widgets fix the types: the shrinkage
    slider gives a whole percentage, the shift length, working days, volumes
    and handle times are whole numbers, and the concurrency factors are
    fractional. */
module Staffing {
  import opened Rounding

  /** The sidebar parameters shared by both tiers. */
  datatype Settings = Settings(shrinkagePercent: int, shiftHours: int, workDays: int)

  /** The inputs of one tier: monthly contact volume, average handle time in
      seconds, and how many contacts one agent works at once. */
  datatype Tier = Tier(volume: int, ahtSeconds: int, concurrency: real)

  /** Everything the page shows: capacity per agent, each tier's workload and
      agents, and the total headcount. */
  datatype Report = Report(
    capacity: real,
    flsWorkload: real, flsAgents: int,
    slsWorkload: real, slsAgents: int,
    total: int)

  /** The range the shrinkage slider allows: 0 to 50 percent. */
  predicate SliderRange(s: Settings) {
    0 <= s.shrinkagePercent <= 50
  }

  /** The page's initial values. */
  const DefaultSettings := Settings(10, 8, 21)
  const DefaultFls := Tier(1000, 400, 2.0)
  const DefaultSls := Tier(200, 1500, 1.5)

  /** The slider's percentage as a fraction. */
  function ShrinkageRate(percent: int): (r: real)
    ensures r * 100.0 == percent as real
    ensures 0 <= percent <= 50 ==> 0.0 <= r <= 0.5
  {
    percent as real / 100.0
  }

  /** Paid hours per agent per month: working days times shift length. */
  function PaidHours(s: Settings): real {
    s.workDays as real * s.shiftHours as real
  }

  /** Productive hours per agent per month: the paid hours less the share
      lost to shrinkage, without rounding. */
  function Capacity(s: Settings): real {
    PaidHours(s) * (1.0 - ShrinkageRate(s.shrinkagePercent))
  }

  /** The seconds a tier's volume takes to handle. */
  function HandledSeconds(t: Tier): real {
    t.volume as real * t.ahtSeconds as real
  }

  /** Hours of agent time a tier's monthly volume needs: the handled seconds
      turned into hours and shared out over the concurrent contacts. Scaling
      back by the concurrency and by 3600 gives the handled seconds. */
  function Workload(t: Tier): (w: real)
    requires t.concurrency != 0.0
    ensures w * t.concurrency * 3600.0 == HandledSeconds(t)
  {
    HandledSeconds(t) / 3600.0 / t.concurrency
  }

  /** Agents needed to cover `workload` hours when each gives `capacity`
      hours: none when capacity is not positive, otherwise the fewest agents
      whose hours together reach the workload. */
  function Headcount(workload: real, capacity: real): (n: int)
    ensures capacity <= 0.0 ==> n == 0
    ensures capacity > 0.0 ==>
      n as real * capacity >= workload && (n - 1) as real * capacity < workload
  {
    if capacity > 0.0 then
      CeilOfQuotient(workload, capacity);
      Ceil(workload / capacity)
    else
      0
  }

  /** One tier's agents: its workload sized against the shared capacity.
      None when capacity is not positive, whatever the tier brings;
      otherwise the fewest agents whose hours reach the workload. With
      positive concurrency the same bounds hold of the handled seconds: the
      agents' hours, worked at that concurrency, reach them, and one agent
      fewer falls short. */
  function Agents(t: Tier, capacity: real): (n: int)
    requires t.concurrency != 0.0
    ensures capacity <= 0.0 ==> n == 0
    ensures capacity > 0.0 ==>
      n as real * capacity >= Workload(t) && (n - 1) as real * capacity < Workload(t)
    ensures t.concurrency > 0.0 && capacity > 0.0 ==>
      n as real * capacity * (t.concurrency * 3600.0) >= HandledSeconds(t) &&
      (n - 1) as real * capacity * (t.concurrency * 3600.0) < HandledSeconds(t)
  {
    var w := Workload(t);
    var n := Headcount(w, capacity);
    var k := t.concurrency * 3600.0;
    assert w * k == HandledSeconds(t);
    ScaledAbove(HandledSeconds(t), k, w, n as real * capacity);
    ScaledBelow(HandledSeconds(t), k, w, (n - 1) as real * capacity);
    n
  }

  /** The whole page: the capacity of the sidebar settings, each tier's
      workload and agents against that capacity, and the total headcount as
      the two tiers' agents together. When capacity is positive each tier's
      agents are the fewest that reach its workload, and together they cover
      both workloads; when it is not, the page asks for nobody. */
  function Plan(s: Settings, fls: Tier, sls: Tier): (r: Report)
    requires fls.concurrency != 0.0 && sls.concurrency != 0.0
    ensures r.capacity == Capacity(s)
    ensures r.flsWorkload * fls.concurrency * 3600.0 == HandledSeconds(fls)
    ensures r.slsWorkload * sls.concurrency * 3600.0 == HandledSeconds(sls)
    ensures r.flsAgents == Agents(fls, r.capacity) && r.slsAgents == Agents(sls, r.capacity)
    ensures r.total == r.flsAgents + r.slsAgents
    ensures r.capacity > 0.0 ==>
      (r.flsAgents - 1) as real * r.capacity < r.flsWorkload <= r.flsAgents as real * r.capacity
    ensures r.capacity > 0.0 ==>
      (r.slsAgents - 1) as real * r.capacity < r.slsWorkload <= r.slsAgents as real * r.capacity
    ensures r.capacity > 0.0 ==>
      r.total as real * r.capacity >= r.flsWorkload + r.slsWorkload
    ensures r.capacity <= 0.0 ==> r.flsAgents == 0 && r.slsAgents == 0 && r.total == 0
  {
    var capacity := Capacity(s);
    var flsWorkload := Workload(fls);
    var slsWorkload := Workload(sls);
    var flsAgents := Agents(fls, capacity);
    var slsAgents := Agents(sls, capacity);
    assert capacity > 0.0 ==> flsAgents as real * capacity >= flsWorkload;
    assert capacity > 0.0 ==> slsAgents as real * capacity >= slsWorkload;
    SumScaled(flsAgents as real, slsAgents as real, capacity, flsWorkload, slsWorkload);
    Report(capacity, flsWorkload, flsAgents, slsWorkload, slsAgents, flsAgents + slsAgents)
  }

  // ---------------------------------------------------------------------
  // Capacity

  /** Within the slider's range, capacity keeps at least half of the
      non-negative paid hours and never more than all of them. */
  lemma CapacityBounds(s: Settings)
    requires SliderRange(s) && PaidHours(s) >= 0.0
    ensures PaidHours(s) / 2.0 <= Capacity(s) <= PaidHours(s)
  {
    var paid := PaidHours(s);
    var kept := 1.0 - ShrinkageRate(s.shrinkagePercent);
    assert Capacity(s) == paid * kept;
    ScaleBetweenHalfAndWhole(paid, kept);
  }

  /** Within the slider's range, capacity is positive exactly when the paid
      hours are, so the headcount guard fires exactly when working days
      times shift length is not positive. */
  lemma CapacityPositive(s: Settings)
    requires SliderRange(s)
    ensures Capacity(s) > 0.0 <==> PaidHours(s) > 0.0
  {
    var paid := PaidHours(s);
    var kept := 1.0 - ShrinkageRate(s.shrinkagePercent);
    if paid > 0.0 {
      ScaleLt(paid, 0.0, kept);
    } else {
      ScaleLe(kept, paid, 0.0);
    }
  }

  /** With the initial values (21 days, 8-hour shifts, 10% shrinkage) an
      agent gives 151.2 productive hours a month. */
  lemma DefaultCapacity()
    ensures Capacity(DefaultSettings) == 151.2
  {
  }

  /** Raising shrinkage never raises capacity, and strictly lowers it when
      the paid hours are positive. */
  lemma CapacityAntitone(s: Settings, higher: int)
    requires PaidHours(s) >= 0.0 && s.shrinkagePercent <= higher
    ensures Capacity(s.(shrinkagePercent := higher)) <= Capacity(s)
    ensures PaidHours(s) > 0.0 && s.shrinkagePercent < higher ==>
      Capacity(s.(shrinkagePercent := higher)) < Capacity(s)
  {
    var t := s.(shrinkagePercent := higher);
    var paid := PaidHours(s);
    var keptLow := 1.0 - ShrinkageRate(higher);
    var keptHigh := 1.0 - ShrinkageRate(s.shrinkagePercent);
    assert PaidHours(t) == PaidHours(s);
    assert Capacity(t) == paid * keptLow && Capacity(s) == paid * keptHigh;
    assert s.shrinkagePercent < higher ==> keptLow < keptHigh;
    ScaleLe(paid, keptLow, keptHigh);
    if paid > 0.0 && keptLow < keptHigh {
      ScaleLt(paid, keptLow, keptHigh);
    }
  }

  // ---------------------------------------------------------------------
  // Workload

  /** Workload is non-negative when volume and handle time are and the
      concurrency is positive, and zero exactly when the volume or the handle
      time is. */
  lemma WorkloadSign(t: Tier)
    requires t.concurrency > 0.0 && t.volume >= 0 && t.ahtSeconds >= 0
    ensures Workload(t) >= 0.0
    ensures Workload(t) == 0.0 <==> t.volume == 0 || t.ahtSeconds == 0
  {
    var v, a := t.volume as real, t.ahtSeconds as real;
    ScaleLe(v, 0.0, a);
    if v > 0.0 && a > 0.0 {
      ScaleLt(v, 0.0, a);
      DivLt(0.0, HandledSeconds(t), 3600.0);
      DivLt(0.0, HandledSeconds(t) / 3600.0, t.concurrency);
    } else {
      assert HandledSeconds(t) == 0.0;
    }
  }

  /** More volume or a longer handle time, at the same concurrency, never
      lowers the workload. */
  lemma WorkloadMonotone(t: Tier, u: Tier)
    requires t.concurrency > 0.0 && u.concurrency == t.concurrency
    requires 0 <= t.volume <= u.volume && 0 <= t.ahtSeconds <= u.ahtSeconds
    ensures Workload(t) <= Workload(u)
  {
    ProductLe(t.volume as real, u.volume as real, t.ahtSeconds as real, u.ahtSeconds as real);
    DivLe(HandledSeconds(t), HandledSeconds(u), 3600.0);
    DivLe(HandledSeconds(t) / 3600.0, HandledSeconds(u) / 3600.0, t.concurrency);
  }

  // ---------------------------------------------------------------------
  // Headcount

  /** The headcount is the least number of agents whose hours reach the
      workload: any count that reaches it is at least the headcount. */
  lemma HeadcountLeast(workload: real, capacity: real, m: int)
    requires capacity > 0.0 && m as real * capacity >= workload
    ensures Headcount(workload, capacity) <= m
  {
    DivLe(workload, m as real * capacity, capacity);
    CeilLeast(workload / capacity, m);
  }

  /** The count of agents whose hours reach the workload while one fewer
      falls short is the headcount. */
  lemma HeadcountExact(workload: real, capacity: real, n: int)
    requires capacity > 0.0
    requires (n - 1) as real * capacity < workload <= n as real * capacity
    ensures Headcount(workload, capacity) == n
  {
    DivLe(workload, n as real * capacity, capacity);
    DivLt((n - 1) as real * capacity, workload, capacity);
    CeilUnique(workload / capacity, n);
  }

  /** A non-negative workload never asks for a negative headcount, and with
      positive capacity asks for none exactly when it is zero. */
  lemma HeadcountSign(workload: real, capacity: real)
    requires workload >= 0.0
    ensures Headcount(workload, capacity) >= 0
    ensures capacity > 0.0 ==> (Headcount(workload, capacity) == 0 <==> workload == 0.0)
  {
    if capacity > 0.0 {
      DivLe(0.0, workload, capacity);
      if workload == 0.0 {
        CeilUnique(0.0, 0);
      } else {
        DivLt(0.0, workload, capacity);
      }
    }
  }

  /** More workload never means fewer agents. */
  lemma HeadcountMonotone(w1: real, w2: real, capacity: real)
    requires w1 <= w2
    ensures Headcount(w1, capacity) <= Headcount(w2, capacity)
  {
    if capacity > 0.0 {
      DivLe(w1, w2, capacity);
      CeilMonotone(w1 / capacity, w2 / capacity);
    }
  }

  // ---------------------------------------------------------------------
  // One tier

  /** With sensible inputs a tier never needs a negative number of agents,
      and needs none exactly when capacity is not positive or there is no
      volume or no handle time. */
  lemma AgentsZero(t: Tier, capacity: real)
    requires t.concurrency > 0.0 && t.volume >= 0 && t.ahtSeconds >= 0
    ensures Agents(t, capacity) >= 0
    ensures Agents(t, capacity) == 0 <==>
      capacity <= 0.0 || t.volume == 0 || t.ahtSeconds == 0
  {
    WorkloadSign(t);
    HeadcountSign(Workload(t), capacity);
  }

  /** For a fixed capacity and concurrency, more volume or a longer handle
      time never lowers a tier's agents. */
  lemma AgentsMonotone(t: Tier, u: Tier, capacity: real)
    requires t.concurrency > 0.0 && u.concurrency == t.concurrency
    requires 0 <= t.volume <= u.volume && 0 <= t.ahtSeconds <= u.ahtSeconds
    ensures Agents(t, capacity) <= Agents(u, capacity)
  {
    WorkloadMonotone(t, u);
    HeadcountMonotone(Workload(t), Workload(u), capacity);
  }

  // ---------------------------------------------------------------------
  // The whole page

  /** Sizing the tiers apart costs at most one agent more than sizing their
      combined workload as one pool, and never less. */
  lemma SplitCostsAtMostOneAgent(s: Settings, fls: Tier, sls: Tier)
    requires fls.concurrency != 0.0 && sls.concurrency != 0.0
    requires Capacity(s) > 0.0
    ensures var r := Plan(s, fls, sls);
      var pooled := Headcount(r.flsWorkload + r.slsWorkload, r.capacity);
      pooled <= r.total <= pooled + 1
  {
    var r := Plan(s, fls, sls);
    var c := r.capacity;
    var x := r.flsWorkload / c;
    var y := r.slsWorkload / c;
    assert (r.flsWorkload + r.slsWorkload) / c == x + y;
    assert r.flsAgents == Ceil(x) && r.slsAgents == Ceil(y);
    assert Headcount(r.flsWorkload + r.slsWorkload, c) == Ceil(x + y);
    CeilOfSum(x, y);
  }

  /** With the page's initial values each tier needs one agent and the total
      headcount is two. */
  lemma DefaultPlan()
    ensures var r := Plan(DefaultSettings, DefaultFls, DefaultSls);
      r.flsAgents == 1 && r.slsAgents == 1 && r.total == 2
  {
    DefaultCapacity();
    var c := Capacity(DefaultSettings);
    assert Workload(DefaultFls) == 400000.0 / 7200.0;
    assert Workload(DefaultSls) == 300000.0 / 5400.0;
    HeadcountExact(Workload(DefaultFls), c, 1);
    HeadcountExact(Workload(DefaultSls), c, 1);
  }

  /** A larger tier: 11691 contacts of 3731 seconds at concurrency 2 against
      the default capacity of 151.2 hours need 41 agents. */
  lemma LargeTierNeeds41()
    ensures Agents(Tier(11691, 3731, 2.0), Capacity(DefaultSettings)) == 41
  {
    DefaultCapacity();
    var t := Tier(11691, 3731, 2.0);
    assert Workload(t) == 43619121.0 / 7200.0;
    HeadcountExact(Workload(t), 151.2, 41);
  }
}
