/**
 * The reference definition of "power generated": the sum of `powerOut` over
 * the turbines that are present among a plant's turbine slots. The calculator's
 * step-by-step accumulation is proved equal to it.
 */
module TurbineSum {
  import opened Wrappers
  import opened SteamDomain

  /**
   * The turbine slots of a plant, in the order the calculator visits them:
   * condensing, high to low, high to medium and, only when the medium header
   * exists, medium to low.
   */
  function TurbineSlots(high: HighPressureHeaderCalculationsDomain,
                        medium: Option<MediumPressureHeaderCalculationsDomain>): (slots: seq<Option<Turbine>>)
    ensures |slots| == if medium.Some? then 4 else 3
    ensures medium.Some? ==> slots[3] == medium.value.mediumToLowPressureTurbine
  {
    [high.condensingTurbine, high.highToLowPressureTurbine, high.highToMediumPressureTurbine]
    + (if medium.Some? then [medium.value.mediumToLowPressureTurbine] else [])
  }

  /** The turbines that are present in `slots`, in slot order. */
  function PresentTurbines(slots: seq<Option<Turbine>>): (ts: seq<Turbine>)
    ensures |ts| <= |slots|
    ensures forall t :: t in ts <==> Some(t) in slots
  {
    if slots == [] then []
    else (if slots[0].Some? then [slots[0].value] else []) + PresentTurbines(slots[1..])
  }

  /**
   * Each turbine is kept exactly as many times as it fills a slot: identical
   * turbines in different slots are all counted.
   */
  lemma {:induction false} PresentTurbinesCount(slots: seq<Option<Turbine>>)
    ensures forall t :: multiset(PresentTurbines(slots))[t] == multiset(slots)[Some(t)]
  {
    if slots != [] {
      assert slots == [slots[0]] + slots[1..];
      PresentTurbinesCount(slots[1..]);
    }
  }

  /** The sum of the turbines' power outputs. */
  function TotalPowerOut(ts: seq<Turbine>): real
  {
    if ts == [] then 0.0 else ts[0].powerOut + TotalPowerOut(ts[1..])
  }

  /** The power contributed by a list of slots: absent slots contribute nothing. */
  function SlotPower(slots: seq<Option<Turbine>>): real
  {
    TotalPowerOut(PresentTurbines(slots))
  }

  lemma {:induction false} PresentTurbinesAppend(a: seq<Option<Turbine>>, b: seq<Option<Turbine>>)
    ensures PresentTurbines(a + b) == PresentTurbines(a) + PresentTurbines(b)
  {
    if a == [] {
      assert a + b == b;
    } else {
      assert (a + b)[1..] == a[1..] + b;
      PresentTurbinesAppend(a[1..], b);
    }
  }

  lemma {:induction false} TotalPowerOutAppend(a: seq<Turbine>, b: seq<Turbine>)
    ensures TotalPowerOut(a + b) == TotalPowerOut(a) + TotalPowerOut(b)
  {
    if a == [] {
      assert a + b == b;
    } else {
      assert (a + b)[1..] == a[1..] + b;
      TotalPowerOutAppend(a[1..], b);
    }
  }

  /** The power of two consecutive runs of slots is the sum of their powers. */
  lemma SlotPowerAppend(a: seq<Option<Turbine>>, b: seq<Option<Turbine>>)
    ensures SlotPower(a + b) == SlotPower(a) + SlotPower(b)
  {
    PresentTurbinesAppend(a, b);
    TotalPowerOutAppend(PresentTurbines(a), PresentTurbines(b));
  }

  /** A single slot contributes its turbine's output when present and nothing when absent. */
  lemma SlotPowerSingle(slot: Option<Turbine>)
    ensures SlotPower([slot]) == if slot.Some? then slot.value.powerOut else 0.0
  {
    assert [slot][1..] == [];
    if slot.Some? {
      assert PresentTurbines([slot]) == [slot.value];
      assert [slot.value][1..] == [];
      assert TotalPowerOut([slot.value]) == slot.value.powerOut + TotalPowerOut([]);
    } else {
      assert PresentTurbines([slot]) == [];
    }
  }

  /**
   * The order in which the slots are summed does not matter: any rearrangement
   * of the slots gives the same power.
   */
  lemma {:induction false} SlotPowerPermutation(a: seq<Option<Turbine>>, b: seq<Option<Turbine>>)
    requires multiset(a) == multiset(b)
    ensures SlotPower(a) == SlotPower(b)
    decreases |a|
  {
    if a == [] {
      assert |b| == |multiset(b)| == 0;
    } else {
      var x := a[0];
      assert x in multiset(b);
      var i :| 0 <= i < |b| && b[i] == x;
      assert b == b[..i] + [x] + b[i + 1..];
      var rest := b[..i] + b[i + 1..];
      assert a == [x] + a[1..];
      assert multiset(a[1..]) == multiset(rest) by {
        assert multiset(a) == multiset{x} + multiset(a[1..]);
        assert multiset(b) == multiset(b[..i]) + multiset{x} + multiset(b[i + 1..]);
        assert multiset(rest) == multiset(b[..i]) + multiset(b[i + 1..]);
        assert multiset(a[1..]) == multiset(a) - multiset{x};
        assert multiset(rest) == multiset(b) - multiset{x};
      }
      SlotPowerPermutation(a[1..], rest);
      SlotPowerAppend([x], a[1..]);
      SlotPowerAppend(b[..i] + [x], b[i + 1..]);
      SlotPowerAppend(b[..i], [x]);
      SlotPowerAppend(b[..i], b[i + 1..]);
    }
  }

  /**
   * `b` is `a` with some absent slots replaced by present turbines of zero
   * output.
   */
  ghost predicate ZeroFilled(a: seq<Option<Turbine>>, b: seq<Option<Turbine>>)
  {
    && |a| == |b|
    && forall i :: 0 <= i < |a| ==> a[i] == b[i] || (a[i].None? && b[i] == Some(Turbine(0.0)))
  }

  /** Filling absent slots with zero-output turbines does not change the power. */
  lemma {:induction false} SlotPowerZeroFilled(a: seq<Option<Turbine>>, b: seq<Option<Turbine>>)
    requires ZeroFilled(a, b)
    ensures SlotPower(a) == SlotPower(b)
    decreases |a|
  {
    if a != [] {
      assert a == [a[0]] + a[1..];
      assert b == [b[0]] + b[1..];
      assert ZeroFilled(a[1..], b[1..]) by {
        forall i | 0 <= i < |a[1..]|
          ensures a[1..][i] == b[1..][i] || (a[1..][i].None? && b[1..][i] == Some(Turbine(0.0)))
        {
          assert a[1..][i] == a[i + 1] && b[1..][i] == b[i + 1];
        }
      }
      SlotPowerZeroFilled(a[1..], b[1..]);
      SlotPowerAppend([a[0]], a[1..]);
      SlotPowerAppend([b[0]], b[1..]);
      SlotPowerSingle(a[0]);
      SlotPowerSingle(b[0]);
    }
  }

  /** With non-negative turbine outputs the total is non-negative and bounds each output. */
  lemma {:induction false} TotalPowerOutBounds(ts: seq<Turbine>)
    requires forall t :: t in ts ==> t.powerOut >= 0.0
    ensures TotalPowerOut(ts) >= 0.0
    ensures forall t :: t in ts ==> t.powerOut <= TotalPowerOut(ts)
  {
    if ts != [] {
      TotalPowerOutBounds(ts[1..]);
      assert forall t :: t in ts ==> t == ts[0] || t in ts[1..];
    }
  }
}
