/** Properties of the hero state machine, proved about the functions of
    HeroSpec: the guards of each operation, the invariants every sequence
    of operations keeps, and a few concrete runs. */
module HeroProperties {
  import opened HeroSpec

  // ---------------------------------------------------------------------
  // Single operations
  // ---------------------------------------------------------------------

  /** Out of costume a power use fails and changes nothing, whatever the
      index, intensity or energy; for an elemental hero as well. */
  lemma CostumeGate(h: Hero, index: nat, intensity: string)
    requires !h.base.inCostume
    ensures UsePower(h.base, index, intensity) == Outcome(false, h.base)
    ensures Step(h, Power(index, intensity)) == h
  {
  }

  /** An index past the last power fails and changes nothing. */
  lemma IndexGuard(b: BaseState, index: nat, intensity: string)
    requires index >= |b.powers|
    ensures UsePower(b, index, intensity) == Outcome(false, b)
  {
  }

  /** Too little energy for the cost fails and changes nothing; enough
      energy, in costume and with a valid index, succeeds and pays the
      cost exactly. */
  lemma EnergyIsCharged(b: BaseState, index: nat, intensity: string)
    requires b.inCostume && index < |b.powers|
    ensures b.energy < EnergyCost(intensity) ==> UsePower(b, index, intensity) == Outcome(false, b)
    ensures b.energy >= EnergyCost(intensity) ==>
      UsePower(b, index, intensity) == Outcome(true, b.(energy := b.energy - EnergyCost(intensity)))
  {
  }

  /** Transforming sets the costume flag, is idempotent and leaves energy,
      powers and the variant state alone. */
  lemma TransformIdempotent(h: Hero)
    ensures Step(h, Transform).base.inCostume
    ensures Step(Step(h, Transform), Transform) == Step(h, Transform)
    ensures Step(h, Transform) == h.(base := h.base.(inCostume := true))
  {
  }

  /** A non-positive charge fails before the costume is looked at: even
      a costumed hero with energy to spare changes nothing. */
  lemma ChargeCheckedFirst(b: BaseState, charge: int, index: nat, intensity: string)
    requires charge <= 0
    ensures ElementalUsePower(b, charge, index, intensity) == Outcome(false, Hero(b, Elemental(charge)))
  {
  }

  /** With a positive charge the elemental result is the base result; the
      charge is spent only on success, and never exceeds what it was. */
  lemma ElementalFollowsBase(b: BaseState, charge: int, index: nat, intensity: string)
    requires 0 < charge
    ensures ElementalUsePower(b, charge, index, intensity).ok == UsePower(b, index, intensity).ok
    ensures ElementalUsePower(b, charge, index, intensity).state.base == UsePower(b, index, intensity).state
    ensures ElementalUsePower(b, charge, index, intensity).state.kind.charge < charge
            <==> UsePower(b, index, intensity).ok
  {
  }

  /** charge_element restores FullCharge from any prior charge, negative ones included. */
  lemma ChargeElementResets(b: BaseState, charge: int)
    ensures Step(Hero(b, Elemental(charge)), ChargeElement) == Hero(b, Elemental(FullCharge))
  {
  }

  /** A repair keeps the gadget names and sets every count to RepairedUses
      and the tech level to FullTech, whatever the counts were. */
  lemma RepairResetsAll(b: BaseState, gadgets: map<string, int>, level: int)
    ensures Step(Hero(b, Tech(gadgets, level)), RepairTech).kind.gadgets.Keys == gadgets.Keys
    ensures forall g :: g in gadgets ==> Step(Hero(b, Tech(gadgets, level)), RepairTech).kind.gadgets[g] == RepairedUses
    ensures Step(Hero(b, Tech(gadgets, level)), RepairTech).kind.techLevel == FullTech
  {
  }

  /** A gadget use never takes a count below zero unless it already was. */
  lemma GadgetNeverOverdrawn(gadgets: map<string, int>, name: string)
    ensures forall g :: g in gadgets ==>
      UseGadget(gadgets, name).state[g] >= 0 || UseGadget(gadgets, name).state[g] == gadgets[g]
  {
  }

  // ---------------------------------------------------------------------
  // Sequences of operations
  // ---------------------------------------------------------------------

  lemma StepPreservesInv(h: Hero, a: Action)
    requires Inv(h) && Applicable(h.kind, a)
    ensures Inv(Step(h, a))
  {
  }

  lemma {:induction false} RunPreservesInv(h: Hero, acts: seq<Action>)
    requires Inv(h) && AllApplicable(h.kind, acts)
    ensures Inv(Run(h, acts))
    decreases |acts|
  {
    if acts != [] {
      var h' := Step(h, acts[0]);
      StepPreservesInv(h, acts[0]);
      RunTail(h, acts);
      RunPreservesInv(h', acts[1..]);
    }
  }

  /** Unfolds one action of a run. */
  lemma RunTail(h: Hero, acts: seq<Action>)
    requires acts != [] && AllApplicable(h.kind, acts)
    ensures AllApplicable(Step(h, acts[0]).kind, acts[1..])
    ensures Run(h, acts) == Run(Step(h, acts[0]), acts[1..])
  {
    var h' := Step(h, acts[0]);
    forall i | 0 <= i < |acts[1..]| ensures Applicable(h'.kind, acts[1..][i]) {
      assert Applicable(h.kind, acts[i + 1]);
    }
  }

  /** Every hero as constructed satisfies Inv, so every hero reachable by
      any sequence of operations keeps energy in [0, MaxEnergy] and an
      elemental charge at most FullCharge. */
  lemma {:induction false} ReachableInv(powers: seq<string>, kind: Kind, acts: seq<Action>)
    requires kind.Base? || kind == Elemental(FullCharge) || (kind.Tech? && kind.techLevel == FullTech)
    requires AllApplicable(kind, acts)
    ensures 0 <= Run(Fresh(powers, kind), acts).base.energy <= MaxEnergy
    ensures Run(Fresh(powers, kind), acts).kind.Elemental? ==>
      Run(Fresh(powers, kind), acts).kind.charge <= FullCharge
  {
    RunPreservesInv(Fresh(powers, kind), acts);
  }

  /** No sequence of operations adds or removes a gadget. */
  lemma {:induction false} RunKeepsGadgetKeys(h: Hero, acts: seq<Action>)
    requires h.kind.Tech? && AllApplicable(h.kind, acts)
    ensures Run(h, acts).kind.Tech?
    ensures Run(h, acts).kind.gadgets.Keys == h.kind.gadgets.Keys
    decreases |acts|
  {
    if acts != [] {
      RunTail(h, acts);
      RunKeepsGadgetKeys(Step(h, acts[0]), acts[1..]);
    }
  }

  /** Gadget counts that start non-negative stay non-negative. */
  lemma {:induction false} RunKeepsGadgetsNonNegative(h: Hero, acts: seq<Action>)
    requires GadgetsNonNegative(h) && AllApplicable(h.kind, acts)
    ensures GadgetsNonNegative(Run(h, acts))
    decreases |acts|
  {
    if acts != [] {
      var h' := Step(h, acts[0]);
      assert GadgetsNonNegative(h') by {
        if h.kind.Tech? && acts[0].Gadget? {
          GadgetNeverOverdrawn(h.kind.gadgets, acts[0].name);
        }
      }
      RunTail(h, acts);
      RunKeepsGadgetsNonNegative(h', acts[1..]);
    }
  }

  predicate AllRests(acts: seq<Action>)
  {
    forall i :: 0 <= i < |acts| ==> acts[i] == Rest
  }

  /** n rests from energy e in [0, MaxEnergy] give min(MaxEnergy, e + n * RestGain). */
  lemma {:induction false} RestsAccumulate(h: Hero, acts: seq<Action>)
    requires 0 <= h.base.energy <= MaxEnergy && AllRests(acts)
    ensures AllApplicable(h.kind, acts)
    ensures Run(h, acts).base.energy == Min(MaxEnergy, h.base.energy + |acts| * RestGain)
    decreases |acts|
  {
    if acts != [] {
      assert acts[0] == Rest;
      assert AllApplicable(h.kind, acts);
      RunTail(h, acts);
      var h' := Step(h, acts[0]);
      assert AllRests(acts[1..]) by {
        forall i | 0 <= i < |acts[1..]| ensures acts[1..][i] == Rest {
          assert acts[i + 1] == Rest;
        }
      }
      RestsAccumulate(h', acts[1..]);
    }
  }

  /** Four or more rests in a row saturate energy at MaxEnergy. */
  lemma RestsSaturate(h: Hero, acts: seq<Action>)
    requires 0 <= h.base.energy <= MaxEnergy && AllRests(acts) && |acts| >= 4
    ensures AllApplicable(h.kind, acts)
    ensures Run(h, acts).base.energy == MaxEnergy
  {
    RestsAccumulate(h, acts);
  }

  predicate NoTransform(acts: seq<Action>)
  {
    forall i :: 0 <= i < |acts| ==> acts[i] != Transform
  }

  /** Without a transform a civilian stays a civilian, so no power use
      succeeds: energy and elemental charge never go down. */
  lemma {:induction false} CivilianRunSpendsNothing(h: Hero, acts: seq<Action>)
    requires Inv(h) && !h.base.inCostume
    requires AllApplicable(h.kind, acts) && NoTransform(acts)
    ensures !Run(h, acts).base.inCostume
    ensures h.base.energy <= Run(h, acts).base.energy
    ensures h.kind.Elemental? ==> h.kind.charge <= Run(h, acts).kind.charge
    decreases |acts|
  {
    if acts != [] {
      var h' := Step(h, acts[0]);
      assert acts[0] != Transform;
      StepPreservesInv(h, acts[0]);
      RunTail(h, acts);
      assert NoTransform(acts[1..]) by {
        forall i | 0 <= i < |acts[1..]| ensures acts[1..][i] != Transform {
          assert acts[i + 1] != Transform;
        }
      }
      CivilianRunSpendsNothing(h', acts[1..]);
    }
  }

  // ---------------------------------------------------------------------
  // Concrete runs
  // ---------------------------------------------------------------------

  /** A costumed hero with powers ["A", "B"] and full energy: a high power
      use leaves 70, and a later low use of index 5 fails at 70. */
  lemma ScenarioHighThenBadIndex()
    ensures var b := BaseState(["A", "B"], 100, true);
            var first := UsePower(b, 0, "high");
            first == Outcome(true, b.(energy := 70))
            && UsePower(first.state, 5, "low") == Outcome(false, first.state)
  {
  }

  /** The elemental charge is not clamped: a charge of 20 and a high power
      use that succeeds leave a charge of -30, after which power use fails. */
  lemma ScenarioChargeGoesNegative()
    ensures var b := BaseState(["A"], 100, true);
            var used := ElementalUsePower(b, 20, 0, "high");
            used == Outcome(true, Hero(b.(energy := 70), Elemental(-30)))
            && !ElementalUsePower(used.state.base, -30, 0, "low").ok
  {
  }

  /** A gadget with zero uses cannot be used; after a repair it can. */
  lemma ScenarioDepletedGadget()
    ensures UseGadget(map["Hook" := 0], "Hook") == Outcome(false, map["Hook" := 0])
    ensures Repaired(map["Hook" := 0]) == map["Hook" := 5]
    ensures UseGadget(Repaired(map["Hook" := 0]), "Hook") == Outcome(true, map["Hook" := 4])
  {
    var repaired := Repaired(map["Hook" := 0]);
    assert repaired == map["Hook" := 5];
    assert repaired["Hook" := 4] == map["Hook" := 4];
  }
}
