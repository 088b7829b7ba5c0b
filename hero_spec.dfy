/** Value-level specification of the hero resource state machine.

    A hero is a base record (powers, energy, costume flag) plus the extra
    state of its variant: an elemental charge, or a gadget inventory and a
    tech level. Every operation of the heroes is given here as a function
    from the old state to its outcome; the classes in module Heroes are
    proved to update their fields exactly as these functions say, and the
    lemmas in module HeroProperties are proved about these functions.
 */
module HeroSpec {

  const MaxEnergy: int := 100      // starting energy and the ceiling of rest
  const RestGain: int := 25        // energy regained by one rest
  const FullCharge: int := 100     // starting elemental charge, and after charge_element
  const FullTech: int := 100       // starting tech level, and after repair_tech
  const RepairedUses: int := 5     // every gadget's uses after repair_tech

  /** Energy price of one power use: 5/15/30 for "low"/"medium"/"high";
      any other intensity name costs as much as "medium". */
  function EnergyCost(intensity: string): (c: int)
    ensures c == 5 || c == 15 || c == 30
    ensures c == 5 <==> intensity == "low"
    ensures c == 30 <==> intensity == "high"
  {
    if intensity == "low" then 5
    else if intensity == "medium" then 15
    else if intensity == "high" then 30
    else 15
  }

  /** Elemental charge price of one successful power use: 10/25/50 for
      "low"/"medium"/"high"; any other intensity name costs as "medium". */
  function ChargeCost(intensity: string): (c: int)
    ensures c == 10 || c == 25 || c == 50
    ensures c == 10 <==> intensity == "low"
    ensures c == 50 <==> intensity == "high"
  {
    if intensity == "low" then 10
    else if intensity == "medium" then 25
    else if intensity == "high" then 50
    else 25
  }

  function Min(a: int, b: int): int
  {
    if a <= b then a else b
  }

  /** The state every hero has. Names, secret identity, weakness and base
      of operations are display data that no rule reads; they live only in
      the classes. */
  datatype BaseState = BaseState(powers: seq<string>, energy: int, inCostume: bool)

  /** The variant-specific extra state. */
  datatype Kind =
    | Base
    | Elemental(charge: int)
    | Tech(gadgets: map<string, int>, techLevel: int)

  datatype Hero = Hero(base: BaseState, kind: Kind)

  /** The boolean an operation returns together with the state it leaves. */
  datatype Outcome<S> = Outcome(ok: bool, state: S)

  /** The state of a hero of any variant right after construction. */
  function Fresh(powers: seq<string>, kind: Kind): (h: Hero)
    ensures h.base.powers == powers && h.kind == kind
    ensures h.base.energy == MaxEnergy && !h.base.inCostume
  {
    Hero(BaseState(powers, MaxEnergy, false), kind)
  }

  /** Putting on the costume: sets the flag and touches nothing else. */
  function Transformed(b: BaseState): (r: BaseState)
    ensures r.inCostume
    ensures r.powers == b.powers && r.energy == b.energy
  {
    b.(inCostume := true)
  }

  /** Base power use. It fails, leaving the state as it was, out of costume,
      for an index past the last power, or when the energy does not cover
      the cost; otherwise the cost is paid from the energy. */
  function UsePower(b: BaseState, index: nat, intensity: string): (r: Outcome<BaseState>)
    ensures r.ok <==> b.inCostume && index < |b.powers| && EnergyCost(intensity) <= b.energy
    ensures r.state.powers == b.powers && r.state.inCostume == b.inCostume
    ensures r.state.energy == if r.ok then b.energy - EnergyCost(intensity) else b.energy
  {
    if !b.inCostume then Outcome(false, b)
    else if index >= |b.powers| then Outcome(false, b)
    else
      var cost := EnergyCost(intensity);
      if b.energy >= cost then Outcome(true, b.(energy := b.energy - cost))
      else Outcome(false, b)
  }

  /** Resting regains RestGain energy, but never above MaxEnergy. */
  function Rested(b: BaseState): (r: BaseState)
    ensures r.energy <= MaxEnergy
    ensures r.energy == MaxEnergy || r.energy == b.energy + RestGain
    ensures b.energy + RestGain <= MaxEnergy ==> r.energy == b.energy + RestGain
    ensures b.energy <= MaxEnergy ==> b.energy <= r.energy
    ensures r.powers == b.powers && r.inCostume == b.inCostume
  {
    b.(energy := Min(MaxEnergy, b.energy + RestGain))
  }

  /** The elemental override of power use: a charge that is not positive
      fails at once, before the costume is looked at; otherwise the result
      is the base power use, and only a successful one spends ChargeCost of
      the charge, with no check that the charge covers it. */
  function ElementalUsePower(b: BaseState, charge: int, index: nat, intensity: string)
    : (r: Outcome<Hero>)
    ensures r.ok <==> 0 < charge && UsePower(b, index, intensity).ok
    ensures r.state.base == if 0 < charge then UsePower(b, index, intensity).state else b
    ensures r.state.kind == Elemental(if r.ok then charge - ChargeCost(intensity) else charge)
  {
    if charge <= 0 then Outcome(false, Hero(b, Elemental(charge)))
    else
      var used := UsePower(b, index, intensity);
      if used.ok then Outcome(true, Hero(used.state, Elemental(charge - ChargeCost(intensity))))
      else Outcome(false, Hero(used.state, Elemental(charge)))
  }

  /** Using a gadget: fails for an unknown name or a count that is not
      positive; otherwise takes one use off exactly that gadget. */
  function UseGadget(gadgets: map<string, int>, name: string): (r: Outcome<map<string, int>>)
    ensures r.ok <==> name in gadgets && gadgets[name] > 0
    ensures r.state.Keys == gadgets.Keys
    ensures r.ok ==> r.state[name] == gadgets[name] - 1
    ensures forall g :: g in gadgets && (g != name || !r.ok) ==> r.state[g] == gadgets[g]
  {
    if name !in gadgets then Outcome(false, gadgets)
    else if gadgets[name] <= 0 then Outcome(false, gadgets)
    else Outcome(true, gadgets[name := gadgets[name] - 1])
  }

  /** The inventory after a repair: the same gadgets, each with RepairedUses uses. */
  function Repaired(gadgets: map<string, int>): (r: map<string, int>)
    ensures r.Keys == gadgets.Keys
    ensures forall g :: g in r ==> r[g] == RepairedUses
  {
    map g | g in gadgets :: RepairedUses
  }

  /** The costume/civilian choice of get_status. */
  function StatusLabel(inCostume: bool): (s: string)
    ensures s == "in costume" <==> inCostume
    ensures s == "in civilian form" <==> !inCostume
  {
    if inCostume then "in costume" else "in civilian form"
  }

  /** The operations a hero offers; a power use defaults to "medium". */
  datatype Action =
    | Transform
    | Power(index: nat, intensity: string := "medium")
    | Rest
    | ChargeElement
    | Gadget(name: string)
    | RepairTech

  /** Which variants offer an action: charge_element exists only on
      elemental heroes, use_gadget and repair_tech only on tech heroes. */
  predicate Applicable(k: Kind, a: Action)
  {
    match a
    case ChargeElement => k.Elemental?
    case Gadget(_) => k.Tech?
    case RepairTech => k.Tech?
    case _ => true
  }

  predicate SameVariant(k: Kind, k': Kind)
  {
    k.Base? == k'.Base? && k.Elemental? == k'.Elemental? && k.Tech? == k'.Tech?
  }

  /** One action on a hero, dispatched on its variant. */
  function Step(h: Hero, a: Action): (r: Hero)
    requires Applicable(h.kind, a)
    ensures SameVariant(h.kind, r.kind)
    ensures r.base.powers == h.base.powers
  {
    match a
    case Transform => h.(base := Transformed(h.base))
    case Power(i, intensity) =>
      if h.kind.Elemental? then ElementalUsePower(h.base, h.kind.charge, i, intensity).state
      else h.(base := UsePower(h.base, i, intensity).state)
    case Rest => h.(base := Rested(h.base))
    case ChargeElement => h.(kind := Elemental(FullCharge))
    case Gadget(name) => h.(kind := h.kind.(gadgets := UseGadget(h.kind.gadgets, name).state))
    case RepairTech => h.(kind := Tech(Repaired(h.kind.gadgets), FullTech))
  }

  predicate AllApplicable(k: Kind, acts: seq<Action>)
  {
    forall i :: 0 <= i < |acts| ==> Applicable(k, acts[i])
  }

  /** A sequence of actions, performed in order. */
  function Run(h: Hero, acts: seq<Action>): (r: Hero)
    requires AllApplicable(h.kind, acts)
    ensures SameVariant(h.kind, r.kind)
    ensures r.base.powers == h.base.powers
    decreases |acts|
  {
    if acts == [] then h
    else
      var h' := Step(h, acts[0]);
      assert AllApplicable(h'.kind, acts[1..]) by {
        forall i | 0 <= i < |acts[1..]| ensures Applicable(h'.kind, acts[1..][i]) {
          assert Applicable(h.kind, acts[i + 1]);
        }
      }
      Run(h', acts[1..])
  }

  /** What holds of every hero from construction on: energy within
      [0, MaxEnergy]; an elemental charge at most FullCharge (it may be
      negative); a tech level of FullTech. */
  predicate Inv(h: Hero)
  {
    && 0 <= h.base.energy <= MaxEnergy
    && (h.kind.Elemental? ==> h.kind.charge <= FullCharge)
    && (h.kind.Tech? ==> h.kind.techLevel == FullTech)
  }

  /** Every gadget count is non-negative (vacuous for other variants). */
  predicate GadgetsNonNegative(h: Hero)
  {
    h.kind.Tech? ==> forall g :: g in h.kind.gadgets ==> h.kind.gadgets[g] >= 0
  }
}
