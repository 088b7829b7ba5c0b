# Superhero resource state machine in Dafny

This project models the character classes of `classoop.py`: a plain
`Superhero`, an `ElementalHero` and a `TechHero`. Each class keeps resources
that its methods update in place and that guard its actions:

- a costume flag, set by `transform`, without which no power can be used;
- an energy level that starts at 100, pays 5/15/30 per power use
  (low/medium/high, 15 for any other intensity) and regains 25 per rest,
  capped at 100;
- for elemental heroes, an element charge that starts at 100, must be
  positive before a power use and pays 10/25/50 after a successful one,
  and that `charge_element` resets to 100;
- for tech heroes, a map from gadget names to remaining uses, which
  `use_gadget` decrements under guards and `repair_tech` resets to 5 per
  gadget, together with a tech level that is set to 100.

The project has three modules:

- `hero_spec.dfy`, module `HeroSpec`: the hero state as values (`BaseState`,
  the variant state `Kind`, `Hero`), each operation as a function from the
  old state to its result and new state, `Step` and `Run` for a sequence
  of operations, and the invariant `Inv`.
- `heroes.dfy`, module `Heroes`: the three classes, with fields and
  methods that update them. Dafny classes cannot inherit from classes, so
  an `ElementalHero` or `TechHero` holds its plain-hero part as the
  constant field `base`. Its inherited operations and the base half of its
  power use call that part, just as the Python override calls
  `super().use_power`. Every method is proved to leave the object exactly
  in the state `HeroSpec.Step` gives for its action. Every method that
  returns a boolean is proved to return the result of the matching
  `HeroSpec` function. So the lemmas below hold of the objects too.
  Four client methods show what a caller can conclude from the contracts.
- `hero_properties.dfy`, module `HeroProperties`: the guards of each
  operation, the invariants every sequence of operations keeps, and
  concrete runs.

Three facts about the code shape the invariants:

- The element charge is not clamped at 0. The code only refuses a power
  use when the charge is already `<= 0`, and then subtracts the charge cost
  without checking that the charge covers it. A charge of 20 followed by a
  successful "high" use leaves -30 (`ScenarioChargeGoesNegative`). Only the
  upper bound 100 is an invariant.
- `use_power` and `use_gadget` return a bool, as the Python methods do;
  the other operations return nothing and always take effect.
- Gadget counts are whatever the constructor is given. They stay
  non-negative if they start so (`RunKeepsGadgetsNonNegative`). A negative
  count is never decremented, and `repair_tech` sets it to 5 like every
  other count.

## Model

| member | source | states |
|---|---|---|
| HeroSpec.EnergyCost | classoop.py:28-29 | the energy cost is 5, 15 or 30; 5 exactly for "low", 30 exactly for "high", 15 for "medium" and every unknown intensity |
| HeroSpec.ChargeCost | classoop.py:75-76 | the charge cost is 10, 25 or 50; 10 exactly for "low", 50 exactly for "high", 25 for "medium" and every unknown intensity |
| HeroSpec.Fresh | classoop.py:10-11 | a new hero has the given powers, energy 100 and is not in costume |
| HeroSpec.Transformed | classoop.py:13-15 | transform sets the costume flag and keeps powers and energy |
| HeroSpec.UsePower | classoop.py:18-38 | a power use succeeds if and only if the hero is in costume, the index is below the number of powers and the energy covers the cost; on success the energy drops by exactly the cost; on failure nothing changes; powers and costume never change |
| HeroSpec.Rested | classoop.py:40-42 | rest leaves energy at most 100: the old energy plus 25 when that is at most 100, otherwise 100; it never lowers an energy within bounds; nothing else changes |
| HeroSpec.ElementalUsePower | classoop.py:67-78 | succeeds if and only if the charge is positive and the base power use succeeds; a non-positive charge leaves the base state untouched, otherwise the base state is the base use's; the charge drops by the charge cost exactly on success and is otherwise unchanged |
| HeroSpec.UseGadget | classoop.py:94-106 | succeeds if and only if the name is known and its count is positive; on success that one count drops by 1; every other count, and the key set, are unchanged; on failure nothing changes |
| HeroSpec.Repaired | classoop.py:110-112 | after repair the gadget names are the same and every count is 5 |
| HeroSpec.StatusLabel | classoop.py:47 | the status reads "in costume" exactly when the costume flag is set, otherwise "in civilian form" |
| HeroSpec.Step | classoop.py:13-112 | one operation keeps the hero's variant and its powers |
| HeroSpec.Run | classoop.py:7 | a sequence of operations keeps the hero's variant and its powers |
| HeroProperties.CostumeGate | classoop.py:20-22 | out of costume a power use fails and changes nothing, whatever the index, intensity or energy, also through the variant dispatch |
| HeroProperties.IndexGuard | classoop.py:24-26 | an index at or past the number of powers fails with no state change |
| HeroProperties.EnergyIsCharged | classoop.py:28-38 | in costume with a valid index: energy below the cost fails with no change; otherwise the use succeeds and subtracts exactly the cost |
| HeroProperties.TransformIdempotent | classoop.py:13-15 | transform sets the flag, is idempotent and changes nothing else |
| HeroProperties.ChargeCheckedFirst | classoop.py:69-71 | a charge `<= 0` fails with no change even for a costumed hero with enough energy |
| HeroProperties.ElementalFollowsBase | classoop.py:73-78 | with a positive charge the elemental result equals the base result, the base state is the base use's, and the charge drops exactly when the use succeeds |
| HeroProperties.ChargeElementResets | classoop.py:62-64 | charge_element sets the charge to 100 from any prior value, negative ones included |
| HeroProperties.RepairResetsAll | classoop.py:108-112 | repair keeps the gadget names, sets every count to 5 and the tech level to 100 |
| HeroProperties.GadgetNeverOverdrawn | classoop.py:100-104 | a gadget use never makes a count negative that was not already negative |
| HeroProperties.StepPreservesInv | classoop.py:31-32 | one operation keeps energy in [0, 100], the charge at most 100 and the tech level at 100 |
| HeroProperties.RunPreservesInv | classoop.py:28-42 | any sequence of operations keeps energy in [0, 100], the charge at most 100 and the tech level at 100 |
| HeroProperties.ReachableInv | classoop.py:10 | every hero built by a constructor and then driven by any sequence of operations has energy in [0, 100] and, if elemental, a charge at most 100 |
| HeroProperties.RunKeepsGadgetKeys | classoop.py:104-112 | no sequence of operations adds or removes a gadget name |
| HeroProperties.RunKeepsGadgetsNonNegative | classoop.py:100-104 | gadget counts that start non-negative stay non-negative under any sequence of operations |
| HeroProperties.RestsAccumulate | classoop.py:42 | n rests from energy e in [0, 100] leave exactly min(100, e + 25n) |
| HeroProperties.RestsSaturate | classoop.py:42 | four or more rests in a row leave energy at exactly 100 |
| HeroProperties.CivilianRunSpendsNothing | classoop.py:20-22 | without a transform a civilian stays a civilian and never loses energy or charge |
| HeroProperties.ScenarioHighThenBadIndex | classoop.py:18-38 | powers ["A","B"], costumed, energy 100: a "high" use leaves 70; a "low" use of index 5 then fails at 70 |
| HeroProperties.ScenarioChargeGoesNegative | classoop.py:73-76 | charge 20 and a successful "high" use leave charge -30; the next use then fails |
| HeroProperties.ScenarioDepletedGadget | classoop.py:100-112 | a gadget at 0 cannot be used; after repair it has 5 uses and one use leaves 4 |
| Heroes.Superhero.constructor | classoop.py:4-11 | keeps the identity fields and powers; energy 100, not in costume |
| Heroes.Superhero.Transform | classoop.py:13-15 | the new state is the transformed old state |
| Heroes.Superhero.UsePower | classoop.py:18-38 | result and new state are those of HeroSpec.UsePower on the old state; the intensity defaults to "medium"; only the energy may change |
| Heroes.Superhero.Rest | classoop.py:40-42 | the new state is the rested old state; only the energy may change |
| Heroes.Superhero.CostumeStatus | classoop.py:47 | the costume part of the status reads "in costume" exactly when the hero is in costume |
| Heroes.ElementalHero.constructor | classoop.py:57-60 | a fresh plain-hero part with the given identity and powers, the element, and charge 100 |
| Heroes.ElementalHero.Transform | classoop.py:13-15 | inherited transform: only the costume flag changes |
| Heroes.ElementalHero.Rest | classoop.py:40-42 | inherited rest: only the energy changes |
| Heroes.ElementalHero.ChargeElement | classoop.py:62-64 | the charge becomes 100; nothing else changes |
| Heroes.ElementalHero.UsePower | classoop.py:67-78 | result and new state are those of HeroSpec.ElementalUsePower; only energy and charge may change |
| Heroes.TechHero.constructor | classoop.py:89-92 | a fresh plain-hero part with the given identity and powers, the given gadgets, and tech level 100 |
| Heroes.TechHero.Transform | classoop.py:13-15 | inherited transform: only the costume flag changes |
| Heroes.TechHero.Rest | classoop.py:40-42 | inherited rest: only the energy changes |
| Heroes.TechHero.UsePower | classoop.py:18-38 | inherited power use: result and new state as for a plain hero; gadgets are untouched |
| Heroes.TechHero.UseGadget | classoop.py:94-106 | result and new inventory are those of HeroSpec.UseGadget; only the inventory may change |
| Heroes.TechHero.RepairTech | classoop.py:108-112 | the tech level becomes 100 and the inventory becomes the repaired old inventory; the loop over the gadget names keeps the key set and sets each visited count to 5 |

## Left out

- Console output: every `print` in the classes is left out; it carries no state.
- The demonstration driver at the end of `classoop.py` and the stray text after it. Small client methods in `heroes.dfy` play a similar part.
- The text that `get_status` and `__str__` build. Only the costume/civilian choice is modelled (`StatusLabel`); the rendering of the numbers, the elemental override of `get_status` and `str.capitalize` are not.
- The display fields (name, secret identity, weakness, base of operations, element) are kept as constant strings that no rule reads.
- Python aliasing: the powers list and the gadget dict passed to a constructor are shared with the caller in Python. Here they are values (`seq<string>`, `map<string, int>`), and the powers are a constant.
- Negative power indices: the index is a `nat`. The guard only rejects an index at or past the number of powers, so Python lets every negative index through. For an index from -len(powers) to -1, a costumed hero with enough energy pays the cost and the use succeeds, with the power read from the end of the list. For an index below -len(powers), and for any negative index when there are no powers, the cost is paid first and the read of the power then raises IndexError, so the call fails with the energy already spent.
- Intensities other than strings: the intensity is a `string`. Python would accept any hashable value and price it as "medium".
- Calling an operation on a variant that lacks it (for example `charge_element` on a plain hero) raises an error in Python. `Step` and `Run` simply require every action to be offered by the hero's variant (`Applicable`).
- Inheritance is modelled by composition: an elemental or tech hero calls `Transform`, `Rest` and the base power use on its `base` part. Because `base` is a public field, a client can call `base.UsePower` on an elemental hero and spend energy without touching the charge, as `Superhero.use_power(hero, ...)` does in Python. `Step` and `Run` do not offer this bypass as an action, so the lemmas about sequences of actions do not cover it; the `Inv` bounds still hold after it, since `Superhero.UsePower` keeps `Valid()` of the base part and leaves the charge alone.
