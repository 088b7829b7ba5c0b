/** The hero classes, whose methods update their fields in place.

    An elemental or tech hero extends a plain hero. Dafny classes do not
    inherit from classes, so each of them holds its plain-hero part as the
    constant field `base` and performs the inherited operations (and the
    base half of its own power use) by calling that part, as the overriding
    method calls its superclass. Every method is proved to leave exactly the
    state HeroSpec.Step gives for its action, so the lemmas of HeroProperties
    apply to the objects.
 */
module Heroes {
  import opened HeroSpec

  class Superhero {
    const name: string
    const secretIdentity: string
    const powers: seq<string>
    const weakness: string
    const baseOfOperations: string
    var energyLevel: int
    var isInCostume: bool

    ghost function State(): BaseState
      reads this
    {
      BaseState(powers, energyLevel, isInCostume)
    }

    ghost predicate Valid()
      reads this
    {
      Inv(Hero(State(), Base))
    }

    constructor (name: string, secretIdentity: string, powers: seq<string>,
                 weakness: string, baseOfOperations: string)
      ensures this.name == name && this.secretIdentity == secretIdentity
      ensures this.weakness == weakness && this.baseOfOperations == baseOfOperations
      ensures Hero(State(), Base) == Fresh(powers, Base)
      ensures Valid()
    {
      this.name := name;
      this.secretIdentity := secretIdentity;
      this.powers := powers;
      this.weakness := weakness;
      this.baseOfOperations := baseOfOperations;
      energyLevel := MaxEnergy;
      isInCostume := false;
    }

    method Transform()
      modifies this`isInCostume
      ensures State() == Transformed(old(State()))
      ensures Hero(State(), Base) == Step(Hero(old(State()), Base), HeroSpec.Transform)
      ensures old(Valid()) ==> Valid()
    {
      isInCostume := true;
    }

    method UsePower(powerIndex: nat, intensity: string := "medium") returns (ok: bool)
      modifies this`energyLevel
      ensures Outcome(ok, State()) == HeroSpec.UsePower(old(State()), powerIndex, intensity)
      ensures Hero(State(), Base) == Step(Hero(old(State()), Base), Power(powerIndex, intensity))
      ensures old(Valid()) ==> Valid()
    {
      if !isInCostume {
        return false;
      }
      if powerIndex >= |powers| {
        return false;
      }
      var cost := EnergyCost(intensity);
      if energyLevel >= cost {
        energyLevel := energyLevel - cost;
        return true;
      } else {
        return false;
      }
    }

    method Rest()
      modifies this`energyLevel
      ensures State() == Rested(old(State()))
      ensures Hero(State(), Base) == Step(Hero(old(State()), Base), HeroSpec.Rest)
      ensures old(Valid()) ==> Valid()
    {
      energyLevel := Min(MaxEnergy, energyLevel + RestGain);
    }

    /** The costume/civilian part of get_status. */
    function CostumeStatus(): (s: string)
      reads this
      ensures s == "in costume" <==> isInCostume
    {
      StatusLabel(isInCostume)
    }
  }

  class ElementalHero {
    const base: Superhero
    const element: string
    var elementCharge: int

    ghost function Model(): Hero
      reads this, base
    {
      Hero(base.State(), Elemental(elementCharge))
    }

    ghost predicate Valid()
      reads this, base
    {
      Inv(Model())
    }

    constructor (name: string, secretIdentity: string, element: string, powers: seq<string>,
                 weakness: string, baseOfOperations: string)
      ensures fresh(base)
      ensures base.name == name && base.secretIdentity == secretIdentity && this.element == element
      ensures base.weakness == weakness && base.baseOfOperations == baseOfOperations
      ensures Model() == Fresh(powers, Elemental(FullCharge))
      ensures Valid()
    {
      base := new Superhero(name, secretIdentity, powers, weakness, baseOfOperations);
      this.element := element;
      elementCharge := FullCharge;
    }

    method Transform()
      modifies base`isInCostume
      ensures Model() == Step(old(Model()), HeroSpec.Transform)
      ensures old(Valid()) ==> Valid()
    {
      base.Transform();
    }

    method Rest()
      modifies base`energyLevel
      ensures Model() == Step(old(Model()), HeroSpec.Rest)
      ensures old(Valid()) ==> Valid()
    {
      base.Rest();
    }

    method ChargeElement()
      modifies this`elementCharge
      ensures elementCharge == FullCharge
      ensures Model() == Step(old(Model()), HeroSpec.ChargeElement)
      ensures old(Valid()) ==> Valid()
    {
      elementCharge := FullCharge;
    }

    method UsePower(powerIndex: nat, intensity: string := "medium") returns (ok: bool)
      modifies this`elementCharge, base`energyLevel
      ensures Outcome(ok, Model())
              == ElementalUsePower(old(base.State()), old(elementCharge), powerIndex, intensity)
      ensures Model() == Step(old(Model()), Power(powerIndex, intensity))
      ensures old(Valid()) ==> Valid()
    {
      if elementCharge <= 0 {
        return false;
      }
      ok := base.UsePower(powerIndex, intensity);
      if ok {
        elementCharge := elementCharge - ChargeCost(intensity);
      }
    }
  }

  class TechHero {
    const base: Superhero
    var gadgets: map<string, int>
    var techLevel: int

    ghost function Model(): Hero
      reads this, base
    {
      Hero(base.State(), Tech(gadgets, techLevel))
    }

    ghost predicate Valid()
      reads this, base
    {
      Inv(Model())
    }

    constructor (name: string, secretIdentity: string, powers: seq<string>,
                 weakness: string, baseOfOperations: string, gadgets: map<string, int>)
      ensures fresh(base)
      ensures base.name == name && base.secretIdentity == secretIdentity
      ensures base.weakness == weakness && base.baseOfOperations == baseOfOperations
      ensures Model() == Fresh(powers, Tech(gadgets, FullTech))
      ensures Valid()
    {
      base := new Superhero(name, secretIdentity, powers, weakness, baseOfOperations);
      this.gadgets := gadgets;
      techLevel := FullTech;
    }

    method Transform()
      modifies base`isInCostume
      ensures Model() == Step(old(Model()), HeroSpec.Transform)
      ensures old(Valid()) ==> Valid()
    {
      base.Transform();
    }

    method Rest()
      modifies base`energyLevel
      ensures Model() == Step(old(Model()), HeroSpec.Rest)
      ensures old(Valid()) ==> Valid()
    {
      base.Rest();
    }

    /** Tech heroes use powers exactly as plain heroes do. */
    method UsePower(powerIndex: nat, intensity: string := "medium") returns (ok: bool)
      modifies base`energyLevel
      ensures ok == HeroSpec.UsePower(old(base.State()), powerIndex, intensity).ok
      ensures Model() == Step(old(Model()), Power(powerIndex, intensity))
      ensures old(Valid()) ==> Valid()
    {
      ok := base.UsePower(powerIndex, intensity);
    }

    method UseGadget(gadgetName: string) returns (ok: bool)
      modifies this`gadgets
      ensures Outcome(ok, gadgets) == HeroSpec.UseGadget(old(gadgets), gadgetName)
      ensures Model() == Step(old(Model()), Gadget(gadgetName))
      ensures old(Valid()) ==> Valid()
    {
      if gadgetName !in gadgets {
        return false;
      }
      if gadgets[gadgetName] <= 0 {
        return false;
      }
      gadgets := gadgets[gadgetName := gadgets[gadgetName] - 1];
      return true;
    }

    /** Sets the tech level back to FullTech and, gadget by gadget, every
        count to RepairedUses. */
    method RepairTech()
      modifies this`gadgets, this`techLevel
      ensures techLevel == FullTech
      ensures gadgets == Repaired(old(gadgets))
      ensures Model() == Step(old(Model()), HeroSpec.RepairTech)
      ensures old(Valid()) ==> Valid()
    {
      techLevel := FullTech;
      var todo := gadgets.Keys;
      while todo != {}
        invariant techLevel == FullTech
        invariant gadgets.Keys == old(gadgets).Keys
        invariant todo <= gadgets.Keys
        invariant forall g :: g in gadgets && g !in todo ==> gadgets[g] == RepairedUses
        decreases todo
      {
        var g :| g in todo;
        gadgets := gadgets[g := RepairedUses];
        todo := todo - {g};
      }
    }
  }

  // Clients of the classes: what the contracts let a caller conclude.

  method PlainHeroDemonstration()
  {
    var captain := new Superhero("Captain Strong", "John Smith", ["A", "B"], "Magic", "Sky Fortress");
    var ok := captain.UsePower(0, "high");
    assert !ok && captain.energyLevel == 100;
    captain.Transform();
    ok := captain.UsePower(0, "high");
    assert ok && captain.energyLevel == 70;
    ok := captain.UsePower(5, "low");
    assert !ok && captain.energyLevel == 70;
    captain.Rest();
    captain.Rest();
    assert captain.energyLevel == 100;
  }

  method ElementalHeroDemonstration()
  {
    var pyro := new ElementalHero("Pyro Knight", "Alex Chen", "fire", ["Fire Blast"], "water", "Volcano Lair");
    pyro.Transform();
    var ok := pyro.UsePower(0, "high");
    assert ok && pyro.base.energyLevel == 70 && pyro.elementCharge == 50;
    ok := pyro.UsePower(0);
    assert ok && pyro.base.energyLevel == 55 && pyro.elementCharge == 25;
    ok := pyro.UsePower(0, "high");
    assert ok && pyro.base.energyLevel == 25 && pyro.elementCharge == -25;
    ok := pyro.UsePower(0, "low");
    assert !ok && pyro.base.energyLevel == 25 && pyro.elementCharge == -25;
    pyro.ChargeElement();
    assert pyro.elementCharge == 100;
  }

  method TechHeroDemonstration()
  {
    var gadgeteer := new TechHero("Gadget Master", "Maya Rodriguez", ["Hacking"], "EMP pulses",
                                  "Underground Bunker", map["Hook" := 1, "Drone" := 4]);
    var ok := gadgeteer.UseGadget("Hook");
    assert ok && gadgeteer.gadgets == map["Hook" := 0, "Drone" := 4];
    ok := gadgeteer.UseGadget("Hook");
    assert !ok;
    ok := gadgeteer.UseGadget("Laser");
    assert !ok;
    gadgeteer.RepairTech();
    assert gadgeteer.gadgets["Hook"] == 5 && gadgeteer.gadgets["Drone"] == 5;
  }

  /** Calling the plain-hero power use on the `base` part of an elemental
      hero spends energy and leaves the charge alone; the invariant holds. */
  method BaseBypassDemonstration()
  {
    var pyro := new ElementalHero("Pyro Knight", "Alex Chen", "fire", ["Fire Blast"], "water", "Volcano Lair");
    pyro.Transform();
    var ok := pyro.base.UsePower(0, "high");
    assert ok && pyro.base.energyLevel == 70 && pyro.elementCharge == 100;
    assert pyro.Valid();
  }
}
