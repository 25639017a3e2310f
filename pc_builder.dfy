/**
 * The PC builder screen's state: two builds (A and B), the selector saying
 * which one is being edited, the slot edits, and the deploy-button condition.
 */
module PCBuilder {
  import opened Wrappers
  import opened Types
  import opened Logic
  import Text

  /** `type.toLowerCase() + (type === 'Case' ? 's' : '')`: the build property a category is stored under. */
  function SlotKey(typeName: string): (key: string)
    ensures |key| == |typeName| + (if typeName == "Case" then 1 else 0)
    ensures typeName == "Case" ==> key[|typeName|] == 's'
    ensures forall i :: 0 <= i < |typeName| ==> key[i] == Text.LowerChar(typeName[i])
    ensures forall i :: 0 <= i < |key| ==> !Text.IsAsciiUpper(key[i])
  {
    Text.Lower(typeName) + (if typeName == "Case" then "s" else "")
  }

  /** The eight optional properties of a build, by name. */
  const SlotFields: seq<string> := ["cpu", "motherboard", "cooling", "ram", "gpu", "storage", "psu", "cases"]

  /** The slot a build property name denotes, if it denotes one. */
  function FieldSlot(field: string): (t: Option<PartType>)
    ensures t.Some? <==> field in SlotFields
  {
    if field == "cpu" then Some(CPU)
    else if field == "motherboard" then Some(Motherboard)
    else if field == "cooling" then Some(Cooling)
    else if field == "ram" then Some(RAM)
    else if field == "gpu" then Some(GPU)
    else if field == "storage" then Some(Storage)
    else if field == "psu" then Some(PSU)
    else if field == "cases" then Some(Case)
    else None
  }

  /** The key derived from a category's name is the property holding that very category. */
  lemma SlotKeyNamesItsSlot(t: PartType)
    ensures FieldSlot(SlotKey(TypeName(t))) == Some(t)
  {
    if t == Motherboard || t == Cooling || t == Storage {
      LongNameKey(t);
    } else {
      ShortNameKey(t);
    }
  }

  /** `SlotKeyNamesItsSlot` for the categories with a long name. */
  lemma LongNameKey(t: PartType)
    requires t == Motherboard || t == Cooling || t == Storage
    ensures FieldSlot(SlotKey(TypeName(t))) == Some(t)
  {
    var key := SlotKey(TypeName(t));
    if t == Motherboard {
      assert key == "motherboard" by {
        assert key[0] == 'm' && key[1] == 'o' && key[2] == 't' && key[3] == 'h';
        assert key[4] == 'e' && key[5] == 'r' && key[6] == 'b' && key[7] == 'o';
        assert key[8] == 'a' && key[9] == 'r' && key[10] == 'd';
      }
    } else if t == Cooling {
      assert key == "cooling" by {
        assert key[0] == 'c' && key[1] == 'o' && key[2] == 'o' && key[3] == 'l';
        assert key[4] == 'i' && key[5] == 'n' && key[6] == 'g';
      }
    } else {
      assert key == "storage" by {
        assert key[0] == 's' && key[1] == 't' && key[2] == 'o' && key[3] == 'r';
        assert key[4] == 'a' && key[5] == 'g' && key[6] == 'e';
      }
    }
  }

  /** `SlotKeyNamesItsSlot` for the categories with a short name; Case gains its `s`. */
  lemma ShortNameKey(t: PartType)
    requires t != Motherboard && t != Cooling && t != Storage
    ensures FieldSlot(SlotKey(TypeName(t))) == Some(t)
  {
    var key := SlotKey(TypeName(t));
    match t
    case CPU =>
      assert key == "cpu" by { assert key[0] == 'c' && key[1] == 'p' && key[2] == 'u'; }
    case RAM =>
      assert key == "ram" by { assert key[0] == 'r' && key[1] == 'a' && key[2] == 'm'; }
    case GPU =>
      assert key == "gpu" by { assert key[0] == 'g' && key[1] == 'p' && key[2] == 'u'; }
    case PSU =>
      assert key == "psu" by { assert key[0] == 'p' && key[1] == 's' && key[2] == 'u'; }
    case Case =>
      assert key == "cases" by {
        assert key[0] == 'c' && key[1] == 'a' && key[2] == 's' && key[3] == 'e';
        assert key[4] == 's';
      }
  }

  /** Distinct property names denote distinct slots. */
  lemma FieldSlotInjective(f: string, g: string)
    requires FieldSlot(f).Some? && FieldSlot(f) == FieldSlot(g)
    ensures f == g
  {
  }

  /** Key derivation is a bijection from the eight categories onto the eight slot properties. */
  lemma SlotKeyBijection()
    ensures forall t :: SlotKey(TypeName(t)) in SlotFields
    ensures forall t, u :: SlotKey(TypeName(t)) == SlotKey(TypeName(u)) ==> t == u
    ensures forall f :: f in SlotFields ==> exists t :: SlotKey(TypeName(t)) == f
  {
    forall t ensures SlotKey(TypeName(t)) in SlotFields {
      SlotKeyNamesItsSlot(t);
    }
    forall t, u | SlotKey(TypeName(t)) == SlotKey(TypeName(u)) ensures t == u {
      SlotKeyNamesItsSlot(t);
      SlotKeyNamesItsSlot(u);
    }
    forall f | f in SlotFields ensures exists t :: SlotKey(TypeName(t)) == f {
      var t := FieldSlot(f).value;
      SlotKeyNamesItsSlot(t);
      FieldSlotInjective(f, SlotKey(TypeName(t)));
    }
  }

  /** `addPart`: `{ ...activeBuild, [key]: part }`. */
  function AddPartTo(b: Build, p: Part): (r: Build)
    ensures Slot(r, p.partType) == Some(p)
    ensures forall u :: u != p.partType ==> Slot(r, u) == Slot(b, u)
    ensures r.id == b.id && r.name == b.name
  {
    var key := SlotKey(TypeName(p.partType));
    SlotKeyNamesItsSlot(p.partType);
    WithSlot(b, FieldSlot(key).value, Some(p))
  }

  /** `removePart`: a copy of the build with the category's property deleted. */
  function RemovePartFrom(b: Build, t: PartType): (r: Build)
    ensures Slot(r, t) == None
    ensures forall u :: u != t ==> Slot(r, u) == Slot(b, u)
    ensures r.id == b.id && r.name == b.name
  {
    var key := SlotKey(TypeName(t));
    SlotKeyNamesItsSlot(t);
    WithSlot(b, FieldSlot(key).value, None)
  }

  /** Adding the same part twice gives the same build as adding it once. */
  lemma AddPartIdempotent(b: Build, p: Part)
    ensures AddPartTo(AddPartTo(b, p), p) == AddPartTo(b, p)
  {
    SlotsDetermineBuild(AddPartTo(AddPartTo(b, p), p), AddPartTo(b, p));
  }

  /** Adding a part overwrites whatever occupied its slot: the last part added wins. */
  lemma AddPartOverwrites(b: Build, p: Part, q: Part)
    requires p.partType == q.partType
    ensures AddPartTo(AddPartTo(b, p), q) == AddPartTo(b, q)
  {
    SlotsDetermineBuild(AddPartTo(AddPartTo(b, p), q), AddPartTo(b, q));
  }

  /** Removing from an empty slot leaves the build unchanged. */
  lemma RemoveFromEmptySlot(b: Build, t: PartType)
    requires Slot(b, t) == None
    ensures RemovePartFrom(b, t) == b
  {
    SlotsDetermineBuild(RemovePartFrom(b, t), b);
  }

  /** Removing a part just added into an empty slot restores the build. */
  lemma RemoveUndoesAdd(b: Build, p: Part)
    requires Slot(b, p.partType) == None
    ensures RemovePartFrom(AddPartTo(b, p), p.partType) == b
  {
    SlotsDetermineBuild(RemovePartFrom(AddPartTo(b, p), p.partType), b);
  }

  /** Adding a part changes the total price by its price minus that of the part it replaces. */
  lemma AddPartPrice(b: Build, p: Part)
    ensures TotalPrice(AddPartTo(b, p)) == TotalPrice(b) - PriceOf(Slot(b, p.partType)) + p.price
  {
    SlotKeyNamesItsSlot(p.partType);
    WithSlotTotals(b, p.partType, Some(p));
  }

  /** Removing a part lowers the total price by exactly its price. */
  lemma RemovePartPrice(b: Build, t: PartType)
    ensures TotalPrice(RemovePartFrom(b, t)) == TotalPrice(b) - PriceOf(Slot(b, t))
  {
    SlotKeyNamesItsSlot(t);
    WithSlotTotals(b, t, None);
  }

  /**
   * The deploy button's condition, `!(comp.compatible) || price === 0`
   * negated: it is enabled only for a compatible build that holds a part.
   */
  function CanDeploy(b: Build): (enabled: bool)
    ensures enabled ==> Compatibility(b).issues == []
    ensures enabled ==> exists t :: Slot(b, t).Some?
  {
    PricedBuildIsOccupied(b);
    Compatibility(b).compatible && TotalPrice(b) != 0
  }

  /** A compatible build holding at least one part with a positive price, all prices non-negative, can be deployed. */
  lemma PricedCompatibleBuildDeploys(b: Build, t: PartType)
    requires Compatibility(b).compatible
    requires forall u :: PriceOf(Slot(b, u)) >= 0
    requires PriceOf(Slot(b, t)) > 0
    ensures CanDeploy(b)
  {
    TotalPriceIsSlotSum(b);
    assert PriceOf(Slot(b, CPU)) >= 0 && PriceOf(Slot(b, Motherboard)) >= 0;
    assert PriceOf(Slot(b, Cooling)) >= 0 && PriceOf(Slot(b, RAM)) >= 0;
    assert PriceOf(Slot(b, GPU)) >= 0 && PriceOf(Slot(b, Storage)) >= 0;
    assert PriceOf(Slot(b, PSU)) >= 0 && PriceOf(Slot(b, Case)) >= 0;
  }

  /** A new build costs 0, is compatible, and cannot be deployed. */
  lemma NewBuildState(id: string, name: string)
    ensures TotalPrice(EmptyBuild(id, name)) == 0
    ensures TotalTdp(EmptyBuild(id, name)) == 0
    ensures Compatibility(EmptyBuild(id, name)) == Report(true, [])
    ensures !CanDeploy(EmptyBuild(id, name))
  {
    EmptySlotsTotalZero(EmptyBuild(id, name));
  }

  /** Which of the two builds the screen edits. */
  datatype BuildId = BuildA | BuildB

  class Builder {
    var buildA: Build
    var buildB: Build
    var activeBuildId: BuildId

    /** Both builds start empty, build A selected. */
    constructor ()
      ensures buildA == EmptyBuild("build-a", "Elite Performance A")
      ensures buildB == EmptyBuild("build-b", "Modular Workstation B")
      ensures activeBuildId == BuildA
      ensures !DeployEnabled()
    {
      buildA := EmptyBuild("build-a", "Elite Performance A");
      buildB := EmptyBuild("build-b", "Modular Workstation B");
      activeBuildId := BuildA;
      NewBuildState("build-a", "Elite Performance A");
    }

    /** The build being edited. */
    function ActiveBuild(): (b: Build)
      reads this
      ensures activeBuildId == BuildA ==> b == buildA
      ensures activeBuildId == BuildB ==> b == buildB
    {
      if activeBuildId == BuildA then buildA else buildB
    }

    /** The build not being edited. */
    function InactiveBuild(): (b: Build)
      reads this
      ensures multiset{ActiveBuild(), b} == multiset{buildA, buildB}
    {
      if activeBuildId == BuildA then buildB else buildA
    }

    /** Whether the deploy button is enabled for the build being edited. */
    function DeployEnabled(): (enabled: bool)
      reads this
      ensures enabled <==> Compatibility(ActiveBuild()).compatible && TotalPrice(ActiveBuild()) != 0
      ensures enabled ==> exists t :: Slot(ActiveBuild(), t).Some?
    {
      CanDeploy(ActiveBuild())
    }

    /** The A/B tab: switches the edited build and changes neither build. */
    method SelectBuild(id: BuildId)
      modifies this
      ensures activeBuildId == id
      ensures buildA == old(buildA) && buildB == old(buildB)
    {
      activeBuildId := id;
    }

    /** `addPart`: the part goes into its slot of the active build; nothing else changes. */
    method AddPart(p: Part)
      modifies this
      ensures activeBuildId == old(activeBuildId)
      ensures ActiveBuild() == AddPartTo(old(ActiveBuild()), p)
      ensures InactiveBuild() == old(InactiveBuild())
    {
      var updated := AddPartTo(ActiveBuild(), p);
      if activeBuildId == BuildA {
        buildA := updated;
      } else {
        buildB := updated;
      }
    }

    /** `removePart`: the category's slot of the active build is emptied; nothing else changes. */
    method RemovePart(t: PartType)
      modifies this
      ensures activeBuildId == old(activeBuildId)
      ensures ActiveBuild() == RemovePartFrom(old(ActiveBuild()), t)
      ensures InactiveBuild() == old(InactiveBuild())
    {
      var updated := RemovePartFrom(ActiveBuild(), t);
      if activeBuildId == BuildA {
        buildA := updated;
      } else {
        buildB := updated;
      }
    }
  }
}
