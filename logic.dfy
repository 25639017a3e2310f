/**
 * The build evaluation engine: total price, total power draw, and the
 * compatibility report (socket match and power-supply headroom).
 */
module Logic {
  import opened Wrappers
  import opened Types
  import Seqs

  /** `part?.price || 0`: an empty slot costs nothing. */
  function PriceOf(slot: Option<Part>): (r: int)
    ensures slot.None? ==> r == 0
    ensures slot.Some? ==> r == slot.value.price
  {
    match slot
    case Some(p) => p.price
    case None => 0
  }

  /** `part?.tdp || 0`: an empty slot, or a part without a TDP, draws nothing. */
  function TdpOf(slot: Option<Part>): (r: int)
    ensures slot.None? || slot.value.tdp.None? ==> r == 0
    ensures slot.Some? && slot.value.tdp.Some? ==> r == slot.value.tdp.value
  {
    match slot
    case Some(p) => p.tdp.GetOr(0)
    case None => 0
  }

  /** The eight slots in the order the engine lists them. */
  function Slots(b: Build): (s: seq<Option<Part>>)
    ensures |s| == |AllPartTypes|
    ensures forall i :: 0 <= i < |s| ==> s[i] == Slot(b, AllPartTypes[i])
  {
    [b.cpu, b.motherboard, b.cooling, b.ram, b.gpu, b.storage, b.psu, b.cases]
  }

  /** `Array.prototype.reduce` with an additive step: a left fold from `acc`. */
  function Reduce(acc: int, s: seq<Option<Part>>, f: Option<Part> -> int): int
    decreases |s|
  {
    if s == [] then acc else Reduce(acc + f(s[0]), s[1..], f)
  }

  /** The reference sum of `f` over `s`. */
  function Sum(s: seq<Option<Part>>, f: Option<Part> -> int): int
  {
    if s == [] then 0 else f(s[0]) + Sum(s[1..], f)
  }

  /** The left fold computes the sum, offset by its starting value. */
  lemma {:induction false} ReduceIsSum(acc: int, s: seq<Option<Part>>, f: Option<Part> -> int)
    decreases |s|
    ensures Reduce(acc, s, f) == acc + Sum(s, f)
  {
    if s != [] {
      ReduceIsSum(acc + f(s[0]), s[1..], f);
    }
  }

  /** `calculateTotalBuildPrice`. */
  function TotalPrice(b: Build): (r: int)
    ensures r == Sum(Slots(b), PriceOf)
  {
    ReduceIsSum(0, Slots(b), PriceOf);
    Reduce(0, Slots(b), PriceOf)
  }

  /** `calculateTotalBuildTDP`. */
  function TotalTdp(b: Build): (r: int)
    ensures r == Sum(Slots(b), TdpOf)
  {
    ReduceIsSum(0, Slots(b), TdpOf);
    Reduce(0, Slots(b), TdpOf)
  }

  /** Unrolls the sum over the eight slots. */
  lemma SumOverSlots(b: Build, f: Option<Part> -> int)
    ensures Sum(Slots(b), f) == f(b.cpu) + f(b.motherboard) + f(b.cooling) + f(b.ram)
                                + f(b.gpu) + f(b.storage) + f(b.psu) + f(b.cases)
  {
    var s := Slots(b);
    assert s[8..] == [];
    assert Sum(s[7..], f) == f(b.cases) by { assert s[7..][1..] == s[8..]; }
    assert Sum(s[6..], f) == f(b.psu) + Sum(s[7..], f) by { assert s[6..][1..] == s[7..]; }
    assert Sum(s[5..], f) == f(b.storage) + Sum(s[6..], f) by { assert s[5..][1..] == s[6..]; }
    assert Sum(s[4..], f) == f(b.gpu) + Sum(s[5..], f) by { assert s[4..][1..] == s[5..]; }
    assert Sum(s[3..], f) == f(b.ram) + Sum(s[4..], f) by { assert s[3..][1..] == s[4..]; }
    assert Sum(s[2..], f) == f(b.cooling) + Sum(s[3..], f) by { assert s[2..][1..] == s[3..]; }
    assert Sum(s[1..], f) == f(b.motherboard) + Sum(s[2..], f) by { assert s[1..][1..] == s[2..]; }
  }

  /** The total price is the sum of the prices of the occupied slots. */
  lemma TotalPriceIsSlotSum(b: Build)
    ensures TotalPrice(b) == PriceOf(b.cpu) + PriceOf(b.motherboard) + PriceOf(b.cooling)
                             + PriceOf(b.ram) + PriceOf(b.gpu) + PriceOf(b.storage)
                             + PriceOf(b.psu) + PriceOf(b.cases)
  {
    SumOverSlots(b, PriceOf);
  }

  /** The total TDP sums every slot, the PSU and case included; a missing TDP counts 0. */
  lemma TotalTdpIsSlotSum(b: Build)
    ensures TotalTdp(b) == TdpOf(b.cpu) + TdpOf(b.motherboard) + TdpOf(b.cooling)
                           + TdpOf(b.ram) + TdpOf(b.gpu) + TdpOf(b.storage)
                           + TdpOf(b.psu) + TdpOf(b.cases)
  {
    SumOverSlots(b, TdpOf);
  }

  /** Replacing one slot changes a slot sum by the difference between the new and old occupant. */
  lemma SumWithSlot(b: Build, t: PartType, v: Option<Part>, f: Option<Part> -> int)
    ensures Sum(Slots(WithSlot(b, t, v)), f) == Sum(Slots(b), f) - f(Slot(b, t)) + f(v)
  {
    SumOverSlots(b, f);
    SumOverSlots(WithSlot(b, t, v), f);
    match t
    case CPU =>
    case Motherboard =>
    case Cooling =>
    case RAM =>
    case GPU =>
    case Storage =>
    case PSU =>
    case Case =>
  }

  /** Replacing one slot changes each total by the difference between the new and old occupant. */
  lemma WithSlotTotals(b: Build, t: PartType, v: Option<Part>)
    ensures TotalPrice(WithSlot(b, t, v)) == TotalPrice(b) - PriceOf(Slot(b, t)) + PriceOf(v)
    ensures TotalTdp(WithSlot(b, t, v)) == TotalTdp(b) - TdpOf(Slot(b, t)) + TdpOf(v)
  {
    SumWithSlot(b, t, v, PriceOf);
    SumWithSlot(b, t, v, TdpOf);
  }

  /** With all slots empty both totals are 0. */
  lemma EmptySlotsTotalZero(b: Build)
    requires forall t :: Slot(b, t) == None
    ensures TotalPrice(b) == 0 && TotalTdp(b) == 0
  {
    assert Slot(b, CPU) == Slot(b, Motherboard) == Slot(b, Cooling) == Slot(b, RAM) == None;
    assert Slot(b, GPU) == Slot(b, Storage) == Slot(b, PSU) == Slot(b, Case) == None;
    TotalPriceIsSlotSum(b);
    TotalTdpIsSlotSum(b);
  }

  /** A non-zero total price means some slot is occupied. */
  lemma PricedBuildIsOccupied(b: Build)
    ensures TotalPrice(b) != 0 ==> exists t :: Slot(b, t).Some?
  {
    if forall t :: Slot(b, t).None? {
      EmptySlotsTotalZero(b);
    }
  }

  /** Non-negative part prices and TDPs give non-negative totals. */
  lemma TotalsNonNegative(b: Build)
    requires forall t :: PriceOf(Slot(b, t)) >= 0
    requires forall t :: TdpOf(Slot(b, t)) >= 0
    ensures TotalPrice(b) >= 0 && TotalTdp(b) >= 0
  {
    assert PriceOf(Slot(b, CPU)) >= 0 && PriceOf(Slot(b, Motherboard)) >= 0;
    assert PriceOf(Slot(b, Cooling)) >= 0 && PriceOf(Slot(b, RAM)) >= 0;
    assert PriceOf(Slot(b, GPU)) >= 0 && PriceOf(Slot(b, Storage)) >= 0;
    assert PriceOf(Slot(b, PSU)) >= 0 && PriceOf(Slot(b, Case)) >= 0;
    assert TdpOf(Slot(b, CPU)) >= 0 && TdpOf(Slot(b, Motherboard)) >= 0;
    assert TdpOf(Slot(b, Cooling)) >= 0 && TdpOf(Slot(b, RAM)) >= 0;
    assert TdpOf(Slot(b, GPU)) >= 0 && TdpOf(Slot(b, Storage)) >= 0;
    assert TdpOf(Slot(b, PSU)) >= 0 && TdpOf(Slot(b, Case)) >= 0;
    TotalPriceIsSlotSum(b);
    TotalTdpIsSlotSum(b);
  }

  /** The fixed margin required between PSU wattage and estimated draw. */
  const HeadroomWatts: int := 100

  /** A compatibility problem, carrying the values the message quotes. */
  datatype Issue =
    | SocketMismatch(cpuSocket: Option<string>, motherboardSocket: Option<string>)
    | PowerShortfall(wattage: int, estimatedTdp: int)

  /** The result of `checkCompatibility`. */
  datatype Report = Report(compatible: bool, issues: seq<Issue>)

  /** The socket rule's contribution: at most one issue. */
  function SocketIssues(r: Report): seq<Issue>
  {
    Seqs.Filter(r.issues, (i: Issue) => i.SocketMismatch?)
  }

  /** The power rule's contribution: at most one issue. */
  function PowerIssues(r: Report): seq<Issue>
  {
    Seqs.Filter(r.issues, (i: Issue) => i.PowerShortfall?)
  }

  /** Rule 1: the socket mismatch issue, when CPU and board are both present and their sockets differ. */
  function SocketCheck(b: Build): (r: seq<Issue>)
    ensures |r| <= 1
    ensures forall i :: 0 <= i < |r| ==> r[i].SocketMismatch?
    ensures r != [] <==> b.cpu.Some? && b.motherboard.Some? && b.cpu.value.socket != b.motherboard.value.socket
  {
    if b.cpu.Some? && b.motherboard.Some? && b.cpu.value.socket != b.motherboard.value.socket
    then [SocketMismatch(b.cpu.value.socket, b.motherboard.value.socket)]
    else []
  }

  /** Rule 2: the power shortfall issue, when a PSU with a truthy wattage lacks the headroom. */
  function PowerCheck(b: Build): (r: seq<Issue>)
    ensures |r| <= 1
    ensures r != [] <==> b.psu.Some? && b.psu.value.wattage.Some? && b.psu.value.wattage.value != 0
                         && b.psu.value.wattage.value < TotalTdp(b) + HeadroomWatts
    ensures forall i :: 0 <= i < |r| ==> r[i] == PowerShortfall(b.psu.value.wattage.value, TotalTdp(b))
  {
    if b.psu.Some? && b.psu.value.wattage.Some? && b.psu.value.wattage.value != 0
       && b.psu.value.wattage.value < TotalTdp(b) + HeadroomWatts
    then [PowerShortfall(b.psu.value.wattage.value, TotalTdp(b))]
    else []
  }

  /**
   * The report `checkCompatibility` returns: rule 1's issues, then rule 2's;
   * compatible exactly when there are none.
   */
  function Compatibility(b: Build): (r: Report)
    ensures r.compatible <==> r.issues == []
    ensures |r.issues| <= 2
  {
    var issues := SocketCheck(b) + PowerCheck(b);
    Report(issues == [], issues)
  }

  /** `checkCompatibility`: runs the two rules in order, pushing each issue found. */
  method CheckCompatibility(b: Build) returns (r: Report)
    ensures r == Compatibility(b)
    ensures r.compatible <==> |r.issues| == 0
  {
    var issues: seq<Issue> := [];
    if b.cpu.Some? && b.motherboard.Some? {
      if b.cpu.value.socket != b.motherboard.value.socket {
        issues := issues + [SocketMismatch(b.cpu.value.socket, b.motherboard.value.socket)];
      }
    }
    if b.psu.Some? {
      var estimatedTdp := TotalTdp(b);
      var wattage := b.psu.value.wattage;
      if wattage.Some? && wattage.value != 0 && wattage.value < estimatedTdp + HeadroomWatts {
        issues := issues + [PowerShortfall(wattage.value, estimatedTdp)];
      }
    }
    r := Report(|issues| == 0, issues);
  }

  /** Filtering a report whose issues are a socket part followed by a power part. */
  lemma {:induction false} SplitIssues(socket: seq<Issue>, power: seq<Issue>)
    requires forall i :: i in socket ==> i.SocketMismatch?
    requires forall i :: i in power ==> i.PowerShortfall?
    ensures SocketIssues(Report(socket + power == [], socket + power)) == socket
    ensures PowerIssues(Report(socket + power == [], socket + power)) == power
  {
    var isSocket := (i: Issue) => i.SocketMismatch?;
    var isPower := (i: Issue) => i.PowerShortfall?;
    Seqs.FilterConcat(socket, power, isSocket);
    Seqs.FilterConcat(socket, power, isPower);
    Seqs.FilterKeepsAll(socket, isSocket);
    Seqs.FilterKeepsAll(power, isPower);
    Seqs.FilterKeepsNone(power, isSocket);
    Seqs.FilterKeepsNone(socket, isPower);
  }

  /**
   * The socket rule reports exactly one issue, quoting both sockets, iff the
   * CPU and the motherboard are both present and their sockets differ; two
   * absent sockets are equal, one absent socket is a mismatch.
   */
  lemma SocketRule(b: Build)
    ensures SocketIssues(Compatibility(b)) ==
      if b.cpu.Some? && b.motherboard.Some? && b.cpu.value.socket != b.motherboard.value.socket
      then [SocketMismatch(b.cpu.value.socket, b.motherboard.value.socket)]
      else []
  {
    SplitIssues(SocketCheck(b), PowerCheck(b));
  }

  /**
   * The power rule reports exactly one issue, quoting the wattage and the
   * estimated draw, iff a PSU is present, its wattage is present and non-zero,
   * and the wattage is strictly below the estimated draw plus 100 W.
   */
  lemma PowerRule(b: Build)
    ensures PowerIssues(Compatibility(b)) ==
      if b.psu.Some? && b.psu.value.wattage.Some? && b.psu.value.wattage.value != 0
         && b.psu.value.wattage.value < TotalTdp(b) + 100
      then [PowerShortfall(b.psu.value.wattage.value, TotalTdp(b))]
      else []
  {
    SplitIssues(SocketCheck(b), PowerCheck(b));
  }

  /** The report holds nothing but what the two rules contribute, socket issue first. */
  lemma IssuesAreSocketThenPower(b: Build)
    ensures Compatibility(b).issues == SocketIssues(Compatibility(b)) + PowerIssues(Compatibility(b))
  {
    SplitIssues(SocketCheck(b), PowerCheck(b));
  }

  /** When both rules fire, the socket issue is at index 0 and the power issue at index 1. */
  lemma IssueOrder(b: Build)
    requires b.cpu.Some? && b.motherboard.Some? && b.cpu.value.socket != b.motherboard.value.socket
    requires b.psu.Some? && b.psu.value.wattage.Some? && b.psu.value.wattage.value != 0
    requires b.psu.value.wattage.value < TotalTdp(b) + 100
    ensures |Compatibility(b).issues| == 2
    ensures Compatibility(b).issues[0] == SocketMismatch(b.cpu.value.socket, b.motherboard.value.socket)
    ensures Compatibility(b).issues[1] == PowerShortfall(b.psu.value.wattage.value, TotalTdp(b))
    ensures !Compatibility(b).compatible
  {
  }

  /** A PSU rated at exactly the estimated draw plus 100 W raises no power issue (strict `<`). */
  lemma HeadroomBoundaryPasses(b: Build)
    requires b.psu.Some? && b.psu.value.wattage == Some(TotalTdp(b) + 100)
    ensures PowerIssues(Compatibility(b)) == []
  {
    PowerRule(b);
  }

  /** One watt less raises exactly one power issue, and the build is incompatible. */
  lemma HeadroomBoundaryFails(b: Build)
    requires b.psu.Some? && b.psu.value.wattage == Some(TotalTdp(b) + 99)
    requires TotalTdp(b) + 99 != 0
    ensures PowerIssues(Compatibility(b)) == [PowerShortfall(TotalTdp(b) + 99, TotalTdp(b))]
    ensures !Compatibility(b).compatible
  {
    PowerRule(b);
  }

  /** A missing PSU, a missing wattage or a wattage of 0 skips the power rule whatever the draw. */
  lemma NoRatedPsuSkipsPowerRule(b: Build)
    requires b.psu.None? || b.psu.value.wattage.None? || b.psu.value.wattage == Some(0)
    ensures PowerIssues(Compatibility(b)) == []
  {
    PowerRule(b);
  }

  /** An empty build is compatible with no issues. */
  lemma EmptyBuildCompatible(id: string, name: string)
    ensures Compatibility(EmptyBuild(id, name)) == Report(true, [])
  {
  }

  /** A build with no motherboard and no PSU (a lone CPU, say) is compatible with no issues. */
  lemma NoBoardNoPsuCompatible(b: Build)
    requires b.motherboard.None? && b.psu.None?
    ensures Compatibility(b) == Report(true, [])
  {
  }

  /** Filling or clearing a slot other than CPU and motherboard never changes the socket verdict. */
  lemma SocketRuleReadsOnlyCpuAndBoard(b: Build, t: PartType, v: Option<Part>)
    requires t != CPU && t != Motherboard
    ensures SocketIssues(Compatibility(WithSlot(b, t, v))) == SocketIssues(Compatibility(b))
  {
    SocketRule(b);
    SocketRule(WithSlot(b, t, v));
    assert Slot(WithSlot(b, t, v), CPU) == b.cpu;
    assert Slot(WithSlot(b, t, v), Motherboard) == b.motherboard;
  }
}
