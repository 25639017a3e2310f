/**
 * Builds assembled from catalog parts through the builder's slot edits, and
 * what the engine reports for them.
 */
module CatalogScenarios {
  import opened Wrappers
  import opened Types
  import opened Logic
  import opened PCBuilder

  const Ryzen7800X3D: Part :=
    Part("cpu-r7-7800x3d", "AMD Ryzen 7 7800X3D", CPU, 38500, Some(120), Some("AM5"), None)
  const B650Tomahawk: Part :=
    Part("mobo-b650-tomahawk", "MSI MAG B650 Tomahawk WiFi", Motherboard, 21500, None, Some("AM5"), None)
  const Z790Hero: Part :=
    Part("mobo-z790-hero", "ASUS ROG Maximus Z790 Hero", Motherboard, 62000, None, Some("LGA1700"), None)
  const Cv650: Part :=
    Part("psu-cv650", "Corsair CV650 650W 80 Plus Bronze", PSU, 4800, None, None, Some(650))
  const Rtx4090: Part :=
    Part("gpu-rtx-4090", "NVIDIA RTX 4090 24GB", GPU, 185000, Some(450), None, None)

  /** Build A holding the CPU, the given board and the 650 W PSU, nothing else. */
  function CpuBoardPsu(board: Part): Build
  {
    Build("build-a", "Elite Performance A", Some(Ryzen7800X3D), Some(board), None, None, None, None, Some(Cv650), None)
  }

  /** Adding the CPU, then a board, then the PSU to the new build A gives exactly that build. */
  lemma AddingCpuBoardPsu(board: Part)
    requires board.partType == Motherboard
    ensures AddPartTo(AddPartTo(AddPartTo(EmptyBuild("build-a", "Elite Performance A"), Ryzen7800X3D), board), Cv650)
            == CpuBoardPsu(board)
  {
    var e := EmptyBuild("build-a", "Elite Performance A");
    var b1 := AddPartTo(e, Ryzen7800X3D);
    var b2 := AddPartTo(b1, board);
    var b3 := AddPartTo(b2, Cv650);
    var expected := CpuBoardPsu(board);
    forall t ensures Slot(b3, t) == Slot(expected, t) {
      if t != PSU && t != Motherboard && t != CPU {
        assert Slot(b3, t) == Slot(b2, t) == Slot(b1, t) == Slot(e, t);
      }
    }
    SlotsDetermineBuild(b3, expected);
  }

  /** AM5 CPU, AM5 board and 650 W PSU cost 64800 in total and draw 120 W. */
  lemma MatchingAm5BuildTotals()
    ensures TotalPrice(CpuBoardPsu(B650Tomahawk)) == 64800
    ensures TotalTdp(CpuBoardPsu(B650Tomahawk)) == 120
  {
    TotalPriceIsSlotSum(CpuBoardPsu(B650Tomahawk));
    TotalTdpIsSlotSum(CpuBoardPsu(B650Tomahawk));
  }

  /** That build is compatible with no issues (650 W is at least 120 W + 100 W), and can be deployed. */
  lemma MatchingAm5BuildCompatible()
    ensures Compatibility(CpuBoardPsu(B650Tomahawk)) == Report(true, [])
    ensures CanDeploy(CpuBoardPsu(B650Tomahawk))
  {
    MatchingAm5BuildTotals();
  }

  /** The same build on an LGA1700 board: one socket issue quoting both sockets. */
  lemma MismatchedBoard()
    ensures Compatibility(CpuBoardPsu(Z790Hero)) == Report(false, [SocketMismatch(Some("AM5"), Some("LGA1700"))])
  {
    TotalTdpIsSlotSum(CpuBoardPsu(Z790Hero));
  }

  /** With a 450 W GPU in the matching build the draw is 570 W: the 650 W PSU falls short of 670 W. */
  lemma GpuOverloadsPsu()
    ensures Compatibility(CpuBoardPsu(B650Tomahawk).(gpu := Some(Rtx4090))) == Report(false, [PowerShortfall(650, 570)])
  {
    var b := CpuBoardPsu(B650Tomahawk).(gpu := Some(Rtx4090));
    assert TotalTdp(b) == 570 by { TotalTdpIsSlotSum(b); }
    assert SocketCheck(b) == [];
  }
}
