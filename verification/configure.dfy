/** The spacecraft loop: which outputs follow the last spacecraft, and which one remembers them all. */
module Configure {
  import opened Components
  import opened TextLines
  import opened LinePoints
  import opened SimulatorConfig
  import StartupScript

  const IPC_OFF: Line := "OFF                                     ! IPC Mode (OFF,TX,RX,TXRX,ACS,WRITEFILE,READFILE)\n"

  function IpcTags(): seq<string>
  {
    ["CSS IPC", "EPS IPC", "FSS IPC", "GPS IPC", "IMU IPC", "MAG IPC", "RW 0 to 42", "RW 0 from 42", "RW 1 to 42",
     "RW 1 from 42", "RW 2 to 42", "RW 2 from 42", "Star Tracker IPC", "Torquer IPC", "Thruster IPC", "Truth data"]
  }

  const ENTRIES: nat := 16

  /** The component behind each entry of `IpcTags`. */
  function IpcComponent(k: nat): Component
  {
    match k
    case 0 => Css case 1 => Eps case 2 => Fss case 3 => Gps case 4 => Imu case 5 => Mag
    case 12 => St case 13 => Torquer case 14 => Thruster case 15 => Truth
    case _ => Rw
  }

  /** The component behind each entry of `SimulatorTags`. */
  function SimulatorComponent(k: nat): Component
  {
    match k
    case 0 => Cam case 1 => Css case 2 => Eps case 3 => Fss case 4 => Gps case 5 => Imu case 6 => Mag
    case 7 => Radio case 11 => Sample case 12 => St case 13 => Torquer case 14 => Thruster case 15 => Heater
    case _ => Rw
  }

  function IpcOff(sc: Spacecraft): (off: seq<bool>)
    ensures |off| == ENTRIES && forall k :: 0 <= k < ENTRIES ==> off[k] == (IpcComponent(k) !in sc.enabled)
  {
    seq(ENTRIES, k requires 0 <= k < ENTRIES => IpcComponent(k) !in sc.enabled)
  }

  function SimulatorsOff(sc: Spacecraft): (off: seq<bool>)
    ensures |off| == ENTRIES && forall k :: 0 <= k < ENTRIES ==> off[k] == (SimulatorComponent(k) !in sc.enabled)
  {
    seq(ENTRIES, k requires 0 <= k < ENTRIES => SimulatorComponent(k) !in sc.enabled)
  }

  function AllOff(fleet: seq<Spacecraft>): (offs: seq<seq<bool>>)
    ensures |offs| == |fleet| && forall j :: 0 <= j < |fleet| ==> offs[j] == SimulatorsOff(fleet[j])
  {
    seq(|fleet|, j requires 0 <= j < |fleet| => SimulatorsOff(fleet[j]))
  }

  lemma EntryCounts()
    ensures |IpcTags()| == ENTRIES && |SimulatorTags()| == ENTRIES
  {
  }

  /** The original files the loop reads afresh for every spacecraft. */
  datatype Originals = Originals(startup: seq<Line>, ipc: seq<Line>)

  /** What the build directory holds after the loop has gone through `fleet`. */
  ghost predicate Configured(o: Originals, before: seq<Line>, time: string, fleet: seq<Spacecraft>,
                             startup: seq<Line>, ipc: seq<Line>, simulators: seq<Line>)
  {
    EntryCounts();
    && (fleet != [] ==>
          var last := fleet[|fleet| - 1];
          startup == StartupScript.Written(o.startup, last.enabled)
          && SwitchedOff(o.ipc, IpcTags(), IpcOff(last), IPC_OFF, ipc))
    && Passes(before, time, SimulatorTags(), AllOff(fleet), simulators)
  }

  lemma {:induction false} PassesMore(lines: seq<Line>, time: string, tags: seq<string>, offs: seq<seq<bool>>,
                                      mid: seq<Line>, off: seq<bool>, out: seq<Line>)
    requires (forall j :: 0 <= j < |offs| ==> |offs[j]| == |tags|) && |off| == |tags|
    requires Passes(lines, time, tags, offs, mid) && SimulatorConfig.Written(mid, time, tags, off, out)
    ensures forall j :: 0 <= j < |offs + [off]| ==> |(offs + [off])[j]| == |tags|
    ensures Passes(lines, time, tags, offs + [off], out)
    decreases |offs|
  {
    hide SimulatorConfig.Written;
    var all := offs + [off];
    if offs == [] {
      assert all[0] == off && all[1..] == [];
      assert Passes(out, time, tags, all[1..], out);
    } else {
      var first :| SimulatorConfig.Written(lines, time, tags, offs[0], first) && Passes(first, time, tags, offs[1..], mid);
      PassesMore(first, time, tags, offs[1..], mid, off, out);
      assert all[0] == offs[0] && all[1..] == offs[1..] + [off];
    }
  }

  /** Every entry that some spacecraft switches off is found in the socket file. */
  ghost predicate IpcInRange(o: Originals, fleet: seq<Spacecraft>)
  {
    EntryCounts();
    forall j :: 0 <= j < |fleet| ==> AllInRange(o.ipc, IpcTags(), IpcOff(fleet[j]))
  }

  lemma PlacedInRange(lines: seq<Line>, tags: seq<string>, off: seq<bool>)
    requires Placed(lines, tags) && |tags| == |off|
    ensures NoClash(lines, tags) && AllInRange(lines, tags, off)
  {
  }

  class Build {
    var startup: seq<Line>
    var ipc: seq<Line>
    var simulators: seq<Line>

    /** One spacecraft: its startup script and socket file from the originals, the simulator file from
        what the last spacecraft left. */
    method Configure(o: Originals, time: string, sc: Spacecraft) returns (outcome: Outcome)
      requires Neutral(time, SimulatorTags())
      modifies this
      ensures |IpcTags()| == ENTRIES && |SimulatorTags()| == ENTRIES
      ensures outcome ==
        if !AllInRange(o.ipc, IpcTags(), IpcOff(sc)) then IndexError
        else if !NoClash(old(simulators), SimulatorTags()) then ValueError
        else if !AllInRange(old(simulators), SimulatorTags(), SimulatorsOff(sc)) then IndexError else Done
      ensures startup == StartupScript.Written(o.startup, sc.enabled)
      ensures if AllInRange(o.ipc, IpcTags(), IpcOff(sc))
              then SwitchedOff(o.ipc, IpcTags(), IpcOff(sc), IPC_OFF, ipc) else ipc == old(ipc)
      ensures if outcome == Done
              then SimulatorConfig.Written(old(simulators), time, SimulatorTags(), SimulatorsOff(sc), simulators)
              else simulators == old(simulators)
    {
      EntryCounts();
      hide IpcTags, SimulatorTags, Neutral, SwitchedOff, SimulatorConfig.Written, StartupScript.Written;
      var script := StartupScript.Rewrite(o.startup, sc.enabled);
      startup := script;
      var lines;
      outcome, lines := Rewrite(o.ipc, IpcTags(), IpcOff(sc), IPC_OFF);
      if outcome != Done {
        return;
      }
      ipc := lines;
      outcome, lines := RewriteSimulators(simulators, time, SimulatorTags(), SimulatorsOff(sc));
      if outcome == Done {
        simulators := lines;
      }
    }

    /** The whole loop. The startup script and the socket file depend on the last spacecraft alone;
        the simulator file is rewritten once for each. */
    method ConfigureAll(o: Originals, time: string, fleet: seq<Spacecraft>) returns (outcome: Outcome)
      requires Neutral(time, SimulatorTags())
      modifies this
      ensures outcome == Done ==> Configured(o, old(simulators), time, fleet, startup, ipc, simulators)
      ensures Placed(old(simulators), SimulatorTags()) && IpcInRange(o, fleet) ==> outcome == Done
    {
      EntryCounts();
      hide IpcTags, SimulatorTags, Neutral, SwitchedOff, SimulatorConfig.Written, StartupScript.Written, AllInRange, NoClash, Placed;
      outcome := Done;
      var x := 0;
      assert fleet[..0] == [] && AllOff([]) == [];
      while x < |fleet| && outcome == Done
        invariant 0 <= x <= |fleet|
        invariant outcome == Done ==> Configured(o, old(simulators), time, fleet[..x], startup, ipc, simulators)
        invariant Placed(old(simulators), SimulatorTags()) && IpcInRange(o, fleet) ==>
          outcome == Done && Placed(simulators, SimulatorTags())
        decreases |fleet| - x, outcome == Done
      {
        ghost var mid := simulators;
        outcome := Configure(o, time, fleet[x]);
        if Placed(mid, SimulatorTags()) {
          PlacedInRange(mid, SimulatorTags(), SimulatorsOff(fleet[x]));
        }
        if outcome == Done {
          if Placed(mid, SimulatorTags()) {
            RewriteKeepsPoints(mid, time, SimulatorTags(), SimulatorsOff(fleet[x]), simulators);
          }
          PassesMore(old(simulators), time, SimulatorTags(), AllOff(fleet[..x]), mid, SimulatorsOff(fleet[x]), simulators);
          assert AllOff(fleet[..x + 1]) == AllOff(fleet[..x]) + [SimulatorsOff(fleet[x])];
          x := x + 1;
        }
      }
      if outcome == Done {
        assert fleet[..x] == fleet;
      }
    }
  }

  /** After the loop a simulator with a point of its own is inactive if and only if it was inactive
      at first or some spacecraft, not only the last, did not enable its component. */
  lemma InactiveIffSomeSpacecraftDisables(o: Originals, before: seq<Line>, time: string, fleet: seq<Spacecraft>,
                                          startup: seq<Line>, ipc: seq<Line>, after: seq<Line>, k: nat)
    requires Configured(o, before, time, fleet, startup, ipc, after) && fleet != []
    requires Neutral(time, SimulatorTags()) && Placed(before, SimulatorTags()) && k < ENTRIES && k < |SimulatorTags()|
    requires forall m :: 0 <= m < |SimulatorTags()| && m != k ==>
      PointAfter(before, SimulatorTags()[m]) != PointAfter(before, SimulatorTags()[k])
    ensures var x := PointAfter(before, SimulatorTags()[k]);
      x < |before| && |after| == |before|
      && after[x] == (if exists j :: 0 <= j < |fleet| && SimulatorComponent(k) !in fleet[j].enabled then DISABLED else before[x])
      && (Inactive(after[x]) <==>
          Inactive(before[x]) || exists j :: 0 <= j < |fleet| && SimulatorComponent(k) !in fleet[j].enabled)
  {
    EntryCounts();
    hide SimulatorTags, IpcTags, Neutral, Placed, PointAfter, SwitchedOff, Passes, Inactive, StartupScript.Written;
    var offs := AllOff(fleet);
    InactiveIffEverDisabled(before, time, SimulatorTags(), offs, after, k);
    if j :| 0 <= j < |fleet| && SimulatorComponent(k) !in fleet[j].enabled {
      assert offs[j][k];
    }
    if j :| 0 <= j < |offs| && offs[j][k] {
      assert SimulatorComponent(k) !in fleet[j].enabled;
    }
  }

  // ------------------------------------------------------------ by the names in the files

  /** The lines after the first lines with these tags are all different. */
  ghost predicate Apart(lines: seq<Line>, tags: seq<string>)
  {
    forall m, k :: 0 <= m < k < |tags| ==> PointAfter(lines, tags[m]) != PointAfter(lines, tags[k])
  }

  /** In the simulator file, the line after the first line with the name is inactive exactly if it was
      at first or some spacecraft does not enable the component. */
  ghost predicate SimulatorFollows(before: seq<Line>, after: seq<Line>, fleet: seq<Spacecraft>, name: string, c: Component)
  {
    var x := FirstMatch(before, name) + 1;
    && x < |before| && |after| == |before|
    && (Has(after[x], "<active>false</active>") <==>
        Has(before[x], "<active>false</active>") || exists j :: 0 <= j < |fleet| && c !in fleet[j].enabled)
    && after[x] == if exists j :: 0 <= j < |fleet| && c !in fleet[j].enabled then "            <active>false</active>\n" else before[x]
  }

  lemma SimulatorAt(o: Originals, before: seq<Line>, time: string, fleet: seq<Spacecraft>,
                    startup: seq<Line>, ipc: seq<Line>, after: seq<Line>, k: nat)
    requires Configured(o, before, time, fleet, startup, ipc, after) && fleet != []
    requires Neutral(time, SimulatorTags()) && Placed(before, SimulatorTags()) && Apart(before, SimulatorTags())
    requires k < |SimulatorTags()|
    ensures SimulatorFollows(before, after, fleet, SimulatorTags()[k], SimulatorComponent(k))
  {
    EntryCounts();
    hide SimulatorTags, Neutral, Configured, SimulatorComponent, Has;
    InactiveIffSomeSpacecraftDisables(o, before, time, fleet, startup, ipc, after, k);
  }

  lemma SimulatorNames()
    ensures
      && |SimulatorTags()| == 16
      && SimulatorTags()[0] == "camsim</name>" && SimulatorComponent(0) == Cam
      && SimulatorTags()[1] == "css-sim</name>" && SimulatorComponent(1) == Css
      && SimulatorTags()[2] == "eps-sim</name>" && SimulatorComponent(2) == Eps
      && SimulatorTags()[3] == "fss-sim</name>" && SimulatorComponent(3) == Fss
      && SimulatorTags()[4] == "gps</name>" && SimulatorComponent(4) == Gps
      && SimulatorTags()[5] == "imu-sim</name>" && SimulatorComponent(5) == Imu
      && SimulatorTags()[6] == "mag-sim</name>" && SimulatorComponent(6) == Mag
      && SimulatorTags()[7] == "radio-sim</name>" && SimulatorComponent(7) == Radio
      && SimulatorTags()[8] == "reactionwheel-sim0</name>" && SimulatorComponent(8) == Rw
      && SimulatorTags()[9] == "reactionwheel-sim1</name>" && SimulatorComponent(9) == Rw
      && SimulatorTags()[10] == "reactionwheel-sim2</name>" && SimulatorComponent(10) == Rw
      && SimulatorTags()[11] == "sample-sim</name>" && SimulatorComponent(11) == Sample
      && SimulatorTags()[12] == "star-tracker-sim</name>" && SimulatorComponent(12) == St
      && SimulatorTags()[13] == "generic-torquer-sim</name>" && SimulatorComponent(13) == Torquer
      && SimulatorTags()[14] == "generic-thruster-sim</name>" && SimulatorComponent(14) == Thruster
      && SimulatorTags()[15] == "heater-sim</name>" && SimulatorComponent(15) == Heater
  {
  }

  /** Simulator by simulator, by the names the file itself gives them. */
  lemma SimulatorsByName(o: Originals, before: seq<Line>, time: string, fleet: seq<Spacecraft>,
                         startup: seq<Line>, ipc: seq<Line>, after: seq<Line>)
    requires Configured(o, before, time, fleet, startup, ipc, after) && fleet != []
    requires Neutral(time, SimulatorTags()) && Placed(before, SimulatorTags()) && Apart(before, SimulatorTags())
    ensures
      && SimulatorFollows(before, after, fleet, "camsim</name>", Cam)
      && SimulatorFollows(before, after, fleet, "css-sim</name>", Css)
      && SimulatorFollows(before, after, fleet, "eps-sim</name>", Eps)
      && SimulatorFollows(before, after, fleet, "fss-sim</name>", Fss)
      && SimulatorFollows(before, after, fleet, "gps</name>", Gps)
      && SimulatorFollows(before, after, fleet, "imu-sim</name>", Imu)
      && SimulatorFollows(before, after, fleet, "mag-sim</name>", Mag)
      && SimulatorFollows(before, after, fleet, "radio-sim</name>", Radio)
      && SimulatorFollows(before, after, fleet, "reactionwheel-sim0</name>", Rw)
      && SimulatorFollows(before, after, fleet, "reactionwheel-sim1</name>", Rw)
      && SimulatorFollows(before, after, fleet, "reactionwheel-sim2</name>", Rw)
      && SimulatorFollows(before, after, fleet, "sample-sim</name>", Sample)
      && SimulatorFollows(before, after, fleet, "star-tracker-sim</name>", St)
      && SimulatorFollows(before, after, fleet, "generic-torquer-sim</name>", Torquer)
      && SimulatorFollows(before, after, fleet, "generic-thruster-sim</name>", Thruster)
      && SimulatorFollows(before, after, fleet, "heater-sim</name>", Heater)
  {
    SimulatorNames();
    hide SimulatorTags, SimulatorComponent, Neutral, Configured, Placed, Apart, SimulatorFollows;
    forall k: nat | k < |SimulatorTags()| ensures SimulatorFollows(before, after, fleet, SimulatorTags()[k], SimulatorComponent(k)) {
      SimulatorAt(o, before, time, fleet, startup, ipc, after, k);
    }
  }

  /** Every other line of the simulator file holds the start time if it held one, and is as it was
      otherwise. */
  lemma OtherSimulatorLines(o: Originals, before: seq<Line>, time: string, fleet: seq<Spacecraft>,
                            startup: seq<Line>, ipc: seq<Line>, after: seq<Line>, i: nat)
    requires Configured(o, before, time, fleet, startup, ipc, after) && fleet != []
    requires Neutral(time, SimulatorTags()) && Placed(before, SimulatorTags()) && i < |before|
    requires forall k :: 0 <= k < |SimulatorTags()| ==> i != FirstMatch(before, SimulatorTags()[k]) + 1
    ensures |after| == |before|
    ensures after[i] ==
      if Has(before[i], "<absolute-start-time>") then "        <absolute-start-time>" + time + "</absolute-start-time>\n" else before[i]
  {
    EntryCounts();
    hide SimulatorTags, IpcTags, Neutral, SwitchedOff, Passes, Has, StartupScript.Written, SomeSelected, PointAfter, Placed, TimeLine;
    var offs := AllOff(fleet);
    Accumulates(before, time, SimulatorTags(), offs, after);
    NoneSelects(before, SimulatorTags(), offs, i);
    TimeLineText(time);
  }

  lemma TimeLineText(time: string)
    ensures TimeLine(time) == "        <absolute-start-time>" + time + "</absolute-start-time>\n"
  {
    assert TimeLine(time) == "        " + (TIME_TAG + (time + "</absolute-start-time>\n"));
  }

  lemma NoneSelects(lines: seq<Line>, tags: seq<string>, offs: seq<seq<bool>>, i: nat)
    requires (forall j :: 0 <= j < |offs| ==> |offs[j]| == |tags|) && Placed(lines, tags)
    requires forall k :: 0 <= k < |tags| ==> i != FirstMatch(lines, tags[k]) + 1
    ensures !SomeSelected(lines, tags, offs, i)
  {
    hide Has;
  }

  /** In the socket file, the line after the first line with the name is switched off exactly if the
      last spacecraft does not enable the component, and is as it was otherwise. */
  ghost predicate SocketFollows(before: seq<Line>, after: seq<Line>, last: Spacecraft, name: string, c: Component)
  {
    var x := FirstMatch(before, name) + 1;
    && x < |before| && |after| == |before|
    && after[x] == if c in last.enabled then before[x]
                   else "OFF                                     ! IPC Mode (OFF,TX,RX,TXRX,ACS,WRITEFILE,READFILE)\n"
  }

  /** Every name is followed by a line, before line 999. */
  ghost predicate Found(lines: seq<Line>, tags: seq<string>)
  {
    forall k :: 0 <= k < |tags| ==> FirstMatch(lines, tags[k]) + 1 < |lines| && FirstMatch(lines, tags[k]) < 999
  }

  lemma SocketAt(before: seq<Line>, sc: Spacecraft, after: seq<Line>, k: nat)
    requires |IpcTags()| == ENTRIES && SwitchedOff(before, IpcTags(), IpcOff(sc), IPC_OFF, after)
    requires Found(before, IpcTags()) && Apart(before, IpcTags()) && k < |IpcTags()|
    ensures SocketFollows(before, after, sc, IpcTags()[k], IpcComponent(k))
  {
    hide IpcTags, IpcComponent, Has;
    var x := FirstMatch(before, IpcTags()[k]) + 1;
    assert PointAfter(before, IpcTags()[k]) == x;
    if Selected(before, IpcTags(), IpcOff(sc), x) {
      var m :| 0 <= m < |IpcTags()| && IpcOff(sc)[m] && PointAfter(before, IpcTags()[m]) == x;
      assert m == k;
    } else {
      assert !IpcOff(sc)[k];
    }
  }

  lemma SocketNames()
    ensures
      && |IpcTags()| == 16
      && IpcTags()[0] == "CSS IPC" && IpcComponent(0) == Css
      && IpcTags()[1] == "EPS IPC" && IpcComponent(1) == Eps
      && IpcTags()[2] == "FSS IPC" && IpcComponent(2) == Fss
      && IpcTags()[3] == "GPS IPC" && IpcComponent(3) == Gps
      && IpcTags()[4] == "IMU IPC" && IpcComponent(4) == Imu
      && IpcTags()[5] == "MAG IPC" && IpcComponent(5) == Mag
      && IpcTags()[6] == "RW 0 to 42" && IpcComponent(6) == Rw
      && IpcTags()[7] == "RW 0 from 42" && IpcComponent(7) == Rw
      && IpcTags()[8] == "RW 1 to 42" && IpcComponent(8) == Rw
      && IpcTags()[9] == "RW 1 from 42" && IpcComponent(9) == Rw
      && IpcTags()[10] == "RW 2 to 42" && IpcComponent(10) == Rw
      && IpcTags()[11] == "RW 2 from 42" && IpcComponent(11) == Rw
      && IpcTags()[12] == "Star Tracker IPC" && IpcComponent(12) == St
      && IpcTags()[13] == "Torquer IPC" && IpcComponent(13) == Torquer
      && IpcTags()[14] == "Thruster IPC" && IpcComponent(14) == Thruster
      && IpcTags()[15] == "Truth data" && IpcComponent(15) == Truth
  {
  }

  /** Socket by socket, by the names the file itself gives them. */
  lemma SocketsByName(o: Originals, before: seq<Line>, time: string, fleet: seq<Spacecraft>,
                      startup: seq<Line>, ipc: seq<Line>, after: seq<Line>)
    requires Configured(o, before, time, fleet, startup, ipc, after) && fleet != []
    requires Found(o.ipc, IpcTags()) && Apart(o.ipc, IpcTags())
    ensures var last := fleet[|fleet| - 1];
      && SocketFollows(o.ipc, ipc, last, "CSS IPC", Css)
      && SocketFollows(o.ipc, ipc, last, "EPS IPC", Eps)
      && SocketFollows(o.ipc, ipc, last, "FSS IPC", Fss)
      && SocketFollows(o.ipc, ipc, last, "GPS IPC", Gps)
      && SocketFollows(o.ipc, ipc, last, "IMU IPC", Imu)
      && SocketFollows(o.ipc, ipc, last, "MAG IPC", Mag)
      && SocketFollows(o.ipc, ipc, last, "RW 0 to 42", Rw)
      && SocketFollows(o.ipc, ipc, last, "RW 0 from 42", Rw)
      && SocketFollows(o.ipc, ipc, last, "RW 1 to 42", Rw)
      && SocketFollows(o.ipc, ipc, last, "RW 1 from 42", Rw)
      && SocketFollows(o.ipc, ipc, last, "RW 2 to 42", Rw)
      && SocketFollows(o.ipc, ipc, last, "RW 2 from 42", Rw)
      && SocketFollows(o.ipc, ipc, last, "Star Tracker IPC", St)
      && SocketFollows(o.ipc, ipc, last, "Torquer IPC", Torquer)
      && SocketFollows(o.ipc, ipc, last, "Thruster IPC", Thruster)
      && SocketFollows(o.ipc, ipc, last, "Truth data", Truth)
  {
    EntryCounts();
    SocketNames();
    hide IpcTags, IpcComponent, SwitchedOff, Found, Apart, SocketFollows, Passes, StartupScript.Written;
    var last := fleet[|fleet| - 1];
    forall k: nat | k < |IpcTags()| ensures SocketFollows(o.ipc, ipc, last, IpcTags()[k], IpcComponent(k)) {
      SocketAt(o.ipc, last, ipc, k);
    }
  }
}
