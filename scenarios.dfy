/**
 * Concrete runs of the roster: one device joining and leaving, a leave that
 * lists the remaining occupant, a restart whose first turn does not yet know
 * the saved occupants, and the stale-restore run in which the source's
 * restore breaks the occupancy invariant.
 */
module Scenarios {
  import opened Wrappers
  import opened Presence
  import opened Scan
  import opened Messages
  import opened Wiscanner

  /**
   * Alice, threshold 60 s, seen at t=100: she joins alone.  Missed at t=130
   * (30 s unseen): nothing happens.  Missed at t=170 (70 s unseen): she leaves, alone.
   */
  method AliceJoinsAndLeaves() returns (h: Roster, alice: Device)
    ensures h.log == [JoinMessage(100, "Alice", "Home", []), LeaveMessage(170, "Alice", "Home", 100, [])]
    ensures h.devicesInHouse == {} && alice.inHouse == Absent
    ensures alice.lastVisibleTime == 100 && alice.lastJoinTime == 100 && alice.lastLeaveTime == 170
  {
    h := new Roster("Home", map[]);
    alice := h.AddDevice("aa:bb:cc:dd:ee:01", "Alice", 60, 0);
    var seen := [HostAddresses("192.168.1.10", None), HostAddresses("192.168.1.11", Some("aa:bb:cc:dd:ee:01"))];
    assert MacSeen(seen, alice.macAddress) by { assert seen[1].mac == Some(alice.macAddress); }
    h.PollDevice(alice, Probe(seen, 100, Written));
    assert h.devicesInHouse == {alice};
    h.PollDevice(alice, Probe([], 130, Written));
    assert h.devicesInHouse == {alice};
    h.PollDevice(alice, Probe([], 170, Written));
  }

  /**
   * Alice and Bob are both present; when Bob leaves, the message lists Alice
   * and not Bob.
   */
  method OtherOccupantListed() returns (h: Roster)
    ensures |h.log| == 3 && h.log[2] == LeaveMessage(200, "Bob", "Home", 100, ["Alice"])
  {
    h := new Roster("Home", map[]);
    var alice := h.AddDevice("aa:bb:cc:dd:ee:01", "Alice", 60, 0);
    var bob := h.AddDevice("aa:bb:cc:dd:ee:02", "Bob", 60, 0);
    h.ReportVisible(alice, 100);
    h.ReportVisible(bob, 100);
    assert h.devicesInHouse == {alice, bob};
    h.ReportVisible(alice, 190);
    h.ReportInvisible(bob, 200);
    assert h.devicesInHouse == {alice};
    var others := h.log[2].others;
    assert |others| == 1 && "Alice" in others;
    assert others == ["Alice"];
  }

  /**
   * A restart with Bob saved present: Alice's turn comes first, and she is seen at t=100.
   * Her join message lists nobody, because Bob is only put back in the house
   * at his own turn; his saved state is untouched.
   */
  method RestartFirstTurnScenario() returns (h: Roster, alice: Device, bob: Device)
    ensures h.log == [JoinMessage(100, "Alice", "Home", [])]
    ensures Load(h.store, "Bob") == Some(Snapshot(Present, 90, 0, 50))
    ensures bob !in h.devicesInHouse
  {
    h := new Roster("Home", map["Bob" := Snapshot(Present, 90, 0, 50)]);
    alice := h.AddDevice("aa:bb:cc:dd:ee:01", "Alice", 60, 0);
    bob := h.AddDevice("aa:bb:cc:dd:ee:02", "Bob", 60, 0);
    var seen := [HostAddresses("192.168.1.11", Some("aa:bb:cc:dd:ee:01")), HostAddresses("192.168.1.12", Some("aa:bb:cc:dd:ee:02"))];
    assert MacSeen(seen, alice.macAddress) by { assert seen[0].mac == Some(alice.macAddress); }
    h.PollDevice(alice, Probe(seen, 100, Written));
  }

  /**
   * The source's restore after a failed save: Alice was saved absent by an
   * earlier run, joins, her file cannot be opened for the save, and the next
   * restore makes her absent while leaving her among the devices in the house.
   */
  method StaleRestoreScenario() returns (h: Roster, alice: Device)
    ensures alice in h.allDevices && alice in h.devicesInHouse && alice.inHouse == Absent
    ensures !h.Valid()
  {
    h := new Roster("Home", map["Alice" := Snapshot(Absent, 0, 0, 0)]);
    alice := h.AddDevice("aa:bb:cc:dd:ee:01", "Alice", 60, 0);
    h.UnpickleAsWritten(alice);
    var seen := [HostAddresses("192.168.1.11", Some("aa:bb:cc:dd:ee:01"))];
    assert MacSeen(seen, alice.macAddress) by { assert seen[0].mac == Some(alice.macAddress); }
    h.ScanNetwork(alice, seen, 100);
    h.Pickle(alice, OpenFailed);
    h.UnpickleAsWritten(alice);
  }

  /** The same run with the corrected restore: Alice is absent and out of the house. */
  method StaleRestoreScenarioCorrected() returns (h: Roster, alice: Device)
    ensures alice in h.allDevices && alice !in h.devicesInHouse && alice.inHouse == Absent
    ensures h.Valid()
  {
    h := new Roster("Home", map["Alice" := Snapshot(Absent, 0, 0, 0)]);
    alice := h.AddDevice("aa:bb:cc:dd:ee:01", "Alice", 60, 0);
    h.Unpickle(alice);
    var seen := [HostAddresses("192.168.1.11", Some("aa:bb:cc:dd:ee:01"))];
    assert MacSeen(seen, alice.macAddress) by { assert seen[0].mac == Some(alice.macAddress); }
    h.ScanNetwork(alice, seen, 100);
    h.Pickle(alice, OpenFailed);
    h.Unpickle(alice);
  }
}
