/**
 * The devices and the process-wide occupancy of WiScanner.  The source keeps
 * the set of all devices and the set of devices in the house as class-level
 * sets of `Device`; here they are fields of a `Roster` that owns them,
 * together with the location, the log of sent messages and the store of
 * saved device states.
 */
module Wiscanner {
  import opened Wrappers
  import opened Presence
  import opened Scan
  import opened Messages

  /** One configured device: a fixed identity and its mutable presence state. */
  class Device {
    const macAddress: string
    const name: string
    const thresholdSeconds: int
    var inHouse: Presence
    var lastJoinTime: int
    var lastLeaveTime: int
    var lastVisibleTime: int

    /** The device's mutable state as a value. */
    function State(): Snapshot
      reads this
    {
      Snapshot(inHouse, lastVisibleTime, lastLeaveTime, lastJoinTime)
    }

    constructor (macAddress: string, name: string, thresholdSeconds: int, now: int)
      ensures this.macAddress == macAddress && this.name == name && this.thresholdSeconds == thresholdSeconds
      ensures State() == Initial(now)
    {
      this.macAddress := macAddress;
      this.name := name;
      this.thresholdSeconds := thresholdSeconds;
      inHouse := Unknown;
      lastJoinTime, lastLeaveTime, lastVisibleTime := now, now, now;
    }

    function SecondsSinceLastVisible(now: int): (r: int)
      reads this
      ensures lastVisibleTime + r == now
    {
      SecondsSince(lastVisibleTime, now)
    }
  }

  /** `names` lists the name of each device of `devices` once, in some order. */
  ghost predicate ListsNames(names: seq<string>, devices: set<Device>)
  {
    && |names| == |devices|
    && (forall n :: n in names ==> exists e :: e in devices && e.name == n)
    && (forall e :: e in devices ==> e.name in names)
  }

  /** The names of `devices`, one per device, in the set's (unspecified) iteration order. */
  method NamesIn(devices: set<Device>) returns (names: seq<string>)
    ensures ListsNames(names, devices)
  {
    names := [];
    var rest := devices;
    ghost var listed: set<Device> := {};
    while rest != {}
      invariant rest <= devices && listed == devices - rest
      invariant |names| == |listed|
      invariant forall n :: n in names ==> exists e :: e in listed && e.name == n
      invariant forall e :: e in listed ==> e.name in names
      decreases rest
    {
      var e :| e in rest;
      names := names + [e.name];
      rest := rest - {e};
      listed := listed + {e};
    }
  }

  /**
   * `log` is `before` plus one message announcing that `d` entered `location`
   * at `now`, listing the names of `others`.
   */
  ghost predicate LogsJoin(before: seq<Message>, log: seq<Message>, d: Device, now: int, location: string, others: set<Device>)
  {
    && |log| == |before| + 1 && log[..|before|] == before
    && log[|before|] == JoinMessage(now, d.name, location, log[|before|].others)
    && ListsNames(log[|before|].others, others)
  }

  /**
   * `log` is `before` plus one message announcing that `d`, last seen at
   * `lastSeen`, left `location` at `now`, listing the names of `others`.
   */
  ghost predicate LogsLeave(before: seq<Message>, log: seq<Message>, d: Device, now: int, lastSeen: int, location: string, others: set<Device>)
  {
    && |log| == |before| + 1 && log[..|before|] == before
    && log[|before|] == LeaveMessage(now, d.name, location, lastSeen, log[|before|].others)
    && ListsNames(log[|before|].others, others)
  }

  /** `log` is `before` followed by `n` more messages. */
  ghost predicate Extends(before: seq<Message>, log: seq<Message>, n: nat)
  {
    |before| <= |log| && log[..|before|] == before && |log| == |before| + n
  }

  lemma ExtendsTrans(log0: seq<Message>, log1: seq<Message>, log2: seq<Message>, m: nat, n: nat)
    requires Extends(log0, log1, m) && Extends(log1, log2, n)
    ensures Extends(log0, log2, m + n)
  {
  }

  /** What the environment gives one device's turn of a poll cycle. */
  datatype Probe = Probe(hosts: seq<HostAddresses>, now: int, write: WriteOutcome)

  /** A device's state at the end of its turn: restore from the store, then one sample. */
  function CycleState(s: Snapshot, stored: Option<Snapshot>, threshold: int, mac: string, p: Probe): (r: Snapshot)
    ensures MacSeen(p.hosts, mac) ==> r.lastVisible == p.now && r.inHouse == Present
    ensures !MacSeen(p.hosts, mac) ==> r.lastVisible == Restore(s, stored).lastVisible
    ensures !MacSeen(p.hosts, mac) && r.inHouse == Present ==> Restore(s, stored).inHouse == Present
    ensures stored.None? && !MacSeen(p.hosts, mac) && s.inHouse != Present ==> r == s
  {
    Step(Restore(s, stored), MacSeen(p.hosts, mac), threshold, p.now).state
  }

  /** Whether a device's turn makes it join or leave. */
  function CycleTransition(s: Snapshot, stored: Option<Snapshot>, threshold: int, mac: string, p: Probe): (t: Transition)
    ensures t != NoTransition <==> CycleState(s, stored, threshold, mac, p).inHouse != Restore(s, stored).inHouse
  {
    Step(Restore(s, stored), MacSeen(p.hosts, mac), threshold, p.now).transition
  }

  /**
   * `d` has had its turn, having started it in state `s0` with `stored`
   * saved under its name: it is in its end-of-turn state, and `saved`, what
   * is saved under its name now, is what the write left there.
   */
  ghost predicate Finished(d: Device, s0: Snapshot, stored: Option<Snapshot>, saved: Option<Snapshot>, p: Probe)
    reads d
  {
    && d.State() == CycleState(s0, stored, d.thresholdSeconds, d.macAddress, p)
    && saved == (match p.write
                 case Written => Some(d.State())
                 case OpenFailed => stored
                 case WriteFailed => None)
  }

  /** `d`'s turn, started in state `s0` with `stored` saved under its name, makes it join or leave. */
  ghost predicate Moves(d: Device, s0: Snapshot, stored: Option<Snapshot>, p: Probe)
  {
    CycleTransition(s0, stored, d.thresholdSeconds, d.macAddress, p) != NoTransition
  }

  /**
   * Where `d` stands in a poll cycle started in state `s0` with `stored`
   * saved under its name, `saved` being saved there now: untouched while
   * `waiting`, otherwise finished, and `moved` exactly when its turn made
   * it join or leave.
   */
  ghost predicate Turn(d: Device, waiting: bool, moved: bool, s0: Snapshot, stored: Option<Snapshot>, saved: Option<Snapshot>, p: Probe)
    reads d
  {
    if waiting then d.State() == s0 && saved == stored
    else Finished(d, s0, stored, saved, p) && (moved <==> Moves(d, s0, stored, p))
  }

  /** No device of `devices` is named `n`, so nothing saves under that name. */
  predicate Unclaimed(devices: set<Device>, n: string)
  {
    forall e :: e in devices ==> e.name != n
  }

  /** All devices, the ones in the house, and what was sent and saved. */
  class Roster {
    const location: string
    var allDevices: set<Device>
    var devicesInHouse: set<Device>
    var log: seq<Message>
    var store: Store

    /**
     * The occupancy invariant: a device is in the house exactly when its
     * presence is Present; device names (the store's keys) are distinct.
     */
    ghost predicate Valid()
      reads this, allDevices
    {
      && devicesInHouse <= allDevices
      && (forall d :: d in allDevices ==> (d in devicesInHouse <==> d.inHouse == Present))
      && (forall d, e :: d in allDevices && e in allDevices && d.name == e.name ==> d == e)
    }

    constructor (location: string, store: Store)
      ensures Valid()
      ensures this.location == location && this.store == store
      ensures allDevices == {} && devicesInHouse == {} && log == []
    {
      this.location := location;
      this.store := store;
      allDevices, devicesInHouse, log := {}, {}, [];
    }

    /** A device built from one configuration section; section names are unique. */
    method AddDevice(macAddress: string, name: string, thresholdSeconds: int, now: int) returns (d: Device)
      requires Valid()
      requires forall e :: e in allDevices ==> e.name != name
      modifies this`allDevices
      ensures Valid() && fresh(d)
      ensures allDevices == old(allDevices) + {d}
      ensures d.macAddress == macAddress && d.name == name && d.thresholdSeconds == thresholdSeconds
      ensures d.State() == Initial(now)
    {
      d := new Device(macAddress, name, thresholdSeconds, now);
      allDevices := allDevices + {d};
    }

    /**
     * A join: the device becomes present at `now`; the message lists the
     * occupants before the device is added, so never the device itself.
     */
    method ReportJoin(d: Device, now: int)
      requires Valid() && d in allDevices && d.inHouse != Present
      modifies this`devicesInHouse, this`log, d
      ensures Valid()
      ensures d.State() == Join(old(d.State()), now)
      ensures devicesInHouse == old(devicesInHouse) + {d}
      ensures LogsJoin(old(log), log, d, now, location, old(devicesInHouse))
      ensures d.name !in log[|old(log)|].others
      ensures log[|old(log)|].others == [] <==> old(devicesInHouse) == {}
    {
      d.lastJoinTime := now;
      d.inHouse := Present;
      var others := NamesIn(devicesInHouse);
      log := log + [JoinMessage(now, d.name, location, others)];
      devicesInHouse := devicesInHouse + {d};
    }

    /**
     * A leave: the device becomes absent at `now` and is removed before the
     * message is composed, so the message lists only the remaining occupants.
     */
    method ReportLeave(d: Device, now: int)
      requires Valid() && d in allDevices && d.inHouse == Present
      modifies this`devicesInHouse, this`log, d
      ensures Valid()
      ensures d.State() == Leave(old(d.State()), now)
      ensures devicesInHouse == old(devicesInHouse) - {d}
      ensures LogsLeave(old(log), log, d, now, d.lastVisibleTime, location, devicesInHouse)
      ensures d.name !in log[|old(log)|].others
      ensures log[|old(log)|].others == [] <==> devicesInHouse == {}
    {
      d.lastLeaveTime := now;
      d.inHouse := Absent;
      devicesInHouse := devicesInHouse - {d};
      var others := NamesIn(devicesInHouse);
      log := log + [LeaveMessage(now, d.name, location, d.lastVisibleTime, others)];
    }

    /** A sample in which the device was not seen. */
    method ReportInvisible(d: Device, now: int)
      requires Valid() && d in allDevices
      modifies this`devicesInHouse, this`log, d
      ensures Valid()
      ensures var e := Invisible(old(d.State()), d.thresholdSeconds, now);
        && d.State() == e.state
        && devicesInHouse == (if e.transition == Left then old(devicesInHouse) - {d} else old(devicesInHouse))
        && (e.transition == Left ==> LogsLeave(old(log), log, d, now, d.lastVisibleTime, location, devicesInHouse))
        && (e.transition == NoTransition ==> log == old(log))
    {
      if d.inHouse == Present && d.SecondsSinceLastVisible(now) > d.thresholdSeconds {
        ReportLeave(d, now);
      }
    }

    /** A sample in which the device was seen. */
    method ReportVisible(d: Device, now: int)
      requires Valid() && d in allDevices
      modifies this`devicesInHouse, this`log, d
      ensures Valid()
      ensures var e := Visible(old(d.State()), now);
        && d.State() == e.state
        && devicesInHouse == (if e.transition == Joined then old(devicesInHouse) + {d} else old(devicesInHouse))
        && (e.transition == Joined ==> LogsJoin(old(log), log, d, now, location, old(devicesInHouse)))
        && (e.transition == NoTransition ==> log == old(log))
    {
      d.lastVisibleTime := now;
      if d.inHouse == Unknown || d.inHouse == Absent {
        ReportJoin(d, now);
      }
    }

    /** Look for the device's MAC address among the scanned hosts and report the sample. */
    method ScanNetwork(d: Device, hosts: seq<HostAddresses>, now: int)
      requires Valid() && d in allDevices
      modifies this`devicesInHouse, this`log, d
      ensures Valid()
      ensures devicesInHouse - {d} == old(devicesInHouse) - {d}
      ensures var e := Step(old(d.State()), MacSeen(hosts, d.macAddress), d.thresholdSeconds, now);
        && d.State() == e.state
        && (e.transition == Joined ==> LogsJoin(old(log), log, d, now, location, devicesInHouse - {d}))
        && (e.transition == Left ==> LogsLeave(old(log), log, d, now, d.lastVisibleTime, location, devicesInHouse))
        && (e.transition == NoTransition ==> log == old(log))
    {
      var found := FindMac(hosts, d.macAddress);
      if found {
        ReportVisible(d, now);
      } else {
        ReportInvisible(d, now);
      }
    }

    /** Save the device's state under its name; `outcome` is how the file write ended. */
    method Pickle(d: Device, outcome: WriteOutcome)
      modifies this`store
      ensures store == Write(old(store), d.name, d.State(), outcome)
    {
      if outcome == Written {
        store := store[d.name := d.State()];
      } else if outcome == WriteFailed {
        store := store - {d.name};
      }
    }

    /**
     * Restore the device's state saved under its name, if any; a restored
     * present device is put in the house and any other taken out of it.
     */
    method Unpickle(d: Device)
      requires Valid() && d in allDevices
      modifies this`devicesInHouse, d
      ensures Valid()
      ensures d.State() == Restore(old(d.State()), Load(store, d.name))
      ensures d.name in store ==> devicesInHouse == RestoredOccupancy(old(devicesInHouse), d, d.inHouse)
      ensures d.name !in store ==> devicesInHouse == old(devicesInHouse)
    {
      if d.name in store {
        var saved := store[d.name];
        d.inHouse := saved.inHouse;
        d.lastVisibleTime := saved.lastVisible;
        d.lastLeaveTime := saved.lastLeave;
        d.lastJoinTime := saved.lastJoin;
        devicesInHouse := RestoredOccupancy(devicesInHouse, d, d.inHouse);
      }
    }

    /** The source's restore: a restored present device is added, but nothing is ever removed. */
    method UnpickleAsWritten(d: Device)
      requires d in allDevices
      modifies this`devicesInHouse, d
      ensures d.State() == Restore(old(d.State()), Load(store, d.name))
      ensures d.name in store ==> devicesInHouse == RestoredOccupancyAsWritten(old(devicesInHouse), d, d.inHouse)
      ensures d.name !in store ==> devicesInHouse == old(devicesInHouse)
    {
      if d.name in store {
        var saved := store[d.name];
        d.inHouse := saved.inHouse;
        d.lastVisibleTime := saved.lastVisible;
        d.lastLeaveTime := saved.lastLeave;
        d.lastJoinTime := saved.lastJoin;
        if d.inHouse == Present {
          devicesInHouse := devicesInHouse + {d};
        }
      }
    }

    /** The devices whose turn in a poll cycle, started now, makes them join or leave. */
    ghost function Movers(probe: Device -> Probe): set<Device>
      reads this, allDevices
    {
      set d | d in allDevices && Moves(d, d.State(), Load(store, d.name), probe(d))
    }

    /** One device's turn of a poll cycle: restore it, sample it against its scan, save it. */
    method PollDevice(d: Device, p: Probe)
      requires Valid() && d in allDevices
      modifies this`devicesInHouse, this`log, this`store, d
      ensures Valid()
      ensures devicesInHouse - {d} == old(devicesInHouse) - {d}
      ensures d.State() == CycleState(old(d.State()), Load(old(store), d.name), d.thresholdSeconds, d.macAddress, p)
      ensures store == Write(old(store), d.name, d.State(), p.write)
      ensures Extends(old(log), log, if Moves(d, old(d.State()), Load(old(store), d.name), p) then 1 else 0)
      ensures var e := Step(Restore(old(d.State()), Load(old(store), d.name)), MacSeen(p.hosts, d.macAddress), d.thresholdSeconds, p.now);
        && (e.transition == Joined ==> LogsJoin(old(log), log, d, p.now, location, devicesInHouse - {d}))
        && (e.transition == Left ==> LogsLeave(old(log), log, d, p.now, d.lastVisibleTime, location, devicesInHouse))
        && (e.transition == NoTransition ==> log == old(log))
    {
      Unpickle(d);
      ScanNetwork(d, p.hosts, p.now);
      Pickle(d, p.write);
    }

    /** `PollDevice` seen only through what a poll cycle needs of it. */
    method PollTurn(d: Device, p: Probe)
      requires Valid() && d in allDevices
      modifies this`devicesInHouse, this`log, this`store, d
      ensures Valid()
      ensures Finished(d, old(d.State()), Load(old(store), d.name), Load(store, d.name), p)
      ensures forall e :: e in allDevices && e != d ==> Load(store, e.name) == Load(old(store), e.name)
      ensures forall n :: n != d.name ==> Load(store, n) == Load(old(store), n)
      ensures Extends(old(log), log, if Moves(d, old(d.State()), Load(old(store), d.name), p) then 1 else 0)
    {
      PollDevice(d, p);
    }

    /**
     * Part of a poll cycle is done: the devices outside `rest` have had their
     * turn, started in the states `before` with the store `store0`, and the
     * others are untouched; after `log0`, one message was logged for each
     * device of `moved`, the finished devices that joined or left.
     */
    ghost predicate CycleProgress(rest: set<Device>, before: map<Device, Snapshot>, store0: Store,
                                  log0: seq<Message>, moved: set<Device>, probe: Device -> Probe)
      reads this, allDevices
    {
      && rest <= allDevices && Valid()
      && (forall d :: d in allDevices ==> d in before && Turn(d, d in rest, d in moved, before[d], Load(store0, d.name), Load(store, d.name), probe(d)))
      && moved <= allDevices - rest
      && (forall n :: Unclaimed(allDevices, n) ==> Load(store, n) == Load(store0, n))
      && Extends(log0, log, |moved|)
    }

    /** The next device's turn keeps the progress of the cycle. */
    method PollNext(d: Device, probe: Device -> Probe, ghost rest: set<Device>, ghost before: map<Device, Snapshot>,
                    ghost store0: Store, ghost log0: seq<Message>, ghost moved: set<Device>)
      returns (ghost moved': set<Device>)
      requires d in rest && CycleProgress(rest, before, store0, log0, moved, probe)
      modifies this`devicesInHouse, this`log, this`store, d
      ensures CycleProgress(rest - {d}, before, store0, log0, moved', probe)
    {
      ghost var log1 := log;
      PollTurn(d, probe(d));
      ghost var k: nat := if Moves(d, before[d], Load(store0, d.name), probe(d)) then 1 else 0;
      moved' := if k == 1 then moved + {d} else moved;
      ExtendsTrans(log0, log1, log, |moved|, k);
    }

    /**
     * One poll cycle: every device in turn (in the set's iteration order) is
     * restored, sampled against its scan, and saved.  Exactly one message is
     * logged for each device whose turn makes it join or leave.
     */
    method PollCycle(probe: Device -> Probe)
      requires Valid()
      modifies this`devicesInHouse, this`log, this`store, allDevices
      ensures Valid() && allDevices == old(allDevices)
      ensures forall d :: d in allDevices ==>
        d.State() == CycleState(old(d.State()), Load(old(store), d.name), d.thresholdSeconds, d.macAddress, probe(d))
      ensures forall d :: d in allDevices ==>
        Load(store, d.name) == Load(Write(old(store), d.name, d.State(), probe(d).write), d.name)
      ensures forall n :: Unclaimed(allDevices, n) ==> Load(store, n) == Load(old(store), n)
      ensures |old(log)| <= |log| && log[..|old(log)|] == old(log)
      ensures |log| == |old(log)| + |old(Movers(probe))|
    {
      ghost var before := map d | d in allDevices :: d.State();
      ghost var moved: set<Device> := {};
      var rest := allDevices;
      while rest != {}
        invariant allDevices == old(allDevices)
        invariant CycleProgress(rest, before, old(store), old(log), moved, probe)
        decreases rest
      {
        var d :| d in rest;
        moved := PollNext(d, probe, rest, before, old(store), old(log), moved);
        rest := rest - {d};
      }
      assert moved == old(Movers(probe));
    }
  }
}
