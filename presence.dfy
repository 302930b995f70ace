/**
 * The debounce engine of WiScanner: one visibility sample per poll turns a
 * device's tri-state presence into join and leave transitions.  Time is a
 * whole number of seconds passed in by the caller.
 */
module Presence {
  import opened Wrappers

  /** The source's `inHouse`: None before the first observation, then True or False. */
  datatype Presence = Unknown | Present | Absent

  /** The mutable part of a device, which is also what is persisted between runs. */
  datatype Snapshot = Snapshot(inHouse: Presence, lastVisible: int, lastLeave: int, lastJoin: int)

  datatype Transition = NoTransition | Joined | Left

  /** The new state of a device after one sample, and whether it joined or left. */
  datatype Evaluation = Evaluation(state: Snapshot, transition: Transition)

  /** A freshly configured device: presence unknown, every timestamp at creation time. */
  function Initial(now: int): (r: Snapshot)
  {
    Snapshot(Unknown, now, now, now)
  }

  /** Elapsed whole seconds from `since` to `now`. */
  function SecondsSince(since: int, now: int): (r: int)
    ensures since + r == now
    ensures r >= 0 <==> since <= now
  {
    now - since
  }

  /** The state change of a join: the device is present and joined at `now`. */
  function Join(s: Snapshot, now: int): (r: Snapshot)
  {
    s.(inHouse := Present, lastJoin := now)
  }

  /** The state change of a leave: the device is absent and left at `now`. */
  function Leave(s: Snapshot, now: int): (r: Snapshot)
  {
    s.(inHouse := Absent, lastLeave := now)
  }

  /** The device's MAC address was in the scan: it was seen now, and joins unless already present. */
  function Visible(s: Snapshot, now: int): (r: Evaluation)
    ensures r.state.lastVisible == now && r.state.inHouse == Present
    ensures r.transition == Joined <==> s.inHouse != Present
    ensures r.transition != Left
    ensures r.state.lastLeave == s.lastLeave
    ensures r.transition == Joined ==> r.state.lastJoin == now
    ensures r.transition == NoTransition ==> r.state == s.(lastVisible := now)
  {
    var seen := s.(lastVisible := now);
    // "None or False" of the tri-state is "not present"
    if seen.inHouse != Present then Evaluation(Join(seen, now), Joined)
    else Evaluation(seen, NoTransition)
  }

  /**
   * The device's MAC address was not in the scan: it leaves only when it is
   * present and has been unseen for strictly longer than its threshold.
   */
  function Invisible(s: Snapshot, threshold: int, now: int): (r: Evaluation)
    ensures r.transition == Left <==> s.inHouse == Present && now - s.lastVisible > threshold
    ensures r.transition == Left <==> s.inHouse == Present && SecondsSince(s.lastVisible, now) > threshold
    ensures r.transition != Joined
    ensures r.transition == Left ==> r.state == s.(inHouse := Absent, lastLeave := now)
    ensures r.transition == NoTransition ==> r.state == s
  {
    if s.inHouse == Present && SecondsSince(s.lastVisible, now) > threshold then Evaluation(Leave(s, now), Left)
    else Evaluation(s, NoTransition)
  }

  /** One poll sample of one device. */
  function Step(s: Snapshot, visible: bool, threshold: int, now: int): (r: Evaluation)
    ensures r.transition != NoTransition <==> r.state.inHouse != s.inHouse
    ensures r.transition == Joined ==> visible && r.state.inHouse == Present && s.inHouse != Present
    ensures r.transition == Left ==> !visible && r.state.inHouse == Absent && s.inHouse == Present
    ensures visible ==> r.state.lastVisible == now
    ensures !visible ==> r.state.lastVisible == s.lastVisible
  {
    if visible then Visible(s, now) else Invisible(s, threshold, now)
  }

  // ---------------------------------------------------------------------------
  // Sequences of samples

  datatype Sample = Sample(visible: bool, now: int)

  /** The state after feeding `samples` to a device in order. */
  function Run(s: Snapshot, threshold: int, samples: seq<Sample>): (r: Snapshot)
    decreases |samples|
  {
    if samples == [] then s
    else Run(Step(s, samples[0].visible, threshold, samples[0].now).state, threshold, samples[1..])
  }

  /** The joins and leaves, in order, that `samples` cause. */
  function Transitions(s: Snapshot, threshold: int, samples: seq<Sample>): (ts: seq<Transition>)
    decreases |samples|
  {
    if samples == [] then []
    else
      var e := Step(s, samples[0].visible, threshold, samples[0].now);
      (if e.transition == NoTransition then [] else [e.transition]) + Transitions(e.state, threshold, samples[1..])
  }

  /**
   * Presence strictly alternates: a join is always followed by a leave and a
   * leave by a join; the first transition leaves a present device and joins
   * any other; the final presence is the one the last transition set.
   */
  lemma {:induction false} TransitionsAlternate(s: Snapshot, threshold: int, samples: seq<Sample>)
    ensures var ts := Transitions(s, threshold, samples);
      && (forall i :: 0 <= i < |ts| ==> ts[i] != NoTransition)
      && (forall i :: 0 <= i < |ts| - 1 ==> ts[i] != ts[i + 1])
      && (ts != [] ==> ts[0] == (if s.inHouse == Present then Left else Joined))
      && (ts != [] ==> Run(s, threshold, samples).inHouse == (if ts[|ts| - 1] == Joined then Present else Absent))
      && (ts == [] ==> Run(s, threshold, samples).inHouse == s.inHouse)
    decreases |samples|
  {
    if samples != [] {
      var e := Step(s, samples[0].visible, threshold, samples[0].now);
      TransitionsAlternate(e.state, threshold, samples[1..]);
    }
  }

  predicate AllInvisible(samples: seq<Sample>)
  {
    forall i :: 0 <= i < |samples| ==> !samples[i].visible
  }

  /**
   * Without a visible sample a device never joins, and leaves at most once:
   * only a present device can leave, and an unknown one stays unknown.
   */
  lemma {:induction false} UnseenLeavesAtMostOnce(s: Snapshot, threshold: int, samples: seq<Sample>)
    requires AllInvisible(samples)
    ensures var ts := Transitions(s, threshold, samples);
      && (ts == [] || ts == [Left])
      && (ts == [Left] ==> s.inHouse == Present)
      && (s.inHouse == Unknown ==> Run(s, threshold, samples) == s)
    decreases |samples|
  {
    if samples != [] {
      var e := Step(s, samples[0].visible, threshold, samples[0].now);
      UnseenLeavesAtMostOnce(e.state, threshold, samples[1..]);
    }
  }

  /**
   * The grace period: a present device missed by every scan for no longer
   * than its threshold (the boundary included) stays present, with no transition.
   */
  lemma {:induction false} GracePeriodHolds(s: Snapshot, threshold: int, samples: seq<Sample>)
    requires s.inHouse == Present && AllInvisible(samples)
    requires forall i :: 0 <= i < |samples| ==> samples[i].now - s.lastVisible <= threshold
    ensures Transitions(s, threshold, samples) == []
    ensures Run(s, threshold, samples) == s
    decreases |samples|
  {
    if samples != [] {
      GracePeriodHolds(s, threshold, samples[1..]);
    }
  }

  /**
   * The converse of the grace period: a present device missed by every scan,
   * unseen for longer than its threshold at some sample, leaves exactly once
   * and ends absent.
   */
  lemma {:induction false} UnseenPastThresholdLeavesOnce(s: Snapshot, threshold: int, samples: seq<Sample>)
    requires s.inHouse == Present && AllInvisible(samples)
    requires exists i :: 0 <= i < |samples| && samples[i].now - s.lastVisible > threshold
    ensures Transitions(s, threshold, samples) == [Left]
    ensures Run(s, threshold, samples).inHouse == Absent
    decreases |samples|
  {
    var e := Step(s, samples[0].visible, threshold, samples[0].now);
    if samples[0].now - s.lastVisible > threshold {
      UnseenLeavesAtMostOnce(e.state, threshold, samples[1..]);
      TransitionsAlternate(e.state, threshold, samples[1..]);
    } else {
      var i :| 0 <= i < |samples| && samples[i].now - s.lastVisible > threshold;
      assert samples[1..][i - 1] == samples[i];
      UnseenPastThresholdLeavesOnce(s, threshold, samples[1..]);
    }
  }

  /**
   * Timestamps never move backwards when the clock does not: a sample taken no
   * earlier than every recorded time leaves each timestamp the same or later.
   */
  lemma StepKeepsTimestampsMonotone(s: Snapshot, visible: bool, threshold: int, now: int)
    requires s.lastVisible <= now && s.lastJoin <= now && s.lastLeave <= now
    ensures var t := Step(s, visible, threshold, now).state;
      s.lastVisible <= t.lastVisible <= now && s.lastJoin <= t.lastJoin <= now && s.lastLeave <= t.lastLeave <= now
  {
  }

  // ---------------------------------------------------------------------------
  // The persistence store: one saved snapshot per device name

  type Store = map<string, Snapshot>

  /** What restoring the name finds: the saved snapshot, or nothing when no file was saved. */
  function Load(store: Store, name: string): (r: Option<Snapshot>)
    ensures r.Some? <==> name in store
    ensures r.Some? ==> r.value == store[name]
  {
    if name in store then Some(store[name]) else None
  }

  /** Saving a snapshot makes loading that name give it back and leaves every other name alone. */
  function Save(store: Store, name: string, s: Snapshot): (r: Store)
    ensures Load(r, name) == Some(s)
    ensures forall other :: other != name ==> Load(r, other) == Load(store, other)
  {
    store[name := s]
  }

  /**
   * How writing a device's file ended: the snapshot was written; opening the
   * file failed, so the old file is untouched; or opening succeeded (which
   * empties the file) and writing failed, leaving a file that cannot be loaded.
   */
  datatype WriteOutcome = Written | OpenFailed | WriteFailed

  /** The store after writing `s` under `name` with the given outcome; every other name is untouched. */
  function Write(store: Store, name: string, s: Snapshot, outcome: WriteOutcome): (r: Store)
    ensures outcome == Written ==> Load(r, name) == Some(s)
    ensures outcome == OpenFailed ==> Load(r, name) == Load(store, name)
    ensures outcome == WriteFailed ==> Load(r, name) == None
    ensures forall other :: other != name ==> Load(r, other) == Load(store, other)
  {
    match outcome
    case Written => Save(store, name, s)
    case OpenFailed => store
    case WriteFailed => store - {name}
  }

  /** Restoring overwrites the in-memory state with the saved one; nothing saved keeps it. */
  function Restore(s: Snapshot, loaded: Option<Snapshot>): (r: Snapshot)
    ensures loaded.Some? ==> r == loaded.value
    ensures loaded.None? ==> r == s
  {
    match loaded
    case Some(saved) => saved
    case None => s
  }

  /**
   * What the next restore finds after each way a write can end: the written
   * snapshot; after a failed open, whatever the old file gave; after a dump
   * that failed behind the emptying open, nothing, so the in-memory state
   * is kept.  Restoring another name is not affected by the write.
   */
  lemma RestoreAfterWrite(store: Store, name: string, x: Snapshot, outcome: WriteOutcome, s: Snapshot)
    ensures outcome == Written ==> Restore(s, Load(Write(store, name, x, outcome), name)) == x
    ensures outcome == OpenFailed ==> Restore(s, Load(Write(store, name, x, outcome), name)) == Restore(s, Load(store, name))
    ensures outcome == WriteFailed ==> Restore(s, Load(Write(store, name, x, outcome), name)) == s
    ensures forall other :: other != name ==>
      Restore(s, Load(Write(store, name, x, outcome), other)) == Restore(s, Load(store, other))
  {
  }

  /**
   * For one device a restart is invisible: saving its state, restoring it
   * into any process, and then sampling gives the same states and transitions
   * as an uninterrupted run.
   */
  lemma RestartIsTransparent(store: Store, name: string, s: Snapshot, anyState: Snapshot, threshold: int, samples: seq<Sample>)
    ensures Restore(anyState, Load(Save(store, name, s), name)) == s
    ensures Run(Restore(anyState, Load(Save(store, name, s), name)), threshold, samples) == Run(s, threshold, samples)
    ensures Transitions(Restore(anyState, Load(Save(store, name, s), name)), threshold, samples) == Transitions(s, threshold, samples)
  {
  }

  // ---------------------------------------------------------------------------
  // Occupancy after a restore

  /** The source's restore of the occupancy set: a restored present device is added, nothing is removed. */
  function RestoredOccupancyAsWritten<T>(occupancy: set<T>, d: T, restored: Presence): (r: set<T>)
    ensures occupancy <= r
    ensures restored == Present ==> d in r
    ensures restored != Present ==> r == occupancy
    ensures r - {d} == occupancy - {d}
  {
    if restored == Present then occupancy + {d} else occupancy
  }

  /** The intended restore: the device is in the occupancy set exactly when restored present. */
  function RestoredOccupancy<T>(occupancy: set<T>, d: T, restored: Presence): (r: set<T>)
    ensures d in r <==> restored == Present
    ensures r - {d} == occupancy - {d}
  {
    if restored == Present then occupancy + {d} else occupancy - {d}
  }

  /** The source's restore can leave a device in the occupancy set while its restored presence is absent. */
  lemma {:induction false} RestoreAsWrittenKeepsAbsentDevice<T>(d: T)
    ensures exists occupancy: set<T>, restored :: d in RestoredOccupancyAsWritten(occupancy, d, restored) && restored != Present
  {
    assert d in RestoredOccupancyAsWritten({d}, d, Absent);
  }
}
