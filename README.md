# WiScanner presence debouncing, modelled in Dafny

WiScanner polls the local network and announces when known devices (phones, by
MAC address) arrive at or leave a location. Its core is the `Device` class of
`wiscanner.py`. Each poll reduces to one boolean sample per device: was its MAC
address in the scan? The class turns these samples into join and leave
transitions. A per-device threshold sets a grace period before a leave. The
process-wide set `devicesInHouse` holds the present devices. A notification
text names the other occupants. Each device's mutable state is saved and
restored around every poll.

The project has these modules:

- `Presence` (`presence.dfy`) holds the debounce engine as pure functions.
  The tri-state `inHouse` (None/True/False) is `Unknown | Present | Absent`.
  A device's mutable state is a `Snapshot`. `Visible`, `Invisible` and `Step`
  give the new state and the transition for one sample. `Run` and
  `Transitions` follow a device through a sequence of samples. The module also
  holds the map-based persistence store (`Load`, `Save`, `Restore`) and the
  two ways a restore can update the occupancy set.
- `Scan` (`scan.dfy`) holds the host records of one scan, the predicate
  `MacSeen` and the search loop `FindMac`.
- `Names` (`names.dfy`) holds `JoinNames` (`", ".join`) and, as its inverse,
  `SplitNames` (`split(", ")`).
- `Messages` (`messages.dfy`) holds the join and leave notifications as
  values, and `Render`, which gives the text that is sent. Timestamp
  formatting is a function parameter.
- `Wiscanner` (`wiscanner.dfy`) holds the classes. A `Device` has its own
  fields. A `Roster` owns the sets that the source keeps at class level
  (`allDevices`, `devicesInHouse`), plus the location, the log of sent
  messages and the store. The report methods, the scan, pickle, unpickle and
  one poll cycle are methods that update these fields in place. Each one is
  proved against the `Presence` functions. The invariant `Valid()` says that
  a device is in `devicesInHouse` exactly when its `inHouse` is `Present`.
  Every method that changes the device fields or the occupancy set keeps it,
  except `UnpickleAsWritten`, the source's restore, which can break it (see
  Findings). `Pickle` touches only the store, so it neither needs nor
  promises `Valid()`.
- `Scenarios` (`scenarios.dfy`) holds concrete runs: Alice joins and leaves
  alone; a leaving device's message names the other occupant; a restart in
  which the first device's join does not yet list a device saved as
  present; and the stale-restore run of the finding below.

The model takes these inputs as parameters:

- Time is an integer `now`, in seconds.
- The scan result is a sequence of host records, each with an optional MAC.
- How a pickle file write ended is a `WriteOutcome`: `Written`, `OpenFailed`
  (the file could not be opened, so the old file stays) or `WriteFailed`
  (the file was opened, which empties it, and then the dump failed, so
  nothing can be restored from it).
- The pickle files are a `map` from device name to `Snapshot`.
- Notifications are appended to `log`.

In these places the model follows the code, although a reader might expect
otherwise:

- The texts are "Already there: …." and "He is alone." on a join, and
  "Still there: …" (no final period) and "He was alone." on a leave.
- A MAC address matches only if it is exactly equal (no case folding).
- The join message is composed before the device is added to the set. It
  therefore lists the other occupants, the same as "add, then exclude self".
- A restored state is not checked for consistency.

## Model

| member | source | states |
|---|---|---|
| `Presence.Visible` | wiscanner.py:61-66 | A visible sample always sets lastVisible to now and leaves the device present. It joins, with lastJoin set to now, exactly when the device was not already present. A device already present changes only lastVisible: joins are idempotent. |
| `Presence.Invisible` | wiscanner.py:55-58 | An invisible sample leaves exactly when the device is present and the time since it was last seen (`SecondsSince(lastVisible, now)`, that is now - lastVisible) is strictly greater than the threshold. A leave sets presence Absent and lastLeave to now. In every other case, including the exact boundary and Unknown or Absent presence, nothing changes. |
| `Presence.Step` | wiscanner.py:100-104 | One sample: a transition happens exactly when presence changes. A join needs a visible sample and a device not present. A leave needs an invisible sample and a present device. lastVisible moves only on a visible sample. |
| `Presence.TransitionsAlternate` | wiscanner.py:55-66 | Over any sequence of samples, joins and leaves strictly alternate. The first transition is a leave for a present device and a join otherwise. The final presence is the one the last transition set, or the initial one if there was none. |
| `Presence.UnseenLeavesAtMostOnce` | wiscanner.py:55-58 | Without a visible sample a device never joins and leaves at most once. Only a present device can leave. An Unknown device stays exactly as it was (no spurious leave). |
| `Presence.GracePeriodHolds` | wiscanner.py:57 | A present device missed by every scan for at most its threshold seconds, the boundary included, has no transition and an unchanged state. |
| `Presence.UnseenPastThresholdLeavesOnce` | wiscanner.py:55-58 | A present device missed by every scan, which at some sample has been unseen for strictly longer than its threshold, leaves exactly once and ends absent. |
| `Presence.StepKeepsTimestampsMonotone` | wiscanner.py:29-62 | With a clock that does not go backwards, a sample leaves every timestamp the same or later. |
| `Presence.SecondsSince` | wiscanner.py:82-85 | A definition (whole seconds from `since` to `now`). What it decides, a leave exactly when a present device's time since last seen exceeds its threshold, is stated by `Presence.Invisible`. |
| `Presence.Load` | wiscanner.py:155-156 | A definition (the snapshot saved under the name, if any). What a load gives back after each kind of save is stated by `Presence.Save`, `Presence.Write` and `Presence.RestoreAfterWrite`. |
| `Presence.Save` | wiscanner.py:144-150 | After saving a snapshot under a name, loading that name gives it back. Every other name loads as before. |
| `Presence.Write` | wiscanner.py:144-150 | A completed write makes the name load as the written snapshot. A failed open leaves what the name loads unchanged. A write that fails after the open leaves nothing loadable under the name. No other name changes. |
| `Presence.Restore` | wiscanner.py:155-160 | A definition (a loaded snapshot replaces the four fields; nothing loaded keeps them). What a restore gives after each kind of save is stated by `Presence.RestoreAfterWrite`, and that a saved state restores into an identical future by `Presence.RestartIsTransparent`. |
| `Presence.RestoreAfterWrite` | wiscanner.py:144-160 | The restore after a completed write gives exactly the written snapshot. After a failed open it gives what the old file gave. After a dump that failed behind the emptying open it finds nothing and keeps the in-memory state. Restores of other names are not affected. |
| `Presence.RestartIsTransparent` | wiscanner.py:144-160 | For one device: saving then restoring reproduces presence and the three timestamps exactly, and any later sequence of samples then gives the same states and transitions as an uninterrupted run. It says nothing about the occupancy set of the whole roster (see Left out). |
| `Presence.RestoredOccupancyAsWritten` | wiscanner.py:162-163 | The source's restore: the occupancy set only grows, a device restored present is in it, and for any other restored presence the set is unchanged. No other device's membership ever changes. |
| `Presence.RestoredOccupancy` | wiscanner.py:162-163 | The corrected restore: the device is in the occupancy set exactly when its restored presence is Present. No other device's membership changes. |
| `Presence.RestoreAsWrittenKeepsAbsentDevice` | wiscanner.py:162-163 | The source's restore can leave a device in the occupancy set although its restored presence is not Present. |
| `Scan.FindMac` | wiscanner.py:99-104 | The search returns true exactly when some host record has a MAC exactly equal to the device's. Records without a MAC are ignored. |
| `Names.JoinNames` | wiscanner.py:135-137 | Joining the names gives "" for none. Otherwise it starts with the first name and is exactly as long as the names plus two characters per separator. |
| `Names.JoinNamesRoundTrip` | wiscanner.py:135-137 | For names without commas, splitting the joined text at ", " gives back exactly the names, in order. |
| `Messages.Head` | wiscanner.py:31-47 | The sentence starts with the time prefix, ": " and the device's name, and ends with a period. |
| `Messages.Clause` | wiscanner.py:33-51 | With nobody else listed the clause is exactly the alone phrase. Otherwise it is the introduction ("Already there: " or "Still there: ") followed by the joined names: on a join one more character follows, a final period; on a leave nothing follows. |
| `Messages.Render` | wiscanner.py:31-52 | A definition (the head sentence followed by the occupancy clause). What the text says is stated by `Messages.AloneExactlyWhenNoOthers` (alone exactly when nobody else is listed) and `Messages.ClauseListsOthers` (the listed names read back exactly). |
| `Messages.AloneExactlyWhenNoOthers` | wiscanner.py:31-51 | The text is the head followed by exactly the alone phrase (" He is alone." on a join, " He was alone." on a leave) exactly when no other occupant is listed. |
| `Messages.ClauseListsOthers` | wiscanner.py:33-51 | When others are listed, the text after "Already there: " or "Still there: " reads back as exactly those names. |
| `Wiscanner.Device.constructor` | wiscanner.py:19-24 | A new device has the given MAC, name and threshold, presence Unknown and all three timestamps at creation time. |
| `Wiscanner.Device.SecondsSinceLastVisible` | wiscanner.py:77-78 | A definition (`SecondsSince` from the device's last-visible time). What it decides is stated by `Wiscanner.Roster.ReportInvisible`: the new state is `Invisible` of the old one, which leaves exactly when this time exceeds the threshold. |
| `Wiscanner.CycleState` | wiscanner.py:196-203 | A device's state after its turn. If seen, it is present and last seen now. If not seen, its last-visible time is the restored one, it is present only if it was restored present, and with nothing saved an absent or unknown device is unchanged. |
| `Wiscanner.CycleTransition` | wiscanner.py:196-203 | A turn makes the device join or leave exactly when its presence after the turn differs from its restored presence. |
| `Wiscanner.Roster.constructor` | wiscanner.py:15-16 | The roster starts with no devices, nobody in the house, an empty message log and the given store, and the occupancy invariant holds. |
| `Wiscanner.Roster.AddDevice` | wiscanner.py:25 | A configured device (with a name not used before) joins allDevices with its initial state, and the invariant holds. |
| `Wiscanner.NamesIn` | wiscanner.py:136 | The name list has one entry per device of the set and names exactly the set's devices. |
| `Wiscanner.Roster.ReportJoin` | wiscanner.py:28-38 | The device becomes present with lastJoin now and is added to devicesInHouse. One join message is logged. It lists exactly the occupants before the add, never the joining device, and says alone exactly when there were none. The invariant is kept. |
| `Wiscanner.Roster.ReportLeave` | wiscanner.py:41-52 | The device becomes absent with lastLeave now and is removed from devicesInHouse. One leave message is logged, carrying the last-seen time. It lists exactly the remaining occupants, never the leaving device, and says alone exactly when none remain. The invariant is kept. |
| `Wiscanner.Roster.ReportInvisible` | wiscanner.py:55-58 | The device's new state is `Invisible` of the old one. A leave removes it from the house and logs one leave message. Otherwise the house and the log are unchanged. |
| `Wiscanner.Roster.ReportVisible` | wiscanner.py:61-66 | The device's new state is `Visible` of the old one. A join adds it to the house and logs one join message. Otherwise the house and the log are unchanged. |
| `Wiscanner.Roster.ScanNetwork` | wiscanner.py:99-104 | The device's new state is `Step` of the old one, with visibility = `MacSeen` of the scan. No other device's occupancy changes. The log gains a join message, a leave message or nothing, according to the transition. |
| `Wiscanner.Roster.Pickle` | wiscanner.py:144-150 | The store becomes `Write` of the old store with the device's snapshot and the write's outcome: saved on success, untouched when the open fails, and the name's saved state lost when the dump fails after the open. |
| `Wiscanner.Roster.Unpickle` | wiscanner.py:153-165 | The saved state, if any, replaces the device's four mutable fields. The device is then in the house exactly when restored present (see Findings), and the invariant is kept. Nothing saved changes nothing. |
| `Wiscanner.Roster.UnpickleAsWritten` | wiscanner.py:153-165 | The source's restore: the saved state replaces the four fields and a restored present device is added. Nothing is removed, so the invariant is not promised. |
| `Wiscanner.Roster.PollDevice` | wiscanner.py:196-203 | One device's turn: restore, sample, save, with the corrected restore of the Findings row (`Unpickle`), not the source's. The new state is `CycleState` of the old state and the store. The store is `Write` of the old store with the new state and the write's outcome. The log gains exactly one message if the turn moves the device and none otherwise, and that message is the one of the transition. The invariant is kept. |
| `Wiscanner.Roster.PollCycle` | wiscanner.py:195-203 | After every device's turn, each taken with the corrected restore of the Findings row, each device's state is its `CycleState` and what is saved under its name is what its write left. The invariant holds. Old messages stay at the head of the log, followed by exactly one new message per device whose turn makes it join or leave; with no such device the log is unchanged. What is saved under a name no device has is unchanged. |
| `Scenarios.AliceJoinsAndLeaves` | wiscanner.py:28-66 | Alice (threshold 60) is seen at t=100 and joins alone. At t=130 nothing happens. At t=170 (70 s unseen) she leaves alone: exactly two messages. |
| `Scenarios.OtherOccupantListed` | wiscanner.py:41-52 | With Alice and Bob present, Bob's leave message lists exactly ["Alice"]. |
| `Scenarios.RestartFirstTurnScenario` | wiscanner.py:195-203 | After a restart with Bob saved present, Alice, whose turn comes first, is seen at t=100: her join message lists nobody, because Bob is only put back in the house at his own turn. Bob's saved state is untouched. |
| `Scenarios.StaleRestoreScenario` | wiscanner.py:153-165 | With the source's restore, a save whose file cannot be opened followed by a restore leaves Alice absent but in devicesInHouse: the invariant is broken. |
| `Scenarios.StaleRestoreScenarioCorrected` | wiscanner.py:153-165 | The same run with the corrected restore leaves Alice absent, out of the house, and the invariant holds. |

## Left out

- The nmap scanner construction, the scan call and the exit when nmap is
  missing (wiscanner.py:89-98) are external processes. Only the matching of
  the returned host records is modelled.
- Twitter, Pushover and console delivery (wiscanner.py:107-131) are foreign
  calls. Sending a message is appending it to `log`, and it always succeeds.
  In the source, a failing Twitter call raises out of `__sendToTwitter` and
  nothing catches it. A join then stops after the device is marked present
  but before it is added to `devicesInHouse` (line 38 is not reached), and
  the process ends before the device is pickled (line 203). The model has no
  failing delivery and no abnormal end of the process.
- File open, pickle serialisation and the bare `except` handlers are file
  I/O. The store is a map. How a write ended is a `WriteOutcome`. A missing,
  empty or unreadable file is a name absent from the map. A dump that fails
  part-way leaves a file that cannot be loaded, which is the same as an
  empty one.
- Configuration reading and the global constants (wiscanner.py:173-192) are
  configuration I/O. Location, threshold and names are parameters.
- `time.sleep` and the endless `while True` (wiscanner.py:194-206) are
  scheduling. One poll cycle is modelled.
- `datetime.now()`, `strftime` and the float `total_seconds()` are replaced.
  Times are integer seconds. Formatting a timestamp is a parameter of
  `Render`.
- `__str__` (wiscanner.py:140-141) is debug output.
- `secondsSinceLastJoin` and `secondsSinceLastLeave` (wiscanner.py:69-74)
  are not modelled: nothing in the source calls them.
- Wiscanner.Roster.PollDevice: one `now` is used for the whole turn. The
  source reads the clock separately for the visibility time, the join or
  leave time and the elapsed-time test. The turn restores with the corrected
  `Unpickle`. With the source's restore (`UnpickleAsWritten`) the invariant
  is not kept: a device restored absent from a stale file stays in
  `devicesInHouse` (Scenarios.StaleRestoreScenario shows the broken
  invariant). In the source its next join then lists its own name, because
  the join text is built from `devicesInHouse` (wiscanner.py:33-34); the
  model's `ReportJoin` needs the invariant, so no member shows that text.
- Wiscanner.Roster.PollCycle: states how many messages are appended, not
  their contents or order. The messages of each turn are stated by
  PollDevice, because their interleaving depends on the set's unspecified
  iteration order.
- Wiscanner.Roster.PollCycle: built on the corrected `Unpickle`, like
  PollDevice. With the source's restore (`UnpickleAsWritten`) the invariant
  it promises does not hold after a stale restore
  (Scenarios.StaleRestoreScenario).
- Presence.RestartIsTransparent: holds per device only. After a restart
  `devicesInHouse` starts empty, and each device is put back only at its own
  unpickle. Until its turn, a device saved as present is missing from the
  join and leave messages of the devices before it
  (Scenarios.RestartFirstTurnScenario).
- Wiscanner.NamesIn: the order of the names is the set's iteration
  order. Only membership and count are stated, not an order.
- Wiscanner.Roster.Unpickle: follows the corrected restore of the finding
  below. The source's behaviour is Wiscanner.Roster.UnpickleAsWritten.

## Findings

| source | as written | input that shows it | evidently intended | confidence | as-written member | corrected member |
|---|---|---|---|---|---|---|
| wiscanner.py:162-163 | `unpickle` adds a device restored as present to `devicesInHouse` but never removes one restored as not present | Alice's saved state has inHouse False. She is seen and joins, so she is in `devicesInHouse`. Her pickle file cannot be opened for writing, so the old file stays. At the next unpickle she is absent but still in `devicesInHouse`, so later messages list her and she can never leave. | A device is in `devicesInHouse` exactly when its `inHouse` is True | medium, not executed | Scenarios.StaleRestoreScenario | Wiscanner.Roster.Unpickle |

With the corrected restore the occupancy set stays right, but the stale file
still wins: while the open keeps failing, every cycle restores Alice as
absent, and if she is seen she joins again, so her join is announced once
per cycle. That follows from the source's choice to restore before every
sample and is kept.
