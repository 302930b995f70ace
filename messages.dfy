/**
 * The text of the join and leave notifications.  A message is kept as a
 * value (who, where, when, and the other occupants listed); `Render` gives
 * the text that is sent.  Formatting a timestamp is a parameter.
 */
module Messages {
  import opened Names

  datatype Message =
    | JoinMessage(at: int, name: string, location: string, others: seq<string>)
    | LeaveMessage(at: int, name: string, location: string, lastSeen: int, others: seq<string>)

  /** The time prefix and the sentence saying who entered or left where. */
  function Head(m: Message, stamp: int -> string): (r: string)
    ensures stamp(m.at) + ": " + m.name <= r
    ensures r[|r| - 1] == '.'
  {
    match m
    case JoinMessage(at, name, location, _) =>
      stamp(at) + ": " + name + " entered " + location + "."
    case LeaveMessage(at, name, location, lastSeen, _) =>
      stamp(at) + ": " + name + " left " + location + " " + "(last seen " + stamp(lastSeen) + ")."
  }

  /** The phrase used when nobody else is listed. */
  function AlonePhrase(m: Message): string
  {
    if m.JoinMessage? then " He is alone." else " He was alone."
  }

  /** The words that introduce the listed occupants. */
  function OthersIntro(m: Message): string
  {
    if m.JoinMessage? then " Already there: " else " Still there: "
  }

  /** The occupancy clause: the other occupants, or the alone phrase when there are none. */
  function Clause(m: Message): (r: string)
    ensures m.others == [] ==> r == AlonePhrase(m)
    ensures m.others != [] ==> OthersIntro(m) + JoinNames(m.others) <= r
    ensures m.others != [] ==> |r| == |OthersIntro(m)| + |JoinNames(m.others)| + (if m.JoinMessage? then 1 else 0)
    ensures m.JoinMessage? && m.others != [] ==> r[|r| - 1] == '.'
  {
    match m
    case JoinMessage(_, _, _, others) =>
      if |others| > 0 then " Already there: " + JoinNames(others) + "." else " He is alone."
    case LeaveMessage(_, _, _, _, others) =>
      if |others| > 0 then " Still there: " + JoinNames(others) else " He was alone."
  }

  /** The text that is sent: the time prefix and sentence, then the occupancy clause. */
  function Render(m: Message, stamp: int -> string): (r: string)
    ensures Head(m, stamp) <= r && r[|Head(m, stamp)|..] == Clause(m)
    ensures stamp(m.at) + ": " + m.name <= r
  {
    Head(m, stamp) + Clause(m)
  }

  /** The message says the device is (or was) alone exactly when no other occupant is listed. */
  lemma AloneExactlyWhenNoOthers(m: Message, stamp: int -> string)
    ensures Render(m, stamp) == Head(m, stamp) + AlonePhrase(m) <==> m.others == []
  {
    if m.others != [] {
      assert Clause(m)[1] != AlonePhrase(m)[1];
      assert Render(m, stamp)[|Head(m, stamp)| + 1] == Clause(m)[1];
    }
  }

  /**
   * When others are listed, the clause after its introduction reads back as
   * exactly the listed names, in order (names without commas).
   */
  lemma {:induction false} ClauseListsOthers(m: Message)
    requires m.others != []
    requires forall i :: 0 <= i < |m.others| ==> NoComma(m.others[i])
    ensures m.JoinMessage? ==> exists t :: Clause(m) == " Already there: " + t + "." && SplitNames(t) == m.others
    ensures m.LeaveMessage? ==> exists t :: Clause(m) == " Still there: " + t && SplitNames(t) == m.others
  {
    JoinNamesRoundTrip(m.others);
    var t := JoinNames(m.others);
    assert SplitNames(t) == m.others;
  }
}
