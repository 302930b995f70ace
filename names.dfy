/** The comma-separated list of device names that messages mention. */
module Names {

  /** Python's `", ".join(names)`: the names separated by a comma and a space, "" for none. */
  function JoinNames(names: seq<string>): (r: string)
    ensures names == [] ==> r == ""
    ensures names != [] ==> names[0] <= r
    ensures names != [] ==> |r| == TotalLength(names) + 2 * (|names| - 1)
  {
    if names == [] then ""
    else if |names| == 1 then names[0]
    else names[0] + ", " + JoinNames(names[1..])
  }

  function TotalLength(names: seq<string>): nat
  {
    if names == [] then 0 else |names[0]| + TotalLength(names[1..])
  }

  /** Python's `s.split(", ")`: the pieces between the leftmost non-overlapping separators. */
  function SplitNames(s: string): (r: seq<string>)
    ensures |r| >= 1
  {
    if |s| == 0 then [""]
    else if |s| >= 2 && s[0] == ',' && s[1] == ' ' then [""] + SplitNames(s[2..])
    else
      var rest := SplitNames(s[1..]);
      [[s[0]] + rest[0]] + rest[1..]
  }

  predicate NoComma(name: string)
  {
    forall i :: 0 <= i < |name| ==> name[i] != ','
  }

  lemma {:induction false} SplitSingleName(name: string)
    requires NoComma(name)
    ensures SplitNames(name) == [name]
  {
    if |name| > 0 {
      SplitSingleName(name[1..]);
      assert [name[0]] + name[1..] == name;
    }
  }

  lemma {:induction false} SplitAfterName(name: string, tail: string)
    requires NoComma(name)
    ensures SplitNames(name + ", " + tail) == [name] + SplitNames(tail)
  {
    var s := name + ", " + tail;
    if |name| == 0 {
      assert s == ", " + tail;
      assert s[2..] == tail;
    } else {
      SplitAfterName(name[1..], tail);
      assert s[1..] == name[1..] + ", " + tail;
      assert [name[0]] + name[1..] == name;
    }
  }

  /**
   * The list can be read back: for a non-empty list of names none of which
   * contains a comma, splitting the joined text gives back exactly the names, in order.
   */
  lemma {:induction false} JoinNamesRoundTrip(names: seq<string>)
    requires names != []
    requires forall i :: 0 <= i < |names| ==> NoComma(names[i])
    ensures SplitNames(JoinNames(names)) == names
  {
    if |names| == 1 {
      SplitSingleName(names[0]);
    } else {
      JoinNamesRoundTrip(names[1..]);
      SplitAfterName(names[0], JoinNames(names[1..]));
      assert [names[0]] + names[1..] == names;
    }
  }
}
