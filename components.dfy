/**
 * Foundation's `String.components(separatedBy: ", ")`, which the tracker
 * applies to the plan of the first bound service of each label.
 */
module Components {

  /** True when the separator `", "` starts at index `i` of `s`. */
  predicate SeparatorAt(s: string, i: int)
  {
    0 <= i && i + 1 < |s| && s[i] == ',' && s[i + 1] == ' '
  }

  predicate ContainsSeparator(s: string)
  {
    exists i :: 0 <= i < |s| && SeparatorAt(s, i)
  }

  /**
   * The pieces of `s` between occurrences of `", "`, scanning left to right.
   * There is always at least one piece: the empty string gives `[""]`.
   */
  function Split(s: string): (parts: seq<string>)
    ensures |parts| >= 1
    ensures |s| == 0 ==> parts == [""]
    decreases |s|
  {
    if |s| == 0 then [""]
    else if SeparatorAt(s, 0) then [""] + Split(s[2..])
    else
      var rest := Split(s[1..]);
      [[s[0]] + rest[0]] + rest[1..]
  }

  /** The pieces glued back together with `", "` between neighbours. */
  function Join(parts: seq<string>): (s: string)
    requires |parts| >= 1
  {
    if |parts| == 1 then parts[0] else parts[0] + ", " + Join(parts[1..])
  }

  /** Joining the pieces of a split gives back the original string. */
  lemma {:induction false} JoinSplit(s: string)
    ensures Join(Split(s)) == s
    decreases |s|
  {
    if |s| == 0 {
    } else if SeparatorAt(s, 0) {
      JoinSplit(s[2..]);
      assert s == ", " + s[2..];
    } else {
      var rest := Split(s[1..]);
      JoinSplit(s[1..]);
      if |rest| == 1 {
        assert Join(Split(s)) == [s[0]] + rest[0];
      } else {
        assert Split(s)[1..] == rest[1..];
        assert Join(Split(s)) == ([s[0]] + rest[0]) + ", " + Join(rest[1..]);
      }
      assert s == [s[0]] + s[1..];
    }
  }

  /** No piece of a split contains the separator. */
  lemma {:induction false} SplitPiecesHaveNoSeparator(s: string)
    ensures forall k :: 0 <= k < |Split(s)| ==> !ContainsSeparator(Split(s)[k])
    decreases |s|
  {
    if |s| == 0 {
      assert Split(s) == [""];
    } else if SeparatorAt(s, 0) {
      SplitPiecesHaveNoSeparator(s[2..]);
      forall k | 0 <= k < |Split(s)| ensures !ContainsSeparator(Split(s)[k]) {
        if k > 0 {
          assert Split(s)[k] == Split(s[2..])[k - 1];
        }
      }
    } else {
      var rest := Split(s[1..]);
      SplitPiecesHaveNoSeparator(s[1..]);
      var first := [s[0]] + rest[0];
      // `first` could only start with the separator if `s` did: its second
      // character is the first character of `s[1..]`.
      FirstPieceStart(s[1..]);
      assert !SeparatorAt(first, 0);
      forall i | 0 < i < |first| && SeparatorAt(first, i) ensures false {
        assert SeparatorAt(rest[0], i - 1);
      }
      forall k | 0 <= k < |Split(s)| ensures !ContainsSeparator(Split(s)[k]) {
        if k > 0 {
          assert Split(s)[k] == rest[k];
        }
      }
    }
  }

  /** The first piece of a split is a prefix of the string. */
  lemma {:induction false} FirstPieceStart(s: string)
    ensures |Split(s)[0]| <= |s| && Split(s)[0] == s[..|Split(s)[0]|]
    decreases |s|
  {
    if |s| == 0 {
    } else if SeparatorAt(s, 0) {
    } else {
      FirstPieceStart(s[1..]);
    }
  }

  /** A string without the separator splits into itself alone. */
  lemma {:induction false} SplitWithoutSeparator(s: string)
    requires !ContainsSeparator(s)
    ensures Split(s) == [s]
    decreases |s|
  {
    if |s| == 0 {
    } else {
      assert !SeparatorAt(s, 0);
      forall i | SeparatorAt(s[1..], i) ensures false {
        assert SeparatorAt(s, i + 1);
      }
      SplitWithoutSeparator(s[1..]);
      assert [s[0]] + s[1..] == s;
    }
  }
}
