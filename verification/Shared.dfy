/** The one generic type the models share. */
module Options {
  datatype Option<+T> = None | Some(value: T)
}

module Bytes {
  type Byte = b: int | 0 <= b < 256
}

/** Numbers as the log and the popup write them. */
module Decimals {

  function Digit(n: nat): (c: char)
    requires n < 10
    ensures '0' <= c <= '9'
  {
    ('0' as int + n) as char
  }

  /** `n` in decimal, zero-padded to at least `width` digits. */
  function Padded(n: nat, width: nat): (s: string)
    ensures forall i :: 0 <= i < |s| ==> '0' <= s[i] <= '9'
    decreases n + width
  {
    if n < 10 && width <= 1 then [Digit(n)]
    else Padded(n / 10, if width == 0 then 0 else width - 1) + [Digit(n % 10)]
  }
}

/** What has happened in a run since something else did. */
module Histories {

  /** Something is marked in `begun` with nothing marked in `ended` after it. */
  ghost predicate StartedSince(begun: seq<bool>, ended: seq<bool>)
    requires |begun| == |ended|
  {
    exists k :: 0 <= k < |begun| && begun[k] && forall j :: k < j < |ended| ==> !ended[j]
  }

  lemma StartedSinceStep(begun: seq<bool>, ended: seq<bool>, b: bool, e: bool)
    requires |begun| == |ended|
    ensures StartedSince(begun + [b], ended + [e]) <==> b || (StartedSince(begun, ended) && !e)
  {
    var begun', ended' := begun + [b], ended + [e];
    if b {
      assert begun'[|begun|];
    }
    if StartedSince(begun, ended) && !e {
      var k :| 0 <= k < |begun| && begun[k] && forall j :: k < j < |ended| ==> !ended[j];
      assert begun'[k];
    }
    if StartedSince(begun', ended') && !b {
      var k :| 0 <= k < |begun'| && begun'[k] && forall j :: k < j < |ended'| ==> !ended'[j];
      assert begun[k] && !ended'[|ended|];
      assert forall j :: k < j < |ended| ==> ended[j] == ended'[j];
    }
  }
}
