/**
 The state of one wheel session and the user actions that change it: adding
 an option, removing one by its index, clearing the list, asking for a spin,
 and the end of the spin's animation.

 Angles are kept in degrees (the source keeps radians: degrees * pi / 180).
 The results of `confirm` and `Math.random` are parameters.
 */
module Session {
  import Text
  import Spin

  /** What `addOption` did with the typed text. */
  datatype AddOutcome =
    | Added       // the trimmed text was appended
    | Blank       // the trimmed text was empty: silently ignored
    | Duplicate   // the trimmed text was already listed: "already exists" alert

  /** What `spinWheel` did with the request. */
  datatype SpinOutcome =
    | TooFewOptions     // fewer than 2 options: "at least 2 options" alert
    | AlreadySpinning   // a spin is running: silently ignored
    | Started(spinAngle: int, targetSegment: int, targetDegrees: real)

  /** No option is listed twice. */
  predicate Distinct<T(==)>(s: seq<T>) {
    forall i, j :: 0 <= i < j < |s| ==> s[i] != s[j]
  }

  /** An option as `addOption` stores it: non-empty and already trimmed. */
  predicate Clean(option: string) {
    option != "" && Text.Trim(option) == option
  }

  /** What the option list holds in every reachable session: distinct,
      clean strings. */
  predicate WellFormed(s: seq<string>) {
    Distinct(s) && forall option | option in s :: Clean(option)
  }

  /** The position `Array.prototype.splice` starts at for a list of length
      `len`: a negative start counts from the end (and stops at 0), a start
      past the end is clamped to the end. */
  function SpliceStart(start: int, len: nat): (k: nat)
    ensures k <= len
    ensures 0 <= start <= len ==> k == start
    ensures start < 0 && len + start >= 0 ==> k == len + start
    ensures len + start < 0 ==> k == 0
    ensures start > len ==> k == len
  {
    if start < 0 then (if len + start < 0 then 0 else len + start)
    else if start > len then len
    else start
  }

  /** The list left by `options.splice(start, 1)`. */
  function SpliceOne<T>(s: seq<T>, start: int): (r: seq<T>)
    ensures SpliceStart(start, |s|) < |s| ==> |r| == |s| - 1
    ensures SpliceStart(start, |s|) == |s| ==> r == s
    ensures forall j :: 0 <= j < |r| ==>
              r[j] == s[if j < SpliceStart(start, |s|) then j else j + 1]
  {
    var k := SpliceStart(start, |s|);
    if k < |s| then s[..k] + s[k + 1..] else s
  }

  /** Splicing at a valid index deletes exactly that element: one shorter,
      the rest unchanged and in their old order. */
  lemma SpliceOneAt<T>(s: seq<T>, index: int)
    requires 0 <= index < |s|
    ensures |SpliceOne(s, index)| == |s| - 1
    ensures SpliceOne(s, index)[..index] == s[..index]
    ensures SpliceOne(s, index)[index..] == s[index + 1..]
    ensures multiset(SpliceOne(s, index)) + multiset{s[index]} == multiset(s)
  {
    var r := SpliceOne(s, index);
    assert r == s[..index] + s[index + 1..];
    assert s == s[..index] + [s[index]] + s[index + 1..];
  }

  /** Appending an element not yet in a list of distinct elements keeps
      it distinct. */
  lemma AppendKeepsDistinct<T>(s: seq<T>, x: T)
    requires Distinct(s) && x !in s
    ensures Distinct(s + [x])
  {
    var t := s + [x];
    forall i, j | 0 <= i < j < |t| ensures t[i] != t[j] {
      if j == |s| {
        assert t[i] == s[i];
      }
    }
  }

  /** Removing an element from a list of distinct elements keeps it
      distinct. */
  lemma SpliceKeepsDistinct<T>(s: seq<T>, start: int)
    requires Distinct(s)
    ensures Distinct(SpliceOne(s, start))
  {
    var r := SpliceOne(s, start);
    var k := SpliceStart(start, |s|);
    forall i, j | 0 <= i < j < |r| ensures r[i] != r[j] {
      var i', j' := if i < k then i else i + 1, if j < k then j else j + 1;
      assert r[i] == s[i'] && r[j] == s[j'] && i' < j';
    }
  }

  /** Appending a fresh, non-empty, trimmed string keeps the list
      well-formed. */
  lemma AppendKeepsWellFormed(s: seq<string>, option: string)
    requires WellFormed(s)
    requires Clean(option) && option !in s
    ensures WellFormed(s + [option])
  {
    AppendKeepsDistinct(s, option);
  }

  /** Removing an entry keeps the list well-formed. */
  lemma SpliceKeepsWellFormed(s: seq<string>, start: int)
    requires WellFormed(s)
    ensures WellFormed(SpliceOne(s, start))
  {
    SpliceKeepsDistinct(s, start);
    var r := SpliceOne(s, start);
    var k := SpliceStart(start, |s|);
    forall m | 0 <= m < |r| ensures r[m] in s {
      assert r[m] == s[if m < k then m else m + 1];
    }
  }

  /** The session: the option list, the spinning flag, the wheel's current
      rotation, and the start rotation and turn captured by the running
      animation. */
  class WheelSession {
    var options: seq<string>
    var isSpinning: bool
    var rotation: real
    var spinStart: real
    var spinTarget: real

    predicate Valid()
      reads this
    {
      WellFormed(options)
    }

    /** A fresh page: no options, not spinning, rotation 0. */
    constructor ()
      ensures Valid()
      ensures options == [] && !isSpinning && rotation == 0.0
    {
      options := [];
      isSpinning := false;
      rotation := 0.0;
      spinStart := 0.0;
      spinTarget := 0.0;
    }

    /** `addOption`: appends the trimmed input unless it is empty or already
        listed. */
    method AddOption(input: string) returns (outcome: AddOutcome)
      requires Valid()
      modifies this`options
      ensures Valid()
      ensures outcome == Added <==> Text.Trim(input) != "" && Text.Trim(input) !in old(options)
      ensures outcome == Duplicate <==> Text.Trim(input) in old(options)
      ensures outcome == Added ==> options == old(options) + [Text.Trim(input)]
      ensures outcome != Added ==> options == old(options)
    {
      var option := Text.Trim(input);
      if option != "" && option !in options {
        Text.TrimIdempotent(input);
        AppendKeepsWellFormed(options, option);
        options := options + [option];
        outcome := Added;
      } else if option in options {
        outcome := Duplicate;
      } else {
        outcome := Blank;
      }
    }

    /** The remove button of entry `index`: `options.splice(index, 1)`;
        returns what splice returns, the removed entries. */
    method RemoveAt(index: int) returns (removed: seq<string>)
      requires Valid()
      modifies this`options
      ensures Valid()
      ensures options == SpliceOne(old(options), index)
      ensures multiset(options) + multiset(removed) == multiset(old(options))
      ensures 0 <= index < |old(options)| ==> removed == [old(options)[index]]
    {
      var k := SpliceStart(index, |options|);
      SpliceKeepsWellFormed(options, index);
      if k < |options| {
        removed := [options[k]];
        SpliceOneAt(options, k);
        assert SpliceOne(options, k) == SpliceOne(options, index);
      } else {
        removed := [];
      }
      options := SpliceOne(options, index);
    }

    /** `clearAll`: once confirmed, empties the list and puts the rotation
        back to 0; the spinning flag is left as it is. */
    method ClearAll(confirmed: bool)
      requires Valid()
      modifies this`options, this`rotation
      ensures Valid()
      ensures confirmed ==> options == [] && rotation == 0.0
      ensures !confirmed ==> options == old(options) && rotation == old(rotation)
    {
      if confirmed {
        options := [];
        rotation := 0.0;
      }
    }

    /** `spinWheel`: rejects with fewer than 2 options (checked first), then
        ignores the request while a spin is running; otherwise sets the flag
        and captures the start rotation and the turn for the animation. */
    method SpinWheel(turnDraw: real, segmentDraw: real) returns (outcome: SpinOutcome)
      requires Valid()
      requires 0.0 <= turnDraw < 1.0 && 0.0 <= segmentDraw < 1.0
      modifies this`isSpinning, this`spinStart, this`spinTarget
      ensures Valid()
      ensures |options| < 2 ==> outcome == TooFewOptions && unchanged(this)
      ensures |options| >= 2 && old(isSpinning) ==> outcome == AlreadySpinning && unchanged(this)
      ensures |options| >= 2 && !old(isSpinning) ==>
                && isSpinning
                && outcome.Started?
                && outcome.spinAngle == Spin.SpinAngle(turnDraw)
                && outcome.targetSegment == Spin.TargetSegment(segmentDraw, |options|)
                && outcome.targetDegrees
                   == Spin.TargetDegrees(outcome.spinAngle, outcome.targetSegment, |options|)
                && spinStart == rotation
                && spinTarget == outcome.targetDegrees
    {
      if |options| < 2 {
        return TooFewOptions;
      }
      if isSpinning {
        return AlreadySpinning;
      }
      isSpinning := true;
      var spinAngle := Spin.SpinAngle(turnDraw);
      var targetSegment := Spin.TargetSegment(segmentDraw, |options|);
      var targetDegrees := Spin.TargetDegrees(spinAngle, targetSegment, |options|);
      spinStart := rotation;
      spinTarget := targetDegrees;
      outcome := Started(spinAngle, targetSegment, targetDegrees);
    }

    /** The last animation frame (progress 1, so the eased fraction is 1):
        the wheel rests at the start rotation plus the whole turn, and the
        spinning flag is cleared. */
    method FinishSpin()
      requires Valid() && isSpinning
      modifies this`isSpinning, this`rotation
      ensures Valid()
      ensures !isSpinning
      ensures rotation == spinStart + spinTarget
    {
      rotation := spinStart + spinTarget;
      isSpinning := false;
    }
  }

  /** The typed text is trimmed before the duplicate check. */
  method AddTrimmedScenario() {
    var session := new WheelSession();
    Text.TrimIsInfix(" Pizza ", 1, 6);
    assert " Pizza "[1..6] == "Pizza";
    var added := session.AddOption(" Pizza ");
    assert added == Added && session.options == ["Pizza"];
    Text.TrimIsInfix("Pizza", 0, 5);
    assert "Pizza"[0..5] == "Pizza";
    added := session.AddOption("Pizza");
    assert added == Duplicate && session.options == ["Pizza"];
  }

  /** A finished spin lets the next request through, and the next spin
      starts where the last one came to rest. */
  method SpinAgainAfterFinish(session: WheelSession, a: real, b: real, c: real, d: real)
    requires 0.0 <= a < 1.0 && 0.0 <= b < 1.0 && 0.0 <= c < 1.0 && 0.0 <= d < 1.0
    requires session.Valid() && |session.options| >= 2 && !session.isSpinning
    modifies session
  {
    var first := session.SpinWheel(a, b);
    assert first.Started?;
    var second := session.SpinWheel(c, d);
    assert second == AlreadySpinning;
    session.FinishSpin();
    var rest := session.rotation;
    var third := session.SpinWheel(c, d);
    assert third.Started? && session.spinStart == rest;
  }
}
