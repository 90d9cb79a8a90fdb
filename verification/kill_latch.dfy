/**
 The reason to kill a session's application master. Once there is a reason
 there always is one: the session can be killed only once.
 */
module KillLatch {
  import opened Wrappers

  datatype Latch = Latch(killReason: Option<string>)

  const Init := Latch(None)

  /** The result of a call: the latch afterwards, and the `AssertionError`
      raised for a missing reason, which carries the reason already stored. */
  datatype Outcome = Outcome(latch: Latch, error: Option<Option<string>>)

  /** Marks the session as no longer relevant to the workload manager. A missing
      reason is refused and leaves the latch as it was; any given reason is
      stored, replacing one stored before. */
  function SetIsIrrelevantForWm(l: Latch, killReason: Option<string>): (r: Outcome)
    ensures r.error.Some? <==> killReason.None?
    ensures r.error.Some? ==> r.latch == l && r.error.value == l.killReason
    ensures r.error.None? ==> r.latch.killReason == killReason
  {
    if killReason.None? then Outcome(l, Some(l.killReason))
    else Outcome(Latch(killReason), None)
  }

  function IsIrrelevantForWm(l: Latch): bool
  {
    l.killReason.Some?
  }

  function GetReasonForKill(l: Latch): Option<string>
  {
    l.killReason
  }

  /** A session is irrelevant exactly when there is a reason to kill it, and
      after any reason is set both readers report it. */
  lemma IrrelevantIffReason(l: Latch, reason: string)
    ensures IsIrrelevantForWm(l) <==> GetReasonForKill(l).Some?
    ensures var l' := SetIsIrrelevantForWm(l, Some(reason)).latch;
            IsIrrelevantForWm(l') && GetReasonForKill(l') == Some(reason)
  {
  }

  /** Calls made one after the other, each with its argument; failed calls leave the latch as it was. */
  function SetAll(l: Latch, reasons: seq<Option<string>>): Latch
    decreases |reasons|
  {
    if |reasons| == 0 then l
    else SetAll(SetIsIrrelevantForWm(l, reasons[0]).latch, reasons[1..])
  }

  /** The last reason actually given, or `initial` when none was. */
  function LastGiven(reasons: seq<Option<string>>, initial: Option<string>): Option<string>
    decreases |reasons|
  {
    if |reasons| == 0 then initial
    else if reasons[|reasons| - 1].Some? then reasons[|reasons| - 1]
    else LastGiven(reasons[..|reasons| - 1], initial)
  }

  /** `LastGiven` of a longer list, taken from the front. */
  lemma {:induction false} LastGivenFront(r: Option<string>, rest: seq<Option<string>>, initial: Option<string>)
    ensures LastGiven([r] + rest, initial) == LastGiven(rest, if r.Some? then r else initial)
    decreases |rest|
  {
    if |rest| > 0 {
      var all := [r] + rest;
      assert all[..|all| - 1] == [r] + rest[..|rest| - 1];
      assert all[|all| - 1] == rest[|rest| - 1];
      LastGivenFront(r, rest[..|rest| - 1], initial);
    } else {
      assert [r] + rest == [r];
      assert ([r] + rest)[..0] == [];
    }
  }

  /** After any sequence of calls the stored reason is the last one given:
      a later reason overwrites an earlier one, and a missing reason changes nothing. */
  lemma {:induction false} LastReasonWins(l: Latch, reasons: seq<Option<string>>)
    ensures SetAll(l, reasons).killReason == LastGiven(reasons, l.killReason)
    decreases |reasons|
  {
    if |reasons| > 0 {
      var l1 := SetIsIrrelevantForWm(l, reasons[0]).latch;
      LastReasonWins(l1, reasons[1..]);
      assert reasons == [reasons[0]] + reasons[1..];
      LastGivenFront(reasons[0], reasons[1..], l.killReason);
    }
  }

  /** Once set, the latch stays set whatever calls follow. */
  lemma {:induction false} NeverUnset(l: Latch, reasons: seq<Option<string>>)
    requires IsIrrelevantForWm(l)
    ensures IsIrrelevantForWm(SetAll(l, reasons))
    decreases |reasons|
  {
    if |reasons| > 0 {
      NeverUnset(SetIsIrrelevantForWm(l, reasons[0]).latch, reasons[1..]);
    }
  }
}
