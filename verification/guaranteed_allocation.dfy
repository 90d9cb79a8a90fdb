/**
 The per-session coordinator for guaranteed-task updates sent to the
 application master (`ActualWmState`). It keeps the desired value `target`,
 the value in flight `sending` and the last confirmed value `sent`, with -1
 for "none". Each operation is one synchronized block on that state.
 */
module GuaranteedAllocation {

  /** The sentinel for "no value". */
  const NONE := -1

  datatype ActualWmState = ActualWmState(sending: int, sent: int, target: int)

  /** Nothing in flight, nothing confirmed, a target of zero. */
  const Init := ActualWmState(NONE, NONE, 0)

  /** The target is a real amount; the other two are an amount or none. */
  predicate Valid(a: ActualWmState)
  {
    a.target >= 0 && a.sending >= NONE && a.sent >= NONE
  }

  /** The new state, and whether the caller must now send `target`. */
  datatype SendRequest = SendRequest(state: ActualWmState, mustSend: bool)

  /** The new state, and the value the sender must send next, or NONE. */
  datatype SentOutcome = SentOutcome(state: ActualWmState, resend: int)

  /** The new state, and whether the failed send may go without a retry. */
  datatype FailedOutcome = FailedOutcome(state: ActualWmState, canSkip: bool)

  /** The manager wants `intAlloc` guaranteed tasks. A send is started only when
      none is in flight and the value differs from the confirmed one; the send in
      flight otherwise picks the new target up when it completes. */
  function SetSendingGuaranteed(a: ActualWmState, intAlloc: int): (r: SendRequest)
    requires intAlloc >= 0
    ensures r.state.target == intAlloc
    ensures r.state.sent == a.sent
    ensures r.mustSend <==> a.sending == NONE && a.sent != intAlloc
    ensures r.mustSend ==> r.state.sending == intAlloc
    ensures !r.mustSend ==> r.state.sending == a.sending
    ensures Valid(a) ==> Valid(r.state)
  {
    var a1 := a.(target := intAlloc);
    if a1.sending != NONE then SendRequest(a1, false)
    else if a1.sent == intAlloc then SendRequest(a1, false)
    else SendRequest(a1.(sending := intAlloc), true)
  }

  /** The send in flight was delivered. Its value is now confirmed, and if the
      target moved meanwhile the sender is told to send the target. */
  function SetSentGuaranteed(a: ActualWmState): (r: SentOutcome)
    requires a.sending != NONE
    ensures r.state.sent == a.sending
    ensures r.state.sending == NONE
    ensures r.state.target == a.target
    ensures r.resend != NONE ==> r.resend == a.target && a.sending != a.target
    ensures a.target >= 0 ==> (r.resend == NONE <==> a.sending == a.target)
    ensures Valid(a) ==> Valid(r.state)
  {
    var a1 := a.(sent := a.sending, sending := NONE);
    SentOutcome(a1, if a1.sent == a1.target then NONE else a1.target)
  }

  /** The send in flight failed. Nothing new is confirmed; the failure may be
      ignored only when the target has returned to the confirmed value. */
  function SetFailedToSendGuaranteed(a: ActualWmState): (r: FailedOutcome)
    requires a.sending != NONE
    ensures r.state.sending == NONE
    ensures r.state.sent == a.sent && r.state.target == a.target
    ensures r.canSkip <==> a.sent == a.target
    ensures Valid(a) ==> Valid(r.state)
  {
    var a1 := a.(sending := NONE);
    FailedOutcome(a1, a1.sent == a1.target)
  }

  /** No lost drift: a value the sender is told to send next is always accepted
      for sending by the very next request. */
  lemma NoLostDrift(a: ActualWmState)
    requires Valid(a) && a.sending != NONE
    ensures var o := SetSentGuaranteed(a);
            o.resend != NONE ==> o.resend >= 0 && SetSendingGuaranteed(o.state, o.resend).mustSend
  {
  }

  /** A retry is never dropped: when a failure may not be skipped, re-requesting
      the target starts a send. */
  lemma RetryNeverDropped(a: ActualWmState)
    requires Valid(a) && a.sending != NONE
    ensures var o := SetFailedToSendGuaranteed(a);
            !o.canSkip ==> SetSendingGuaranteed(o.state, o.state.target).mustSend
  {
  }

  /** The coordinator together with the re-requests that senders have been told
      to make but have not made yet. Each event is one synchronized call: the
      manager's request, a delivery, a failure, or a sender's later re-request,
      which may come after other requests. */
  datatype Coordination = Coordination(state: ActualWmState, owed: seq<nat>)

  const Start := Coordination(Init, [])

  datatype Event =
    | Request(amount: nat)    // the manager asks for a new amount
    | Delivered               // the send in flight arrived
    | Undelivered             // the send in flight failed
    | Resend(index: nat)      // a sender makes the re-request it owes

  predicate Enabled(c: Coordination, e: Event)
  {
    match e
    case Request(_) => true
    case Resend(i) => i < |c.owed|
    case _ => c.state.sending != NONE
  }

  function Step(c: Coordination, e: Event): (r: Coordination)
    requires Valid(c.state) && Enabled(c, e)
    ensures Valid(r.state)
  {
    match e
    case Request(x) => c.(state := SetSendingGuaranteed(c.state, x).state)
    case Delivered =>
      var o := SetSentGuaranteed(c.state);
      // the sender is told to send `resend` next
      Coordination(o.state, if o.resend == NONE then c.owed else c.owed + [o.resend])
    case Undelivered =>
      var o := SetFailedToSendGuaranteed(c.state);
      // the sender must retry with the target it was shown
      Coordination(o.state, if o.canSkip then c.owed else c.owed + [o.state.target])
    case Resend(i) =>
      Coordination(SetSendingGuaranteed(c.state, c.owed[i]).state, c.owed[..i] + c.owed[i + 1..])
  }

  predicate Runnable(c: Coordination, es: seq<Event>)
    decreases |es|
  {
    Valid(c.state) && (|es| == 0 || (Enabled(c, es[0]) && Runnable(Step(c, es[0]), es[1..])))
  }

  function Run(c: Coordination, es: seq<Event>): Coordination
    requires Runnable(c, es)
    decreases |es|
  {
    if |es| == 0 then c else Run(Step(c, es[0]), es[1..])
  }

  /** When no send is in flight and no sender owes a re-request, the confirmed
      value is the target, except in the initial state where nothing has been
      asked for yet. */
  predicate Settled(c: Coordination)
  {
    c.state.sending == NONE && |c.owed| == 0 ==> c.state.sent == c.state.target || c.state == Init
  }

  lemma StepKeepsSettled(c: Coordination, e: Event)
    requires Valid(c.state) && Settled(c) && Enabled(c, e)
    ensures Settled(Step(c, e))
  {
  }

  /** After any interleaving of requests, deliveries, failures and re-requests,
      a coordinator with nothing in flight and nothing owed has delivered its target. */
  lemma {:induction false} RunKeepsSettled(c: Coordination, es: seq<Event>)
    requires Settled(c) && Runnable(c, es)
    ensures Settled(Run(c, es))
    decreases |es|
  {
    if |es| > 0 {
      StepKeepsSettled(c, es[0]);
      RunKeepsSettled(Step(c, es[0]), es[1..]);
    }
  }

  /** A re-request the sender makes late carries the target it was shown, and
      it replaces a newer target the manager asked for meanwhile: request 5,
      request 7 while 5 is in flight, 5 arrives (7 owed), the manager requests 9
      (sent at once), the sender re-requests 7. The target is 7 again while 9 is
      in flight, and once everything has arrived, 7 is what was delivered. */
  lemma LateResendOverwritesRequest()
    ensures var es := [Request(5), Request(7), Delivered, Request(9), Resend(0), Delivered, Resend(0), Delivered];
      && Runnable(Start, es)
      && Run(Start, es) == Coordination(ActualWmState(NONE, 7, 7), [])
  {
    var es := [Request(5), Request(7), Delivered, Request(9), Resend(0), Delivered, Resend(0), Delivered];
    LateResendFirstSteps();
    LateResendLastSteps();
    assert es[7..][1..] == [];
    RunFirst(Late[7], es[7..]);
    RunFirst(Late[6], es[6..]);
    RunFirst(Late[5], es[5..]);
    RunFirst(Late[4], es[4..]);
    RunFirst(Late[3], es[3..]);
    RunFirst(Late[2], es[2..]);
    RunFirst(Late[1], es[1..]);
    RunFirst(Start, es);
  }

  /** The states the late re-request run passes through, from `Start`. */
  const Late := [
    Start,
    Coordination(ActualWmState(5, NONE, 5), []),
    Coordination(ActualWmState(5, NONE, 7), []),
    Coordination(ActualWmState(NONE, 5, 7), [7]),
    Coordination(ActualWmState(9, 5, 9), [7]),
    Coordination(ActualWmState(9, 5, 7), []),
    Coordination(ActualWmState(NONE, 9, 7), [7]),
    Coordination(ActualWmState(7, 9, 7), []),
    Coordination(ActualWmState(NONE, 7, 7), [])]

  lemma LateResendFirstSteps()
    ensures Step(Late[0], Request(5)) == Late[1]
    ensures Step(Late[1], Request(7)) == Late[2]
    ensures Step(Late[2], Delivered) == Late[3]
    ensures Step(Late[3], Request(9)) == Late[4]
  {
  }

  lemma LateResendLastSteps()
    ensures Enabled(Late[4], Resend(0)) && Step(Late[4], Resend(0)) == Late[5]
    ensures Step(Late[5], Delivered) == Late[6]
    ensures Enabled(Late[6], Resend(0)) && Step(Late[6], Resend(0)) == Late[7]
    ensures Step(Late[7], Delivered) == Late[8]
  {
  }

  /** A run is its first step followed by the rest. */
  lemma RunFirst(c: Coordination, es: seq<Event>)
    requires |es| > 0 && Valid(c.state) && Enabled(c, es[0])
    requires Runnable(Step(c, es[0]), es[1..])
    ensures Runnable(c, es)
    ensures Run(c, es) == Run(Step(c, es[0]), es[1..])
  {
  }

  /** Sample sequences. */
  lemma AllocationExamples()
    // a first request is sent and its delivery leaves nothing to do
    ensures var r := SetSendingGuaranteed(Init, 5);
            r.mustSend && SetSentGuaranteed(r.state).resend == NONE
    // a new target while sending is not sent at once but handed back on delivery
    ensures var r1 := SetSendingGuaranteed(Init, 5);
            var r2 := SetSendingGuaranteed(r1.state, 7);
            var o := SetSentGuaranteed(r2.state);
            !r2.mustSend && r2.state.target == 7 && o.state.sent == 5 && o.resend == 7
    // a target that returns to the confirmed value lets a failed send go
    ensures var r1 := SetSendingGuaranteed(Init, 5);
            var o1 := SetSentGuaranteed(r1.state);
            var r2 := SetSendingGuaranteed(o1.state, 8);
            var r3 := SetSendingGuaranteed(r2.state, 5);
            r2.mustSend && !r3.mustSend && SetFailedToSendGuaranteed(r3.state).canSkip
  {
  }
}
