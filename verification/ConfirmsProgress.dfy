/** What a publish on a channel in confirm mode can still come to: no call is stuck. */
module ConfirmsProgress {
  import opened Options
  import opened Confirms

  /** Some run leads from `c` to `d`. */
  ghost predicate Leads(c: Channel, d: Channel) {
    exists run, actions :: IsRun(run, actions) && run[0] == c && run[|actions|] == d
  }

  lemma LeadsSelf(c: Channel)
    ensures Leads(c, c)
  {
    assert IsRun([c], []);
  }

  lemma LeadsStep(c: Channel, a: Action, d: Channel)
    requires Enabled(c, a) && Leads(Apply(c, a), d)
    ensures Leads(c, d)
  {
    var run, actions :| IsRun(run, actions) && run[0] == Apply(c, a) && run[|actions|] == d;
    var longer, more := [c] + run, [a] + actions;
    forall i | 0 <= i < |more|
      ensures Enabled(longer[i], more[i]) && longer[i + 1] == Apply(longer[i], more[i])
    {
      if i > 0 {
        assert Enabled(run[i - 1], actions[i - 1]);
      }
    }
    assert IsRun(longer, more) && longer[|more|] == d;
  }

  predicate HasReturned(c: Channel, call: nat) {
    call in c.calls && c.calls[call].Returned?
  }

  /** Steps of a call until it returns. */
  function ToReturn(c: Channel, call: nat): nat {
    if call !in c.calls then 6
    else match c.calls[call]
      case Entered => 5
      case Publishing => 4
      case Waiting => if c.confirmations == [] && !c.closed then 2 else 1
      case Returned(_) => 0
  }

  /** The next step of a call that shall return with `r`. */
  function Proceed(c: Channel, call: nat, r: Result): Action {
    if call !in c.calls then Enter(call)
    else match c.calls[call]
      case Entered => Lock(call)
      case Publishing => Hand(call, r != SendFailed && !c.closed)
      case _ => if c.confirmations != [] || c.closed then Receive(call)
                else if r.ClosedFirst? then Close
                else Settle(call, r.Ok?)
  }

  /** The call may still return with `r`. */
  predicate Open(c: Channel, call: nat, r: Result) {
    if HasReturned(c, call) then c.calls[call].result == r
    else if !At(c, call, Waiting) then c.closed ==> r.SendFailed?
    else if c.confirmations != [] then r == if c.confirmations[0].ack then Ok else Nacked
    else if c.closed then r.ClosedFirst?
    else !r.SendFailed?
  }

  /** A step of the holder that brings it closer to its end and leaves the call as it is. */
  predicate Helps(c: Channel, a: Action, holder: nat, call: nat) {
    && Enabled(c, a)
    && var d := Apply(c, a);
      && d.closed == c.closed && ToReturn(d, holder) < ToReturn(c, holder)
      && d.mutex == (if HasReturned(d, holder) then None else c.mutex)
      && (call in d.calls <==> call in c.calls) && (call in c.calls ==> d.calls[call] == c.calls[call])
  }

  lemma {:induction false} HolderHands(c: Channel, holder: nat, call: nat)
    requires Matched(c) && c.mutex == Some(holder) && holder != call && At(c, holder, Publishing)
    ensures Helps(c, Proceed(c, holder, Ok), holder, call)
  {
  }

  lemma {:induction false} HolderWaits(c: Channel, holder: nat, call: nat)
    requires Matched(c) && c.mutex == Some(holder) && holder != call && At(c, holder, Waiting)
    ensures Helps(c, Proceed(c, holder, Ok), holder, call)
  {
  }

  /** Another call holds the mutex: its next step helps. */
  lemma {:induction false} HolderMoves(c: Channel, call: nat, r: Result)
    requires Matched(c) && Open(c, call, r) && !HasReturned(c, call) && c.mutex.Some? && c.mutex.value != call
    ensures var holder := c.mutex.value; var a := Proceed(c, holder, Ok);
      && Helps(c, a, holder, call)
      && Open(Apply(c, a), call, r) && !HasReturned(Apply(c, a), call)
      && ToReturn(Apply(c, a), call) == ToReturn(c, call)
  {
    var holder := c.mutex.value;
    if At(c, holder, Publishing) {
      HolderHands(c, holder, call);
    } else {
      HolderWaits(c, holder, call);
    }
  }

  /** Nobody else holds the mutex: the next step brings the call closer to its end. */
  lemma {:induction false} CallMoves(c: Channel, call: nat, r: Result)
    requires Matched(c) && Open(c, call, r) && !HasReturned(c, call) && (c.mutex.None? || c.mutex == Some(call))
    ensures var a := Proceed(c, call, r);
      Enabled(c, a) && Open(Apply(c, a), call, r) && ToReturn(Apply(c, a), call) < ToReturn(c, call)
  {
  }

  lemma {:induction false} LeadsToReturn(c: Channel, call: nat, r: Result)
    requires Matched(c) && Open(c, call, r)
    ensures exists d :: Leads(c, d) && At(d, call, Returned(r))
    decreases ToReturn(c, call), if c.mutex.Some? && c.mutex.value != call then 1 + ToReturn(c, c.mutex.value) else 0
  {
    if HasReturned(c, call) {
      LeadsSelf(c);
    } else {
      var other := c.mutex.Some? && c.mutex.value != call;
      var a := if other then Proceed(c, c.mutex.value, Ok) else Proceed(c, call, r);
      if other {
        HolderMoves(c, call, r);
      } else {
        CallMoves(c, call, r);
      }
      StepMatched(c, a);
      LeadsToReturn(Apply(c, a), call, r);
      var d :| Leads(Apply(c, a), d) && At(d, call, Returned(r));
      LeadsStep(c, a, d);
    }
  }

  /** What a call may return after a step it might have returned before it. */
  lemma {:induction false} StepOpen(c: Channel, a: Action, call: nat, r: Result)
    requires Matched(c) && Enabled(c, a) && Open(Apply(c, a), call, r)
    ensures Open(c, call, r)
  {
  }

  /** The same over a whole run. */
  lemma {:induction false} RunOpen(run: seq<Channel>, actions: seq<Action>, i: nat, call: nat, r: Result)
    requires IsRun(run, actions) && i < |run| && Matched(run[0])
    ensures Matched(run[i])
    ensures Open(run[i], call, r) ==> Open(run[0], call, r)
  {
    if i > 0 {
      var c, a := run[i - 1], actions[i - 1];
      RunOpen(run, actions, i - 1, call, r);
      StepMatched(c, a);
      if Open(run[i], call, r) {
        StepOpen(c, a, call, r);
      }
    }
  }

  /** In every run in confirm mode, whoever holds the mutex: a call can still return with `r`
      if and only if it has, or waits for a confirmation that the broker can still send or has
      sent, or has not handed over its message yet; on a closed channel no message is handed
      over and nothing more is confirmed. */
  lemma {:induction false} ResultExactly(run: seq<Channel>, actions: seq<Action>, i: nat, call: nat, r: Result)
    requires IsRun(run, actions) && i < |run| && run[0] == Connected(true)
    ensures (exists d :: Leads(run[i], d) && At(d, call, Returned(r))) <==> Open(run[i], call, r)
  {
    RunMatched(run, actions, i);
    if Open(run[i], call, r) {
      LeadsToReturn(run[i], call, r);
    }
    forall d | Leads(run[i], d) && At(d, call, Returned(r))
      ensures Open(run[i], call, r)
    {
      var onward, more :| IsRun(onward, more) && onward[0] == run[i] && onward[|more|] == d;
      RunOpen(onward, more, |more|, call, r);
    }
  }

  /** So no call is stuck. */
  lemma {:induction false} CanReturn(run: seq<Channel>, actions: seq<Action>, i: nat, call: nat)
    requires IsRun(run, actions) && i < |run| && run[0] == Connected(true)
    ensures exists d :: Leads(run[i], d) && HasReturned(d, call)
  {
    var c := run[i];
    var r := if HasReturned(c, call) then c.calls[call].result
             else if !At(c, call, Waiting) then SendFailed
             else if c.confirmations == [] then ClosedFirst
             else if c.confirmations[0].ack then Ok else Nacked;
    ResultExactly(run, actions, i, call, r);
    var d :| Leads(c, d) && At(d, call, Returned(r));
  }
}
