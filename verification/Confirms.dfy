/** Publisher confirms of internal/core/pubsub/channel.go: any number of concurrent `Publish`
    calls on one channel, a broker that confirms in any order, and a channel that may close.

    A call is named by a number and made once. The confirmation a call receives carries no
    name that `Publish` looks at; only the mutex matches it to the call's message. */
module Confirms {
  import opened Options

  datatype Result = Ok | SendFailed | Nacked | ClosedFirst

  /** Where a call of `Publish` stands. */
  datatype Call =
    | Entered              // before the mutex
    | Publishing           // about to hand the message to the broker
    | Waiting              // about to receive a confirmation
    | Returned(result: Result)

  datatype Confirmation = Confirmation(message: nat, ack: bool)

  datatype Channel = Channel(
    confirming: bool,                    // confirm mode: the confirmation channel exists
    mutex: Option<nat>,                  // the call that holds it
    calls: map<nat, Call>,
    outstanding: set<nat>,               // messages the broker has and has not settled
    confirmations: seq<Confirmation>,    // settled and not yet received, oldest first
    closed: bool)

  /** The channel after `Connect`. */
  function Connected(confirming: bool): Channel {
    Channel(confirming, None, map[], {}, [], false)
  }

  datatype Action =
    | Enter(call: nat)
    | Lock(call: nat)
    | Hand(call: nat, accepted: bool)    // PublishWithContext
    | Receive(call: nat)
    | Settle(message: nat, ack: bool)    // the broker acks or nacks
    | Close

  predicate At(c: Channel, call: nat, where: Call) {
    call in c.calls && c.calls[call] == where
  }

  predicate Enabled(c: Channel, a: Action) {
    match a
    case Enter(call) => call !in c.calls
    case Lock(call) => At(c, call, Entered) && (c.confirming ==> c.mutex.None?)
    case Hand(call, accepted) => At(c, call, Publishing) && (accepted ==> !c.closed)
    case Receive(call) => At(c, call, Waiting) && (c.confirmations != [] || c.closed)
    case Settle(message, _) => c.confirming && message in c.outstanding && !c.closed
    case Close => !c.closed
  }

  /** The call returns and, deferred, releases the mutex it took. */
  function Return(c: Channel, call: nat, r: Result): Channel {
    c.(calls := c.calls[call := Returned(r)], mutex := if c.confirming then None else c.mutex)
  }

  function Apply(c: Channel, a: Action): Channel
    requires Enabled(c, a)
  {
    match a
    case Enter(call) => c.(calls := c.calls[call := Entered])
    case Lock(call) => c.(calls := c.calls[call := Publishing], mutex := if c.confirming then Some(call) else c.mutex)
    case Hand(call, accepted) =>
      if !accepted then Return(c, call, SendFailed)
      else
        var d := c.(outstanding := c.outstanding + {call});
        if c.confirming then d.(calls := d.calls[call := Waiting]) else Return(d, call, Ok)
    case Receive(call) =>
      if c.confirmations == [] then Return(c, call, ClosedFirst)
      else Return(c.(confirmations := c.confirmations[1..]), call, if c.confirmations[0].ack then Ok else Nacked)
    case Settle(message, ack) =>
      c.(outstanding := c.outstanding - {message},
         confirmations := c.confirmations + [Confirmation(message, ack)])
    case Close => c.(closed := true)
  }

  predicate IsRun(run: seq<Channel>, actions: seq<Action>) {
    && |run| == |actions| + 1
    && forall i :: 0 <= i < |actions| ==> Enabled(run[i], actions[i]) && run[i + 1] == Apply(run[i], actions[i])
  }

  /** Messages handed over and not answered for yet. */
  function InFlight(c: Channel): set<nat> {
    c.outstanding + set x <- c.confirmations :: x.message
  }

  /** While the channel is open, what is in flight is exactly the message of the call that
      holds the mutex and waits, once. */
  ghost predicate Matched(c: Channel) {
    && c.confirming
    && (forall id <- c.calls :: c.calls[id].Publishing? || c.calls[id].Waiting? <==> c.mutex == Some(id))
    && (c.mutex.Some? ==> c.mutex.value in c.calls)
    && |c.confirmations| <= 1
    && (c.confirmations != [] ==>
      c.mutex == Some(c.confirmations[0].message) && At(c, c.mutex.value, Waiting) && c.outstanding == {})
    && (!c.closed ==> c.outstanding == if c.mutex.Some? && At(c, c.mutex.value, Waiting) && c.confirmations == []
                                       then {c.mutex.value} else {})
    && |c.outstanding| <= 1
  }

  /** A call enters, or takes the mutex. */
  lemma {:induction false} LockMatched(c: Channel, a: Action)
    requires Matched(c) && Enabled(c, a) && (a.Enter? || a.Lock?)
    ensures Matched(Apply(c, a))
  {
  }

  /** The message is handed over, or refused. */
  lemma {:induction false} HandMatched(c: Channel, a: Action)
    requires Matched(c) && Enabled(c, a) && a.Hand?
    ensures Matched(Apply(c, a))
  {
    assert c.mutex == Some(a.call) && c.confirmations == [];
    if a.accepted {
      assert c.outstanding == {};
      assert Apply(c, a).outstanding == {a.call};
    }
  }

  lemma {:induction false} ReceiveMatched(c: Channel, a: Action)
    requires Matched(c) && Enabled(c, a) && a.Receive?
    ensures Matched(Apply(c, a))
  {
  }

  /** The broker settles, or the channel closes. */
  lemma {:induction false} BrokerMatched(c: Channel, a: Action)
    requires Matched(c) && Enabled(c, a) && (a.Settle? || a.Close?)
    ensures Matched(Apply(c, a))
  {
  }

  lemma {:induction false} StepMatched(c: Channel, a: Action)
    requires Matched(c) && Enabled(c, a)
    ensures Matched(Apply(c, a))
  {
    if a.Receive? {
      ReceiveMatched(c, a);
    } else if a.Settle? || a.Close? {
      BrokerMatched(c, a);
    } else if a.Hand? {
      HandMatched(c, a);
    } else {
      LockMatched(c, a);
    }
  }

  lemma {:induction false} RunMatched(run: seq<Channel>, actions: seq<Action>, i: nat)
    requires IsRun(run, actions) && i < |run| && run[0] == Connected(true)
    ensures Matched(run[i])
  {
    if i > 0 {
      RunMatched(run, actions, i - 1);
      StepMatched(run[i - 1], actions[i - 1]);
    }
  }

  /** In every run in confirm mode, at most one message is in flight. */
  lemma {:induction false} OneInFlight(run: seq<Channel>, actions: seq<Action>, i: nat)
    requires IsRun(run, actions) && i < |run| && run[0] == Connected(true)
    ensures |run[i].outstanding| + |run[i].confirmations| <= 1
    ensures forall m, n :: m in InFlight(run[i]) && n in InFlight(run[i]) ==> m == n
  {
    RunMatched(run, actions, i);
    var c := run[i];
    if c.outstanding != {} {
      var m :| m in c.outstanding;
      assert c.outstanding == {m} by {
        assert |c.outstanding - {m}| == 0;
      }
    }
  }

  lemma {:induction false} ConfirmationWasSettled(run: seq<Channel>, actions: seq<Action>, i: nat, k: nat)
    requires IsRun(run, actions) && i < |run| && run[0] == Connected(true)
    requires k < |run[i].confirmations|
    ensures exists j :: 0 <= j < i && actions[j] == Settle(run[i].confirmations[k].message, run[i].confirmations[k].ack)
  {
    assert i > 0;
    var a := actions[i - 1];
    if a.Settle? && k == |run[i - 1].confirmations| {
      assert actions[i - 1] == Settle(run[i].confirmations[k].message, run[i].confirmations[k].ack);
    } else {
      ConfirmationWasSettled(run, actions, i - 1, if a.Receive? && run[i - 1].confirmations != [] then k + 1 else k);
    }
  }

  /** In confirm mode a call returns nil or a nack only by receiving a confirmation. */
  lemma {:induction false} ReturnStep(c: Channel, a: Action, call: nat)
    requires c.confirming && Enabled(c, a)
    requires At(Apply(c, a), call, Returned(Ok)) || At(Apply(c, a), call, Returned(Nacked))
    ensures || (call in c.calls && c.calls[call] == Apply(c, a).calls[call])
            || (a == Receive(call) && c.confirmations != []
                && c.confirmations[0].ack == At(Apply(c, a), call, Returned(Ok)))
  {
  }

  /** In every run in confirm mode, `Publish` returns nil only if the broker acked the
      message of that very call, and reports a nack only if the broker nacked it. */
  lemma {:induction false} OwnConfirmation(run: seq<Channel>, actions: seq<Action>, i: nat, call: nat)
    requires IsRun(run, actions) && i < |run| && run[0] == Connected(true)
    requires At(run[i], call, Returned(Ok)) || At(run[i], call, Returned(Nacked))
    ensures exists j :: 0 <= j < i && actions[j] == Settle(call, At(run[i], call, Returned(Ok)))
  {
    assert i > 0;
    var c := run[i - 1];
    RunMatched(run, actions, i - 1);
    ReturnStep(c, actions[i - 1], call);
    if call in c.calls && c.calls[call] == run[i].calls[call] {
      OwnConfirmation(run, actions, i - 1, call);
    } else {
      ConfirmationWasSettled(run, actions, i - 1, 0);
    }
  }

  // ---- The other ways to return ----

  /** What makes a call return with `r`. */
  predicate Causes(c: Channel, a: Action, call: nat, r: Result) {
    match r
    case SendFailed => a == Hand(call, false)
    case ClosedFirst => a == Receive(call) && c.confirming && c.closed && c.confirmations == []
    case Ok => if c.confirming then a == Receive(call) && c.confirmations != [] && c.confirmations[0].ack
               else a == Hand(call, true)
    case Nacked => a == Receive(call) && c.confirming && c.confirmations != [] && !c.confirmations[0].ack
  }

  /** Without confirm mode no call waits and nothing is confirmed. */
  ghost predicate Unconfirmed(c: Channel) {
    !c.confirming && c.confirmations == [] && forall id <- c.calls :: !c.calls[id].Waiting?
  }

  lemma {:induction false} StepUnconfirmed(c: Channel, a: Action)
    requires Unconfirmed(c) && Enabled(c, a)
    ensures Unconfirmed(Apply(c, a))
  {
  }

  /** A call that has returned stays as it is; one that returns does so for a reason. */
  lemma {:induction false} ReturnsFor(c: Channel, a: Action, call: nat, r: Result)
    requires (c.confirming || Unconfirmed(c)) && Enabled(c, a) && At(Apply(c, a), call, Returned(r))
    ensures At(c, call, Returned(r)) || Causes(c, a, call, r)
  {
  }

  lemma {:induction false} ModeKept(run: seq<Channel>, actions: seq<Action>, i: nat, confirming: bool)
    requires IsRun(run, actions) && i < |run| && run[0] == Connected(confirming)
    ensures run[i].confirming == confirming && (confirming || Unconfirmed(run[i]))
  {
    if i > 0 {
      ModeKept(run, actions, i - 1, confirming);
      if !confirming {
        StepUnconfirmed(run[i - 1], actions[i - 1]);
      }
    }
  }

  /** In every run, in either mode, each result has its reason: a refused hand-over, a channel
      closed before the confirmation, a confirmation, or, without confirm mode, the hand-over. */
  lemma {:induction false} ReturnedFor(run: seq<Channel>, actions: seq<Action>, i: nat, confirming: bool,
                                       call: nat, r: Result)
    requires IsRun(run, actions) && i < |run| && run[0] == Connected(confirming) && At(run[i], call, Returned(r))
    ensures exists j :: 0 <= j < i && Causes(run[j], actions[j], call, r)
  {
    assert i > 0;
    ModeKept(run, actions, i - 1, confirming);
    ReturnsFor(run[i - 1], actions[i - 1], call, r);
    if At(run[i - 1], call, Returned(r)) {
      ReturnedFor(run, actions, i - 1, confirming, call, r);
    }
  }

  /** What a call has returned it has returned for good. */
  lemma {:induction false} ReturnedForGood(run: seq<Channel>, actions: seq<Action>, i: nat, j: nat,
                                           call: nat, r: Result)
    requires IsRun(run, actions) && i <= j < |run| && At(run[i], call, Returned(r))
    ensures At(run[j], call, Returned(r))
  {
    if i < j {
      ReturnedForGood(run, actions, i, j - 1, call, r);
      StaysReturned(run[j - 1], actions[j - 1], call, r);
    }
  }

  lemma {:induction false} StaysReturned(c: Channel, a: Action, call: nat, r: Result)
    requires Enabled(c, a) && At(c, call, Returned(r))
    ensures At(Apply(c, a), call, Returned(r))
  {
  }

  /** In every run in confirm mode, who holds the mutex is handing over or waiting, so that a
      call that returns has released it. */
  lemma {:induction false} MutexReleased(run: seq<Channel>, actions: seq<Action>, i: nat)
    requires IsRun(run, actions) && i < |run| && run[0] == Connected(true)
    ensures run[i].mutex.Some? ==>
              At(run[i], run[i].mutex.value, Publishing) || At(run[i], run[i].mutex.value, Waiting)
  {
    RunMatched(run, actions, i);
  }

  /** In every run in confirm mode, a refused hand-over and every receipt end the call and
      release the mutex: with the broker's answer to its own message, or with the close of the
      channel. An accepted hand-over leaves the call waiting, the message with the broker. */
  lemma {:induction false} CallEnds(run: seq<Channel>, actions: seq<Action>, i: nat, call: nat)
    requires IsRun(run, actions) && i < |actions| && run[0] == Connected(true)
    ensures var c, d := run[i], run[i + 1];
      && (actions[i] == Hand(call, false) ==> At(d, call, Returned(SendFailed)) && d.mutex.None?)
      && (actions[i] == Hand(call, true) ==> At(d, call, Waiting) && d.mutex == Some(call) && d.outstanding == {call})
      && (actions[i] == Receive(call) ==>
            && d.mutex.None? && d.confirmations == []
            && if c.confirmations == [] then c.closed && At(d, call, Returned(ClosedFirst))
               else c.confirmations[0].message == call
                    && At(d, call, Returned(if c.confirmations[0].ack then Ok else Nacked)))
  {
    RunMatched(run, actions, i);
    RunMatched(run, actions, i + 1);
  }
}
