/** The connection manager of internal/core/pubsub/pubsub.go: one `Start`, the reconnect loop
    it spawns, any number of `Shutdown` calls with their two `closeConn` each, and a broker
    that may fail at any moment.

    Go channels that are closed, `close` and `waitConnection`, are numbered instances; the
    model counts how often each instance is closed. Each step is one access to shared state;
    the mutex is explicit. */
module Reconnect {
  import opened Options

  /** Who holds the mutex. */
  datatype Owner = Free | Starter | Reconnector | Closer(id: nat)

  /** `Start`, and `connect` after it. */
  datatype Start =
    | NotStarted | Locked | Unlocked       // about to test `connected`; about to connect
    | Dialled                              // about to set `connected` and spawn the loop
    | StartDone

  /** The reconnect loop. */
  datatype Loop =
    | NotSpawned
    | Registering                          // about to register the two notifications
    | Selecting                            // in the inner loop
    | Branch(chan: bool)                   // in a notify branch, about to take the mutex
    | InBranch(chan: bool)                 // in a notify branch, holding the mutex
    | Redialling                           // about to dial again
    | Redialled                            // about to set `connected`
    | SettingConnected                     // holding the mutex
    | Reopening                            // about to close `waitConnection`, line 135
    | LoopDone

  /** One `closeConn`. */
  datatype Closing = Calling | Testing | Closing | ClosingDone

  datatype Manager = Manager(
    mutex: Owner,
    connected: bool,
    close: nat,                 // the instance in `m.close`
    closes: seq<nat>,           // how often each `close` instance was closed
    wait: nat,                  // the instance in `m.waitConnection`
    waits: seq<nat>,            // how often each `waitConnection` instance was closed
    start: Start,
    loop: Loop,
    chanPending: bool,          // chanNotifyClose != nil
    connPending: bool,          // notifyClose != nil
    chanMade: Option<nat>,      // the instance the channel branch made since registering
    connMade: Option<nat>,      // the instance the connection branch made since registering
    closers: map<nat, Closing>)

  /** After `New`: both channels are made, and `waitConnection` is closed once, line 47. */
  const NEW: Manager :=
    Manager(Free, false, 0, [0], 0, [1], NotStarted, NotSpawned, false, false, None, None, map[])

  predicate IsClosed(counts: seq<nat>, k: nat) {
    k < |counts| && counts[k] > 0
  }

  datatype Action =
    | BeginStart | TestStart | DialStart(ok: bool) | FinishStart
    | Register | Notified(chan: bool) | TakeBranch | Recreate | SeeClose | LeaveInner
    | Redial(ok: bool) | LockConnected | SetConnected | CloseWait
    | CallClose(id: nat) | LockClose(id: nat) | TestClose(id: nat) | DoClose(id: nat)

  predicate AtCloser(m: Manager, id: nat, where: Closing) {
    id in m.closers && m.closers[id] == where
  }

  predicate Enabled(m: Manager, a: Action) {
    match a
    case BeginStart => m.start.NotStarted? && m.mutex.Free?
    case TestStart => m.start.Locked?
    case DialStart(_) => m.start.Unlocked?
    case FinishStart => m.start.Dialled? && m.mutex.Free?
    case Register => m.loop.Registering?
    case Notified(chan) => m.loop.Selecting? && (if chan then m.chanPending else m.connPending)
    case TakeBranch => m.loop.Branch? && m.mutex.Free?
    case Recreate => m.loop.InBranch?
    case SeeClose => m.loop.Selecting? && (m.chanPending || m.connPending) && IsClosed(m.closes, m.close)
    case LeaveInner => m.loop.Selecting? && !m.chanPending && !m.connPending
    case Redial(_) => m.loop.Redialling?
    case LockConnected => m.loop.Redialled? && m.mutex.Free?
    case SetConnected => m.loop.SettingConnected?
    case CloseWait => m.loop.Reopening?
    case CallClose(id) => id !in m.closers
    case LockClose(id) => AtCloser(m, id, Calling) && m.mutex.Free?
    case TestClose(id) => AtCloser(m, id, Testing)
    case DoClose(id) => AtCloser(m, id, Closing)
  }

  /** Closing instance `k` once more. */
  function Shut(counts: seq<nat>, k: nat): seq<nat> {
    if k < |counts| then counts[k := counts[k] + 1] else counts
  }

  function Apply(m: Manager, a: Action): Manager
    requires Enabled(m, a)
  {
    match a
    case BeginStart => m.(start := Locked, mutex := Starter)
    case TestStart =>
      if m.connected then m.(start := StartDone, mutex := Free)
      else if IsClosed(m.closes, m.close) then
        m.(start := Unlocked, mutex := Free, close := |m.closes|, closes := m.closes + [0])
      else m.(start := Unlocked, mutex := Free)
    case DialStart(ok) => m.(start := if ok then Dialled else StartDone)
    case FinishStart => m.(start := StartDone, connected := true, loop := Registering)
    case Register => m.(loop := Selecting, chanPending := true, connPending := true, chanMade := None, connMade := None)
    case Notified(chan) => m.(loop := Branch(chan))
    case TakeBranch => m.(loop := InBranch(m.loop.chan), mutex := Reconnector)
    case Recreate =>
      var n := m.(connected := false, wait := |m.waits|, waits := m.waits + [0], loop := Selecting, mutex := Free);
      if m.loop.chan then n.(chanPending := false, chanMade := Some(|m.waits|))
      else n.(connPending := false, connMade := Some(|m.waits|))
    case SeeClose => m.(loop := LoopDone)
    case LeaveInner => m.(loop := Redialling)
    case Redial(ok) => if ok then m.(loop := Redialled) else m
    case LockConnected => m.(loop := SettingConnected, mutex := Reconnector)
    case SetConnected => m.(loop := Reopening, connected := true, mutex := Free)
    case CloseWait => m.(loop := Registering, waits := Shut(m.waits, m.wait))
    case CallClose(id) => m.(closers := m.closers[id := Calling])
    case LockClose(id) => m.(closers := m.closers[id := Testing], mutex := Closer(id))
    case TestClose(id) =>
      if IsClosed(m.closes, m.close) then m.(closers := m.closers[id := ClosingDone], mutex := Free)
      else m.(closers := m.closers[id := Closing])
    case DoClose(id) =>
      m.(closers := m.closers[id := ClosingDone], mutex := Free, closes := Shut(m.closes, m.close), connected := false)
  }

  predicate IsRun(run: seq<Manager>, actions: seq<Action>) {
    && |run| == |actions| + 1
    && forall i :: 0 <= i < |actions| ==> Enabled(run[i], actions[i]) && run[i + 1] == Apply(run[i], actions[i])
  }

  /** No instance is closed twice: no close panics. */
  predicate ClosedOnce(counts: seq<nat>) {
    forall k :: 0 <= k < |counts| ==> counts[k] <= 1
  }

  /** The mutex is held by who is inside. */
  ghost predicate Exclusive(m: Manager) {
    && (m.start.Locked? <==> m.mutex.Starter?)
    && (m.loop.InBranch? || m.loop.SettingConnected? <==> m.mutex.Reconnector?)
    && (forall id <- m.closers :: m.closers[id].Testing? || m.closers[id].Closing? <==> m.mutex == Closer(id))
    && (m.mutex.Closer? ==> m.mutex.id in m.closers)
  }

  ghost predicate CloseSafe(m: Manager) {
    && m.close < |m.closes| && ClosedOnce(m.closes)
    && (forall id <- m.closers :: m.closers[id].Closing? ==> !IsClosed(m.closes, m.close))
  }

  /** Between registering and line 135 the loop has made the current `waitConnection` itself,
      in the branch taken last, and has not closed it. */
  ghost predicate WaitSafe(m: Manager) {
    && m.wait < |m.waits| && ClosedOnce(m.waits)
    && (!m.loop.NotSpawned? ==> m.start.StartDone?)
    && (m.loop.Selecting? || m.loop.Branch? || m.loop.InBranch? ==>
          && (m.chanPending <==> m.chanMade.None?) && (m.connPending <==> m.connMade.None?)
          && (m.loop.Branch? || m.loop.InBranch? ==> if m.loop.chan then m.chanPending else m.connPending))
    && (m.loop.Redialling? || m.loop.Redialled? || m.loop.SettingConnected? || m.loop.Reopening? ==>
          m.chanMade.Some? && m.connMade.Some?)
    && (!m.loop.Registering? && (m.chanMade.Some? || m.connMade.Some?) ==>
          && (m.chanMade == Some(m.wait) || m.connMade == Some(m.wait))
          && !IsClosed(m.waits, m.wait))
  }

  /** An action of `Start`, of the reconnect loop, or of a `closeConn`. */
  predicate OfStart(a: Action) {
    a.BeginStart? || a.TestStart? || a.DialStart? || a.FinishStart?
  }

  predicate OfCloser(a: Action) {
    a.CallClose? || a.LockClose? || a.TestClose? || a.DoClose?
  }

  predicate OfLoop(a: Action) {
    !OfStart(a) && !OfCloser(a)
  }

  lemma {:induction false} StartExclusive(m: Manager, a: Action)
    requires Enabled(m, a) && Exclusive(m) && OfStart(a)
    ensures Exclusive(Apply(m, a))
  {
  }

  lemma {:induction false} LoopExclusive(m: Manager, a: Action)
    requires Enabled(m, a) && Exclusive(m) && OfLoop(a)
    ensures Exclusive(Apply(m, a))
  {
  }

  lemma {:induction false} CloserExclusive(m: Manager, a: Action)
    requires Enabled(m, a) && Exclusive(m) && OfCloser(a)
    ensures Exclusive(Apply(m, a))
  {
  }

  lemma {:induction false} StepExclusive(m: Manager, a: Action)
    requires Enabled(m, a) && Exclusive(m)
    ensures Exclusive(Apply(m, a))
  {
    if OfStart(a) {
      StartExclusive(m, a);
    } else if OfLoop(a) {
      LoopExclusive(m, a);
    } else {
      CloserExclusive(m, a);
    }
  }

  lemma {:induction false} StartCloseSafe(m: Manager, a: Action)
    requires Enabled(m, a) && Exclusive(m) && CloseSafe(m) && OfStart(a)
    ensures CloseSafe(Apply(m, a))
  {
  }

  lemma {:induction false} LoopCloseSafe(m: Manager, a: Action)
    requires Enabled(m, a) && Exclusive(m) && CloseSafe(m) && OfLoop(a)
    ensures CloseSafe(Apply(m, a))
  {
  }

  lemma {:induction false} CloserCloseSafe(m: Manager, a: Action)
    requires Enabled(m, a) && Exclusive(m) && CloseSafe(m) && OfCloser(a)
    ensures CloseSafe(Apply(m, a))
  {
  }

  lemma {:induction false} StepCloseSafe(m: Manager, a: Action)
    requires Enabled(m, a) && Exclusive(m) && CloseSafe(m)
    ensures CloseSafe(Apply(m, a))
  {
    if OfStart(a) {
      StartCloseSafe(m, a);
    } else if OfLoop(a) {
      LoopCloseSafe(m, a);
    } else {
      CloserCloseSafe(m, a);
    }
  }

  lemma {:induction false} StartWaitSafe(m: Manager, a: Action)
    requires Enabled(m, a) && WaitSafe(m) && OfStart(a)
    ensures WaitSafe(Apply(m, a))
  {
  }

  lemma {:induction false} LoopWaitSafe(m: Manager, a: Action)
    requires Enabled(m, a) && WaitSafe(m) && OfLoop(a)
    ensures WaitSafe(Apply(m, a))
  {
  }

  lemma {:induction false} CloserWaitSafe(m: Manager, a: Action)
    requires Enabled(m, a) && WaitSafe(m) && OfCloser(a)
    ensures WaitSafe(Apply(m, a))
  {
  }

  lemma {:induction false} StepWaitSafe(m: Manager, a: Action)
    requires Enabled(m, a) && WaitSafe(m)
    ensures WaitSafe(Apply(m, a))
  {
    if OfStart(a) {
      StartWaitSafe(m, a);
    } else if OfLoop(a) {
      LoopWaitSafe(m, a);
    } else {
      CloserWaitSafe(m, a);
    }
  }

  lemma {:induction false} RunSafe(run: seq<Manager>, actions: seq<Action>, i: nat)
    requires IsRun(run, actions) && i < |run| && run[0] == NEW
    ensures Exclusive(run[i]) && CloseSafe(run[i]) && WaitSafe(run[i])
  {
    if i > 0 {
      RunSafe(run, actions, i - 1);
      StepExclusive(run[i - 1], actions[i - 1]);
      StepCloseSafe(run[i - 1], actions[i - 1]);
      StepWaitSafe(run[i - 1], actions[i - 1]);
    }
  }

  /** Both fields hold instances that were made. */
  lemma {:induction false} InRange(run: seq<Manager>, actions: seq<Action>, i: nat)
    requires IsRun(run, actions) && i < |run| && run[0] == NEW
    ensures run[i].close < |run[i].closes| && run[i].wait < |run[i].waits|
  {
    RunSafe(run, actions, i);
  }

  /** In every run no channel is closed twice. */
  lemma NeverClosedTwice(run: seq<Manager>, actions: seq<Action>, i: nat)
    requires IsRun(run, actions) && i < |run| && run[0] == NEW
    ensures ClosedOnce(run[i].closes) && ClosedOnce(run[i].waits)
  {
    RunSafe(run, actions, i);
  }

  /** A notify branch made instance `k` at step `j`, and the loop has not registered again since. */
  predicate MadeAt(run: seq<Manager>, actions: seq<Action>, i: nat, chan: bool, k: nat, j: nat)
    requires IsRun(run, actions) && i < |run|
  {
    && j < i && actions[j] == Recreate && run[j].loop == InBranch(chan) && k == |run[j].waits|
    && forall l :: j <= l < i ==> actions[l] != Register
  }

  function Made(m: Manager, chan: bool): Option<nat> {
    if chan then m.chanMade else m.connMade
  }

  lemma {:induction false} MadeStep(m: Manager, a: Action, chan: bool)
    requires Enabled(m, a)
    ensures Made(Apply(m, a), chan) ==
            if a == Register then None
            else if a == Recreate && m.loop == InBranch(chan) then Some(|m.waits|)
            else Made(m, chan)
  {
  }

  lemma {:induction false} RunMade(run: seq<Manager>, actions: seq<Action>, i: nat, chan: bool)
    requires IsRun(run, actions) && i < |run| && run[0] == NEW
    requires Made(run[i], chan).Some?
    ensures exists j :: MadeAt(run, actions, i, chan, Made(run[i], chan).value, j)
  {
    assert i > 0;
    var m, a := run[i - 1], actions[i - 1];
    MadeStep(m, a, chan);
    if a == Recreate && m.loop == InBranch(chan) {
      assert MadeAt(run, actions, i, chan, |m.waits|, i - 1);
    } else {
      RunMade(run, actions, i - 1, chan);
      var j :| MadeAt(run, actions, i - 1, chan, Made(m, chan).value, j);
      assert MadeAt(run, actions, i, chan, Made(m, chan).value, j);
    }
  }

  lemma {:induction false} WaitStep(m: Manager, a: Action)
    requires Enabled(m, a) && m.wait < |m.waits|
    ensures Apply(m, a).wait == if a == Recreate then |m.waits| else m.wait
  {
  }

  /** Later instances of `waitConnection` have higher numbers. */
  lemma {:induction false} WaitGrows(run: seq<Manager>, actions: seq<Action>, j: nat, i: nat)
    requires IsRun(run, actions) && j <= i < |run| && run[0] == NEW
    ensures run[j].wait <= run[i].wait
  {
    if j < i {
      WaitGrows(run, actions, j, i - 1);
      InRange(run, actions, i - 1);
      WaitStep(run[i - 1], actions[i - 1]);
    }
  }

  /** What a notify branch made is not later than the current instance. */
  lemma {:induction false} MadeNotLater(run: seq<Manager>, actions: seq<Action>, i: nat, chan: bool, k: nat, j: nat)
    requires IsRun(run, actions) && i < |run| && run[0] == NEW && MadeAt(run, actions, i, chan, k, j)
    ensures k <= run[i].wait
  {
    InRange(run, actions, j);
    WaitStep(run[j], actions[j]);
    WaitGrows(run, actions, j + 1, i);
  }

  /** In every run, line 135 is reached only after both notify branches have made a new
      `waitConnection` since the last registration; the one it closes is the later of the two,
      and was not closed before. */
  lemma {:induction false} ReopensFresh(run: seq<Manager>, actions: seq<Action>, i: nat)
    requires IsRun(run, actions) && i < |actions| && run[0] == NEW && actions[i] == CloseWait
    ensures exists k, j :: MadeAt(run, actions, i, true, k, j)
    ensures exists k, j :: MadeAt(run, actions, i, false, k, j)
    ensures exists chan, j :: MadeAt(run, actions, i, chan, run[i].wait, j)
    ensures forall chan, k: nat, j: nat :: MadeAt(run, actions, i, chan, k, j) ==> k <= run[i].wait
    ensures !IsClosed(run[i].waits, run[i].wait)
  {
    RunSafe(run, actions, i);
    RunMade(run, actions, i, true);
    RunMade(run, actions, i, false);
    forall chan, k: nat, j: nat | MadeAt(run, actions, i, chan, k, j)
      ensures k <= run[i].wait
    {
      MadeNotLater(run, actions, i, chan, k, j);
    }
  }

  // ---- What closing does ----

  /** How often the first `i` steps close instance `k` of `close`. */
  function TimesClosed(run: seq<Manager>, actions: seq<Action>, i: nat, k: nat): nat
    requires IsRun(run, actions) && i < |run|
  {
    if i == 0 then 0
    else TimesClosed(run, actions, i - 1, k) + if actions[i - 1].DoClose? && run[i - 1].close == k then 1 else 0
  }

  /** How often the first `i` steps close instance `k` of `waitConnection`. */
  function TimesReopened(run: seq<Manager>, actions: seq<Action>, i: nat, k: nat): nat
    requires IsRun(run, actions) && i < |run|
  {
    if i == 0 then 0
    else TimesReopened(run, actions, i - 1, k) + if actions[i - 1] == CloseWait && run[i - 1].wait == k then 1 else 0
  }

  lemma {:induction false} StepCloses(m: Manager, a: Action)
    requires Enabled(m, a) && m.close < |m.closes|
    ensures var n := Apply(m, a);
      && |m.closes| <= |n.closes|
      && (forall k :: 0 <= k < |m.closes| ==> n.closes[k] == m.closes[k] + if a.DoClose? && m.close == k then 1 else 0)
      && (forall k :: |m.closes| <= k < |n.closes| ==> n.closes[k] == 0)
  {
  }

  lemma {:induction false} StepReopens(m: Manager, a: Action)
    requires Enabled(m, a) && m.wait < |m.waits|
    ensures var n := Apply(m, a);
      && |m.waits| <= |n.waits|
      && (forall k :: 0 <= k < |m.waits| ==> n.waits[k] == m.waits[k] + if a == CloseWait && m.wait == k then 1 else 0)
      && (forall k :: |m.waits| <= k < |n.waits| ==> n.waits[k] == 0)
  {
  }

  /** The counters count: an instance of `close` is closed as often as some `closeConn` closes
      it, and one of `waitConnection` as often as line 135 does, the first once more. */
  lemma {:induction false} ClosingsCounted(run: seq<Manager>, actions: seq<Action>, i: nat, k: nat)
    requires IsRun(run, actions) && i < |run| && run[0] == NEW
    ensures TimesClosed(run, actions, i, k) == if k < |run[i].closes| then run[i].closes[k] else 0
    ensures TimesReopened(run, actions, i, k) + (if k == 0 then 1 else 0)
         == if k < |run[i].waits| then run[i].waits[k] else 0
  {
    if i > 0 {
      ClosingsCounted(run, actions, i - 1, k);
      InRange(run, actions, i - 1);
      StepCloses(run[i - 1], actions[i - 1]);
      StepReopens(run[i - 1], actions[i - 1]);
    }
  }

  /** In every run, closing a channel leaves it closed. */
  lemma {:induction false} ClosingCloses(run: seq<Manager>, actions: seq<Action>, i: nat)
    requires IsRun(run, actions) && i < |actions| && run[0] == NEW
    ensures actions[i].DoClose? ==> IsClosed(run[i + 1].closes, run[i].close) && !IsClosed(run[i].closes, run[i].close)
    ensures actions[i] == CloseWait ==> IsClosed(run[i + 1].waits, run[i].wait) && !IsClosed(run[i].waits, run[i].wait)
  {
    RunSafe(run, actions, i);
    StepCloses(run[i], actions[i]);
    StepReopens(run[i], actions[i]);
    if actions[i] == CloseWait {
      ReopensFresh(run, actions, i);
    }
  }

  /** What is closed stays closed. */
  lemma {:induction false} StaysClosed(run: seq<Manager>, actions: seq<Action>, i: nat, j: nat, k: nat)
    requires IsRun(run, actions) && i <= j < |run| && run[0] == NEW
    ensures IsClosed(run[i].closes, k) ==> IsClosed(run[j].closes, k)
    ensures IsClosed(run[i].waits, k) ==> IsClosed(run[j].waits, k)
  {
    if i < j {
      StaysClosed(run, actions, i, j - 1, k);
      InRange(run, actions, j - 1);
      StepCloses(run[j - 1], actions[j - 1]);
      StepReopens(run[j - 1], actions[j - 1]);
    }
  }

  /** In every run, two steps never close the same channel, and none closes the channel that
      `New` has closed. */
  lemma {:induction false} DifferentChannels(run: seq<Manager>, actions: seq<Action>, i: nat, j: nat)
    requires IsRun(run, actions) && i < j < |actions| && run[0] == NEW
    ensures actions[i].DoClose? && actions[j].DoClose? ==> run[i].close != run[j].close
    ensures actions[i] == CloseWait && actions[j] == CloseWait ==> run[i].wait != run[j].wait
    ensures actions[j] == CloseWait ==> run[j].wait != 0
  {
    ClosingCloses(run, actions, i);
    ClosingCloses(run, actions, j);
    StaysClosed(run, actions, i + 1, j, run[i].close);
    StaysClosed(run, actions, i + 1, j, run[i].wait);
    StaysClosed(run, actions, 0, j, 0);
  }

  // ---- Connected ----

  /** The last of the first `i` steps that says so says connected. */
  predicate SaidConnected(actions: seq<Action>, i: nat)
    requires i <= |actions|
  {
    i > 0 &&
    match actions[i - 1]
    case FinishStart => true
    case SetConnected => true
    case Recreate => false
    case DoClose(_) => false
    case _ => SaidConnected(actions, i - 1)
  }

  lemma {:induction false} ConnectedStep(m: Manager, a: Action)
    requires Enabled(m, a)
    ensures Apply(m, a).connected ==
            if a == FinishStart || a == SetConnected then true
            else if a == Recreate || a.DoClose? then false
            else m.connected
  {
  }

  /** In every run, `connected` tells whether the last of the steps that connect, lose the
      connection or shut down was one that connects. */
  lemma {:induction false} ConnectedSaid(run: seq<Manager>, actions: seq<Action>, i: nat)
    requires IsRun(run, actions) && i < |run| && run[0] == NEW
    ensures run[i].connected <==> SaidConnected(actions, i)
  {
    if i > 0 {
      ConnectedSaid(run, actions, i - 1);
      ConnectedStep(run[i - 1], actions[i - 1]);
    }
  }

  /** `Start` on a connected manager ends at once; otherwise it leaves an open `close` behind,
      a new one if the old one was closed. */
  lemma {:induction false} StartReopens(run: seq<Manager>, actions: seq<Action>, i: nat)
    requires IsRun(run, actions) && i < |actions| && run[0] == NEW && actions[i] == TestStart
    ensures var m, n := run[i], run[i + 1];
      if SaidConnected(actions, i) then n.start.StartDone? && n.close == m.close && n.closes == m.closes
      else n.start.Unlocked? && !IsClosed(n.closes, n.close) && (n.close == m.close <==> !IsClosed(m.closes, m.close))
  {
    ConnectedSaid(run, actions, i);
    RunSafe(run, actions, i);
  }

  lemma {:induction false} LoopEndsStep(m: Manager, a: Action)
    requires Enabled(m, a)
    ensures var n := Apply(m, a);
      n.loop.LoopDone? ==>
        && n.chanPending == m.chanPending && n.connPending == m.connPending
        && (m.loop.LoopDone? || ((m.chanPending || m.connPending) && a == SeeClose && IsClosed(m.closes, m.close)))
  {
  }

  /** In every run, the reconnect loop ends only after a `closeConn` has closed the channel,
      and while it still waits for a notification. */
  lemma {:induction false} LoopEndsClosed(run: seq<Manager>, actions: seq<Action>, i: nat)
    requires IsRun(run, actions) && i < |run| && run[0] == NEW && run[i].loop.LoopDone?
    ensures exists j :: 0 <= j < i && actions[j].DoClose?
    ensures run[i].chanPending || run[i].connPending
  {
    if i > 0 {
      LoopEndsStep(run[i - 1], actions[i - 1]);
      if run[i - 1].loop.LoopDone? {
        LoopEndsClosed(run, actions, i - 1);
      } else {
        ClosedBySome(run, actions, i - 1, run[i - 1].close);
      }
    }
  }

  lemma {:induction false} ClosedBySome(run: seq<Manager>, actions: seq<Action>, i: nat, k: nat)
    requires IsRun(run, actions) && i < |run| && run[0] == NEW && IsClosed(run[i].closes, k)
    ensures exists j :: 0 <= j < i && actions[j].DoClose? && run[j].close == k
  {
    assert i > 0;
    InRange(run, actions, i - 1);
    StepCloses(run[i - 1], actions[i - 1]);
    if !(actions[i - 1].DoClose? && run[i - 1].close == k) {
      ClosedBySome(run, actions, i - 1, k);
    }
  }

  // ---- What ends, and what came before ----

  lemma {:induction false} EndsStep(m: Manager, a: Action, id: nat)
    requires Enabled(m, a) && m.close < |m.closes| && AtCloser(Apply(m, a), id, ClosingDone)
    ensures || AtCloser(m, id, ClosingDone)
            || ((a == TestClose(id) || a == DoClose(id)) && IsClosed(Apply(m, a).closes, m.close))
  {
  }

  /** In every run, a `closeConn` ends only when the `close` it met has been closed, by itself
      or by another. */
  lemma {:induction false} EndedClosed(run: seq<Manager>, actions: seq<Action>, i: nat, id: nat)
    requires IsRun(run, actions) && i < |run| && run[0] == NEW && AtCloser(run[i], id, ClosingDone)
    ensures exists j :: 0 <= j < i && (actions[j] == TestClose(id) || actions[j] == DoClose(id))
                        && IsClosed(run[i].closes, run[j].close)
  {
    assert i > 0;
    InRange(run, actions, i - 1);
    EndsStep(run[i - 1], actions[i - 1], id);
    if AtCloser(run[i - 1], id, ClosingDone) {
      EndedClosed(run, actions, i - 1, id);
      var j :| 0 <= j < i - 1 && (actions[j] == TestClose(id) || actions[j] == DoClose(id))
               && IsClosed(run[i - 1].closes, run[j].close);
      StaysClosed(run, actions, i - 1, i, run[j].close);
    }
  }

  /** A dial succeeded at step `j`, and the loop has not registered since. */
  predicate DialledAt(run: seq<Manager>, actions: seq<Action>, i: nat, j: nat)
    requires IsRun(run, actions) && i < |run|
  {
    && j < i && actions[j] == Redial(true)
    && forall l :: j <= l < i ==> actions[l] != Register
  }

  lemma {:induction false} DialStep(m: Manager, a: Action)
    requires Enabled(m, a)
    ensures Apply(m, a).start.Dialled? ==> m.start.Dialled? || a == DialStart(true)
    ensures var here, there := m.loop, Apply(m, a).loop;
      there.Redialled? || there.SettingConnected? || there.Reopening? ==>
        || ((here.Redialled? || here.SettingConnected? || here.Reopening?) && a != Register)
        || a == Redial(true)
  {
  }

  /** In every run, `Start` and the loop report a connection only after a dial that succeeded,
      the loop after one since it last registered. */
  lemma {:induction false} DialledBefore(run: seq<Manager>, actions: seq<Action>, i: nat)
    requires IsRun(run, actions) && i < |run| && run[0] == NEW
    ensures run[i].start.Dialled? ==> exists j :: 0 <= j < i && actions[j] == DialStart(true)
    ensures run[i].loop.Redialled? || run[i].loop.SettingConnected? || run[i].loop.Reopening? ==>
              exists j :: DialledAt(run, actions, i, j)
  {
    if i > 0 {
      DialledBefore(run, actions, i - 1);
      DialStep(run[i - 1], actions[i - 1]);
      var loop := run[i].loop;
      if loop.Redialled? || loop.SettingConnected? || loop.Reopening? {
        if actions[i - 1] == Redial(true) {
          assert DialledAt(run, actions, i, i - 1);
        } else {
          var j :| DialledAt(run, actions, i - 1, j);
          assert DialledAt(run, actions, i, j);
        }
      }
    }
  }

  /** So a connected manager has dialled with success. */
  lemma {:induction false} ConnectedDialled(run: seq<Manager>, actions: seq<Action>, i: nat)
    requires IsRun(run, actions) && i < |run| && run[0] == NEW && run[i].connected
    ensures exists j :: 0 <= j < i && (actions[j] == DialStart(true) || actions[j] == Redial(true))
  {
    assert i > 0;
    ConnectedStep(run[i - 1], actions[i - 1]);
    if run[i - 1].connected {
      ConnectedDialled(run, actions, i - 1);
    } else {
      DialledBefore(run, actions, i - 1);
      if actions[i - 1] == SetConnected {
        var j: nat :| DialledAt(run, actions, i - 1, j);
        assert actions[j] == Redial(true);
      }
    }
  }
}
