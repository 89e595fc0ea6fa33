/** What the connection manager can still do: in no reachable state is it stuck. */
module ReconnectProgress {
  import opened Options
  import opened Reconnect

  /** Some run leads from `m` to `n`. */
  ghost predicate Leads(m: Manager, n: Manager) {
    exists run, actions :: IsRun(run, actions) && run[0] == m && run[|actions|] == n
  }

  lemma LeadsSelf(m: Manager)
    ensures Leads(m, m)
  {
    assert IsRun([m], []);
  }

  lemma LeadsStep(m: Manager, a: Action, n: Manager)
    requires Enabled(m, a) && Leads(Apply(m, a), n)
    ensures Leads(m, n)
  {
    var run, actions :| IsRun(run, actions) && run[0] == Apply(m, a) && run[|actions|] == n;
    var longer, more := [m] + run, [a] + actions;
    forall i | 0 <= i < |more|
      ensures Enabled(longer[i], more[i]) && longer[i + 1] == Apply(longer[i], more[i])
    {
      if i > 0 {
        assert Enabled(run[i - 1], actions[i - 1]);
      }
    }
    assert IsRun(longer, more) && longer[|more|] == n;
  }

  /** What holds in every reachable state. */
  ghost predicate Safe(m: Manager) {
    Exclusive(m) && CloseSafe(m) && WaitSafe(m) && (m.loop.NotSpawned? ==> !m.connected)
  }

  lemma {:induction false} StepUnspawned(m: Manager, a: Action)
    requires Enabled(m, a) && (m.loop.NotSpawned? ==> !m.connected)
    ensures Apply(m, a).loop.NotSpawned? ==> !Apply(m, a).connected
  {
  }

  lemma {:induction false} StepSafe(m: Manager, a: Action)
    requires Enabled(m, a) && Safe(m)
    ensures Safe(Apply(m, a))
  {
    StepExclusive(m, a);
    StepCloseSafe(m, a);
    StepWaitSafe(m, a);
    StepUnspawned(m, a);
  }

  lemma {:induction false} RunStaysSafe(run: seq<Manager>, actions: seq<Action>, i: nat)
    requires IsRun(run, actions) && i < |run| && run[0] == NEW
    ensures Safe(run[i])
  {
    if i > 0 {
      RunStaysSafe(run, actions, i - 1);
      StepSafe(run[i - 1], actions[i - 1]);
    }
  }

  /** `Start` is still to come or under way, or the loop is spawned and has not ended. */
  predicate Alive(m: Manager) {
    (m.loop.NotSpawned? ==> !m.start.StartDone?) && !m.loop.LoopDone?
  }

  function Unspawned(m: Manager): nat {
    match m.start
    case NotStarted => 4
    case Locked => 3
    case Unlocked => 2
    case Dialled => 1
    case StartDone => 0
  }

  function Pending(m: Manager): nat {
    (if m.chanPending then 1 else 0) + (if m.connPending then 1 else 0)
  }

  /** Steps of `Start` and the loop until line 135. */
  function ToReopen(m: Manager): nat {
    match m.loop
    case NotSpawned => 12 + Unspawned(m)
    case Registering => 11
    case Selecting => 4 + 3 * Pending(m)
    case Branch(_) => 3 + 3 * Pending(m)
    case InBranch(_) => 2 + 3 * Pending(m)
    case Redialling => 3
    case Redialled => 2
    case SettingConnected => 1
    case Reopening => 0
    case LoopDone => 0
  }

  /** Steps until the holder of the mutex lets go of it, for a `closeConn`. */
  function ToRelease(m: Manager): nat {
    if m.mutex.Closer? && m.mutex.id in m.closers then
      if m.closers[m.mutex.id].Testing? then 2 else 1
    else 0
  }

  /** The next step towards line 135: first a `closeConn` inside finishes. */
  function Reopener(m: Manager): Action {
    if m.mutex.Closer? then
      if AtCloser(m, m.mutex.id, Testing) then TestClose(m.mutex.id) else DoClose(m.mutex.id)
    else match m.loop
      case NotSpawned =>
        (match m.start
         case NotStarted => BeginStart
         case Locked => TestStart
         case Unlocked => DialStart(true)
         case _ => FinishStart)
      case Registering => Register
      case Selecting => if m.chanPending || m.connPending then Notified(m.chanPending) else LeaveInner
      case Branch(_) => TakeBranch
      case InBranch(_) => Recreate
      case Redialling => Redial(true)
      case Redialled => LockConnected
      case SettingConnected => SetConnected
      case _ => CloseWait
  }

  lemma {:induction false} ReopenerCloser(m: Manager)
    requires Safe(m) && Alive(m) && m.mutex.Closer?
    ensures Enabled(m, Reopener(m))
    ensures var n := Apply(m, Reopener(m)); Alive(n) && ToReopen(n) == ToReopen(m) && ToRelease(n) < ToRelease(m)
  {
  }

  lemma {:induction false} ReopenerMoves(m: Manager)
    requires Safe(m) && Alive(m) && !m.mutex.Closer? && !m.loop.Reopening?
    ensures Enabled(m, Reopener(m))
    ensures var n := Apply(m, Reopener(m)); Alive(n) && ToReopen(n) < ToReopen(m) && n.closers == m.closers
  {
  }

  lemma {:induction false} LeadsToReopening(m: Manager)
    requires Safe(m) && Alive(m)
    ensures exists n :: Leads(m, n) && n.loop.Reopening?
    decreases ToReopen(m), ToRelease(m)
  {
    if m.loop.Reopening? {
      LeadsSelf(m);
    } else {
      if m.mutex.Closer? {
        ReopenerCloser(m);
      } else {
        ReopenerMoves(m);
      }
      var next := Apply(m, Reopener(m));
      StepSafe(m, Reopener(m));
      LeadsToReopening(next);
      var n :| Leads(next, n) && n.loop.Reopening?;
      LeadsStep(m, Reopener(m), n);
    }
  }

  /** In every run, as long as `Start` has not failed and the loop has not ended, the manager
      can still connect, lose the connection, connect again and reach line 135: nobody holds
      the mutex for good. */
  lemma {:induction false} CanReconnect(run: seq<Manager>, actions: seq<Action>, i: nat)
    requires IsRun(run, actions) && i < |run| && run[0] == NEW && Alive(run[i])
    ensures exists n :: Leads(run[i], n) && n.loop.Reopening?
  {
    RunStaysSafe(run, actions, i);
    LeadsToReopening(run[i]);
  }

  // ---- Shutting down ----

  /** Steps of `Start` and the loop until the loop can see that `close` is closed, and ends. */
  function ToStop(m: Manager): nat {
    match m.loop
    case NotSpawned => 10 + Unspawned(m)
    case Branch(_) => 9
    case InBranch(_) => 8
    case Selecting => if m.chanPending || m.connPending then 1 else 7
    case Redialling => 6
    case Redialled => 5
    case SettingConnected => 4
    case Reopening => 3
    case Registering => 2
    case LoopDone => 0
  }

  /** Steps of the `closeConn` called `id` until it is inside. */
  function ToClose(m: Manager, id: nat): nat {
    if IsClosed(m.closes, m.close) then 0
    else if id !in m.closers then 2
    else if m.closers[id].Calling? then 1
    else 0
  }

  /** The `closeConn` called `id` is not called before the loop is ready, and not in vain. */
  predicate Ready(m: Manager, id: nat) {
    id in m.closers ==> ToStop(m) <= 1 && (IsClosed(m.closes, m.close) || !m.closers[id].ClosingDone?)
  }

  /** The next step towards the end of the loop. */
  function Stopper(m: Manager, id: nat): Action {
    if m.mutex.Closer? || ToStop(m) > 1 then Reopener(m)
    else if IsClosed(m.closes, m.close) then SeeClose
    else if id in m.closers then LockClose(id)
    else CallClose(id)
  }

  lemma {:induction false} StopperCloser(m: Manager, id: nat)
    requires Safe(m) && Alive(m) && Ready(m, id) && m.mutex.Closer?
    ensures Enabled(m, Stopper(m, id))
    ensures var n := Apply(m, Stopper(m, id));
      && Alive(n) && Ready(n, id)
      && ToStop(n) == ToStop(m) && ToClose(n, id) <= ToClose(m, id) && ToRelease(n) < ToRelease(m)
  {
  }

  lemma {:induction false} StopperMoves(m: Manager, id: nat)
    requires Safe(m) && Alive(m) && Ready(m, id) && !m.mutex.Closer? && ToStop(m) > 1
    ensures Enabled(m, Stopper(m, id))
    ensures var n := Apply(m, Stopper(m, id)); Alive(n) && Ready(n, id) && ToStop(n) < ToStop(m)
  {
  }

  lemma {:induction false} StopperCloses(m: Manager, id: nat)
    requires Safe(m) && Alive(m) && Ready(m, id) && !m.mutex.Closer? && ToStop(m) <= 1
    requires !IsClosed(m.closes, m.close)
    ensures Enabled(m, Stopper(m, id))
    ensures var n := Apply(m, Stopper(m, id));
      Alive(n) && Ready(n, id) && ToStop(n) == ToStop(m) && ToClose(n, id) < ToClose(m, id)
  {
  }

  lemma {:induction false} LeadsToEnd(m: Manager, id: nat)
    requires Safe(m) && Alive(m) && Ready(m, id)
    ensures exists n :: Leads(m, n) && n.loop.LoopDone?
    decreases ToStop(m), ToClose(m, id), ToRelease(m)
  {
    if m.mutex.Closer? {
      StopperCloser(m, id);
    } else if ToStop(m) > 1 {
      StopperMoves(m, id);
    } else if !IsClosed(m.closes, m.close) {
      StopperCloses(m, id);
    }
    var a := Stopper(m, id);
    StepSafe(m, a);
    if a == SeeClose {
      LeadsSelf(Apply(m, a));
    } else {
      LeadsToEnd(Apply(m, a), id);
    }
    var n :| Leads(Apply(m, a), n) && n.loop.LoopDone?;
    LeadsStep(m, a, n);
  }

  /** In every run, as long as `Start` has not failed and the loop has not ended, one further
      `closeConn` can end it, wherever everybody else stands. */
  lemma {:induction false} CanStop(run: seq<Manager>, actions: seq<Action>, i: nat, id: nat)
    requires IsRun(run, actions) && i < |run| && run[0] == NEW && Alive(run[i]) && id !in run[i].closers
    ensures exists n :: Leads(run[i], n) && n.loop.LoopDone?
  {
    RunStaysSafe(run, actions, i);
    LeadsToEnd(run[i], id);
  }
}
