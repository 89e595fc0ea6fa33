/** The two models of the inbound pipeline agree: a delivery that runs without interference ends
    where the sequential provider does, having made the same sends. */
module SingleDelivery {
  import opened Options
  import opened Facebook
  import opened Identity
  import opened Deliveries
  import W = Webhook

  // ---- Several steps ----

  /** A step of a delivery itself, not of the rest of the world. */
  predicate Own(a: Action) {
    !a.SetRow? && !a.DeleteRow? && !a.Drop? && !a.Expire? && !a.Elsewhere?
  }

  /** The send an action attempts, if any. */
  function Attempt(s: Sys, id: nat, a: Action): seq<Call> {
    if a.Send? && AtEvent(s, id) && s.tasks[id].stage.Sending? && s.tasks[id].stage.todo != []
    then [s.tasks[id].stage.todo[0]]
    else []
  }

  /** One step on the way: the state it is taken in, and what is done. */
  datatype Leg = Leg(state: Sys, action: Action)

  /** Leg `i` is one of delivery `id`, and leads to the next leg or to `t`. */
  predicate LegAt(legs: seq<Leg>, id: nat, t: Sys, i: nat)
    requires i < |legs|
  {
    && Own(legs[i].action) && Enabled(legs[i].state, id, legs[i].action)
    && Apply(legs[i].state, id, legs[i].action) == if i + 1 < |legs| then legs[i + 1].state else t
  }

  /** The sends attempted on the way. */
  function SentOn(legs: seq<Leg>, id: nat): seq<Call> {
    if legs == [] then []
    else SentOn(legs[..|legs| - 1], id) + Attempt(legs[|legs| - 1].state, id, legs[|legs| - 1].action)
  }

  /** Delivery `id` alone goes from `s` to `t` by `legs`, and attempts `sent` on the way. */
  ghost predicate Goes(s: Sys, id: nat, legs: seq<Leg>, sent: seq<Call>, t: Sys) {
    && s == (if legs == [] then t else legs[0].state)
    && Way(legs, id, t) && sent == SentOn(legs, id)
  }

  ghost predicate Way(legs: seq<Leg>, id: nat, t: Sys) {
    forall i :: 0 <= i < |legs| ==> LegAt(legs, id, t, i)
  }

  lemma {:induction false} SentConcat(a: seq<Leg>, b: seq<Leg>, id: nat)
    ensures SentOn(a + b, id) == SentOn(a, id) + SentOn(b, id)
  {
    if b == [] {
      assert a + b == a;
    } else {
      var front := b[..|b| - 1];
      assert (a + b)[..|a + b| - 1] == a + front;
      SentConcat(a, front, id);
    }
  }

  lemma {:induction false} WayConcat(a: seq<Leg>, b: seq<Leg>, id: nat, t: Sys, u: Sys)
    requires Way(a, id, t) && Way(b, id, u) && t == if b == [] then u else b[0].state
    ensures Way(a + b, id, u)
  {
    forall i | 0 <= i < |a + b|
      ensures LegAt(a + b, id, u, i)
    {
      if i < |a| {
        assert LegAt(a, id, t, i);
      } else {
        assert LegAt(b, id, u, i - |a|);
      }
    }
  }

  lemma {:induction false} GoesConcat(s: Sys, id: nat, a: seq<Leg>, x: seq<Call>, t: Sys, b: seq<Leg>,
                                      y: seq<Call>, u: Sys)
    requires Goes(s, id, a, x, t) && Goes(t, id, b, y, u)
    ensures Goes(s, id, a + b, x + y, u)
  {
    WayConcat(a, b, id, t, u);
    SentConcat(a, b, id);
  }

  lemma {:induction false} GoesOne(s: Sys, id: nat, a: Action)
    requires Own(a) && Enabled(s, id, a)
    ensures Goes(s, id, [Leg(s, a)], Attempt(s, id, a), Apply(s, id, a))
  {
    var legs := [Leg(s, a)];
    assert legs[..0] == [] && [] + Attempt(s, id, a) == Attempt(s, id, a);
    assert LegAt(legs, id, Apply(s, id, a), 0);
  }

  /** One action, and then others. */
  lemma {:induction false} GoesCons(s: Sys, id: nat, a: Action, next: Sys, rest: seq<Leg>, sent: seq<Call>, t: Sys)
    requires Own(a) && Enabled(s, id, a) && Apply(s, id, a) == next && Goes(next, id, rest, sent, t)
    ensures Goes(s, id, [Leg(s, a)] + rest, Attempt(s, id, a) + sent, t)
  {
    GoesOne(s, id, a);
    GoesConcat(s, id, [Leg(s, a)], Attempt(s, id, a), next, rest, sent, t);
  }

  lemma {:induction false} WayRest(legs: seq<Leg>, id: nat, t: Sys)
    requires legs != [] && Way(legs, id, t)
    ensures Way(legs[1..], id, t)
  {
    forall i | 0 <= i < |legs[1..]|
      ensures LegAt(legs[1..], id, t, i)
    {
      assert LegAt(legs, id, t, i + 1);
    }
  }

  /** The first leg, and the others. */
  lemma {:induction false} GoesFirst(s: Sys, id: nat, legs: seq<Leg>, sent: seq<Call>, t: Sys)
    requires Goes(s, id, legs, sent, t) && legs != []
    ensures var a := legs[0].action;
      && Own(a) && Enabled(s, id, a) && Attempt(s, id, a) <= sent
      && Goes(Apply(s, id, a), id, legs[1..], sent[|Attempt(s, id, a)|..], t)
  {
    assert LegAt(legs, id, t, 0);
    WayRest(legs, id, t);
    GoesOne(s, id, legs[0].action);
    assert legs == [legs[0]] + legs[1..] && legs[0] == Leg(s, legs[0].action);
    SentConcat([legs[0]], legs[1..], id);
  }

  /** One silent action, and then others. */
  lemma {:induction false} Silently(s: Sys, id: nat, a: Action, next: Sys, rest: seq<Leg>, sent: seq<Call>, t: Sys)
    requires Own(a) && Enabled(s, id, a) && !a.Send? && Apply(s, id, a) == next && Goes(next, id, rest, sent, t)
    ensures Goes(s, id, [Leg(s, a)] + rest, sent, t)
  {
    GoesCons(s, id, a, next, rest, sent, t);
    assert Attempt(s, id, a) + sent == sent;
  }

  /** `s` with delivery `id` at `t`, and the directory as given. */
  function At(s: Sys, id: nat, d: W.Directory, t: Task): Sys {
    s.(known := d.known, contacts := d.contacts, tasks := s.tasks[id := t])
  }

  function DirectoryOf(s: Sys): W.Directory {
    W.Directory(s.known, s.contacts)
  }

  lemma {:induction false} AtAt(s: Sys, id: nat, d: W.Directory, t: Task, e: W.Directory, u: Task)
    ensures At(At(s, id, d, t), id, e, u) == At(s, id, e, u)
  {
    assert s.tasks[id := t][id := u] == s.tasks[id := u];
  }

  /** The gateway says AlreadyExists only of contacts it has. */
  predicate Truthful(d: W.Directory, gate: Gate, psid: string, o: SyncOutcome) {
    o.creation.AlreadyExists? ==> (gate.domain, psid) in d.contacts
  }

  predicate TruthfulEvent(d: W.Directory, gate: Gate, ev: Messaging, o: EventOutcome) {
    && Truthful(d, gate, ev.sender, o.first)
    && Truthful(W.Sync(d, gate, ev.sender, o.first).directory, gate, ev.sender, o.second)
  }

  // ---- One synchronisation ----

  /** Where a task goes from a synchronisation. */
  function Onward(t: Task, ok: bool, again: bool, media: nat -> MediaOutcome): Task
    requires t.Running? && t.events != []
  {
    if ok then Proceed(t, again, media) else Skip(t)
  }

  /** Creating the contact and marking the user known. */
  lemma {:induction false} PlayCreate(s: Sys, id: nat, again: bool, user: ExternalUser, o: SyncOutcome,
                                      media: nat -> MediaOutcome)
      returns (legs: seq<Leg>)
    requires AtEvent(s, id) && s.tasks[id].stage == Creating(again, user)
    requires Truthful(DirectoryOf(s), s.tasks[id].gate, s.tasks[id].events[0].sender, o)
    ensures var t := s.tasks[id];
      var d := if o.creation.CreateFailed? then DirectoryOf(s)
               else W.Directory(if o.marked then s.known + {Hash(user)} else s.known,
                                s.contacts + {(t.gate.domain, t.events[0].sender)});
      Goes(s, id, legs, [], At(s, id, d, Onward(t, !o.creation.CreateFailed?, again, media)))
  {
    if o.creation.CreateFailed? {
      legs := [Leg(s, Create(o.creation))];
      GoesOne(s, id, Create(o.creation));
    } else {
      var t := s.tasks[id];
      var d := W.Directory(s.known, s.contacts + {(t.gate.domain, t.events[0].sender)});
      var next := At(s, id, d, t.(stage := Marking(again, user)));
      var e := if o.marked then d.(known := d.known + {Hash(user)}) else d;
      GoesOne(next, id, Mark(o.marked, media));
      AtAt(s, id, d, next.tasks[id], e, Proceed(t, again, media));
      Silently(s, id, Create(o.creation), next, [Leg(next, Mark(o.marked, media))], [],
               At(s, id, e, Proceed(t, again, media)));
      legs := [Leg(s, Create(o.creation))] + [Leg(next, Mark(o.marked, media))];
    }
  }

  /** Asking the known-user cache, and creating the contact of a user it does not know. */
  lemma {:induction false} PlayAsk(s: Sys, id: nat, again: bool, p: Profile, o: SyncOutcome, media: nat -> MediaOutcome)
      returns (legs: seq<Leg>)
    requires AtEvent(s, id) && o.profile == Some(p)
    requires s.tasks[id].stage == Checking(again, W.User(s.tasks[id].events[0].sender, p))
    requires Truthful(DirectoryOf(s), s.tasks[id].gate, s.tasks[id].events[0].sender, o)
    ensures var t := s.tasks[id];
      var synced := W.Sync(DirectoryOf(s), t.gate, t.events[0].sender, o);
      Goes(s, id, legs, [], At(s, id, synced.directory, Onward(t, synced.ok, again, media)))
  {
    var t := s.tasks[id];
    var ask := Ask(o.cacheDown, media);
    var user := t.stage.user;
    if !o.cacheDown && Hash(user) in s.known {
      legs := [Leg(s, ask)];
      GoesOne(s, id, ask);
    } else {
      var next := At(s, id, DirectoryOf(s), t.(stage := Creating(again, user)));
      var rest := PlayCreate(next, id, again, user, o, media);
      var synced := W.Sync(DirectoryOf(s), t.gate, t.events[0].sender, o);
      AtAt(s, id, DirectoryOf(s), next.tasks[id], synced.directory, Onward(t, synced.ok, again, media));
      Silently(s, id, ask, next, rest, [], At(s, id, synced.directory, Onward(t, synced.ok, again, media)));
      legs := [Leg(s, ask)] + rest;
    }
  }

  /** One synchronisation. */
  lemma {:induction false} PlaySync(s: Sys, id: nat, again: bool, o: SyncOutcome, media: nat -> MediaOutcome)
      returns (legs: seq<Leg>)
    requires AtEvent(s, id) && s.tasks[id].stage == Fetching(again)
    requires Truthful(DirectoryOf(s), s.tasks[id].gate, s.tasks[id].events[0].sender, o)
    ensures var t := s.tasks[id];
      var synced := W.Sync(DirectoryOf(s), t.gate, t.events[0].sender, o);
      Goes(s, id, legs, [], At(s, id, synced.directory, Onward(t, synced.ok, again, media)))
  {
    var t := s.tasks[id];
    var fetch := Fetch(o.profile);
    if o.profile.None? {
      legs := [Leg(s, fetch)];
      GoesOne(s, id, fetch);
    } else {
      var p := o.profile.value;
      var next := At(s, id, DirectoryOf(s), t.(stage := Checking(again, W.User(t.events[0].sender, p))));
      var rest := PlayAsk(next, id, again, p, o, media);
      var synced := W.Sync(DirectoryOf(s), t.gate, t.events[0].sender, o);
      AtAt(s, id, DirectoryOf(s), next.tasks[id], synced.directory, Onward(t, synced.ok, again, media));
      Silently(s, id, fetch, next, rest, [], At(s, id, synced.directory, Onward(t, synced.ok, again, media)));
      legs := [Leg(s, fetch)] + rest;
    }
  }

  // ---- One event ----

  /** Where a task goes once its event is synchronised. */
  function Handled(t: Task, ok: bool, media: nat -> MediaOutcome): Task
    requires t.Running? && t.events != []
  {
    if ok then t.(stage := Sending(ContentCalls(t.gate, t.events[0], media))) else Skip(t)
  }

  /** Both synchronisations of an event that is not ignored. */
  lemma {:induction false} PlaySyncs(s: Sys, id: nat, o: EventOutcome) returns (legs: seq<Leg>)
    requires AtEvent(s, id) && s.tasks[id].stage == Fetching(false) && !s.tasks[id].events[0].Ignored()
    requires TruthfulEvent(DirectoryOf(s), s.tasks[id].gate, s.tasks[id].events[0], o)
    ensures var t := s.tasks[id];
      var synced := W.SyncEvent(DirectoryOf(s), t.gate, t.events[0], o);
      Goes(s, id, legs, [], At(s, id, synced.directory, Handled(t, synced.ok, o.media)))
  {
    var t := s.tasks[id];
    var d, psid := DirectoryOf(s), t.events[0].sender;
    legs := PlaySync(s, id, false, o.first, o.media);
    var once := W.Sync(d, t.gate, psid, o.first);
    if once.ok && t.events[0].message.Some? {
      var again := t.(stage := Fetching(true));
      var s1 := At(s, id, once.directory, again);
      var second := PlaySync(s1, id, true, o.second, o.media);
      var synced := W.Sync(once.directory, t.gate, psid, o.second);
      AtAt(s, id, once.directory, again, synced.directory, Handled(t, synced.ok, o.media));
      GoesConcat(s, id, legs, [], s1, second, [], At(s, id, synced.directory, Handled(t, synced.ok, o.media)));
      legs := legs + second;
    }
  }

  /** Sending what is to be sent. */
  lemma {:induction false} PlaySends(s: Sys, id: nat, todo: seq<Call>) returns (legs: seq<Leg>)
    requires AtEvent(s, id) && s.tasks[id].stage == Sending(todo)
    ensures Goes(s, id, legs, todo, At(s, id, DirectoryOf(s), Skip(s.tasks[id])))
    decreases todo
  {
    var t := s.tasks[id];
    if todo == [] {
      legs := [Leg(s, Send)];
      GoesOne(s, id, Send);
    } else {
      var next := At(s, id, DirectoryOf(s), t.(stage := Sending(todo[1..])));
      var rest := PlaySends(next, id, todo[1..]);
      AtAt(s, id, DirectoryOf(s), next.tasks[id], DirectoryOf(s), Skip(t));
      GoesCons(s, id, Send, next, rest, todo[1..], At(s, id, DirectoryOf(s), Skip(t)));
      assert [todo[0]] + todo[1..] == todo;
      legs := [Leg(s, Send)] + rest;
    }
  }

  /** From a synchronised contact to the end of the event. */
  lemma {:induction false} PlayContent(s: Sys, id: nat, ok: bool, media: nat -> MediaOutcome, t: Task)
      returns (legs: seq<Leg>)
    requires t.Running? && t.events != [] && id in s.tasks && s.tasks[id] == Handled(t, ok, media)
    ensures Goes(s, id, legs, if ok then ContentCalls(t.gate, t.events[0], media) else [],
                 At(s, id, DirectoryOf(s), Skip(t)))
  {
    if ok {
      legs := PlaySends(s, id, ContentCalls(t.gate, t.events[0], media));
    } else {
      legs := [];
      assert s.tasks[id := Skip(t)] == s.tasks;
    }
  }

  /** One event, alone: the directory and the sends are those of the sequential provider. */
  lemma {:induction false} PlayEvent(s: Sys, id: nat, o: EventOutcome) returns (legs: seq<Leg>)
    requires AtEvent(s, id) && s.tasks[id].stage.Idle?
    requires TruthfulEvent(DirectoryOf(s), s.tasks[id].gate, s.tasks[id].events[0], o)
    ensures var t, d := s.tasks[id], DirectoryOf(s);
      Goes(s, id, legs, W.EventCalls(d, t.gate, t.events[0], o),
           At(s, id, W.SyncEvent(d, t.gate, t.events[0], o).directory, Skip(t)))
  {
    var t := s.tasks[id];
    if t.events[0].Ignored() {
      legs := [Leg(s, TakeEvent)];
      GoesOne(s, id, TakeEvent);
    } else {
      var synced := W.SyncEvent(DirectoryOf(s), t.gate, t.events[0], o);
      var s0 := At(s, id, DirectoryOf(s), t.(stage := Fetching(false)));
      var s1 := At(s, id, synced.directory, Handled(t, synced.ok, o.media));
      var syncs := PlaySyncs(s0, id, o);
      AtAt(s, id, DirectoryOf(s), s0.tasks[id], synced.directory, s1.tasks[id]);
      Silently(s, id, TakeEvent, s0, syncs, [], s1);
      var content := PlayContent(s1, id, synced.ok, o.media, t);
      AtAt(s, id, synced.directory, s1.tasks[id], synced.directory, Skip(t));
      var sent := W.EventCalls(DirectoryOf(s), t.gate, t.events[0], o);
      GoesConcat(s, id, [Leg(s, TakeEvent)] + syncs, [], s1, content, sent, At(s, id, synced.directory, Skip(t)));
      assert [] + sent == sent;
      legs := [Leg(s, TakeEvent)] + syncs + content;
    }
  }

  // ---- A whole delivery ----

  /** The answers of the gateway are truthful for the first `n` events. */
  ghost predicate TruthfulBatch(d: W.Directory, gate: Gate, evs: seq<Messaging>, os: nat -> EventOutcome, n: nat)
    requires n <= |evs|
  {
    forall k :: 0 <= k < n ==> TruthfulEvent(W.Before(d, gate, evs, os, k), gate, evs[k], os(k))
  }

  /** Before event `n` of a batch that began in `s`. */
  function AtNth(s: Sys, id: nat, gate: Gate, evs: seq<Messaging>, os: nat -> EventOutcome, n: nat): Sys
    requires n <= |evs|
  {
    At(s, id, W.Before(DirectoryOf(s), gate, evs, os, n), Running(gate, evs[n..], Idle))
  }

  lemma {:induction false} PlayNth(s: Sys, id: nat, gate: Gate, evs: seq<Messaging>, os: nat -> EventOutcome, n: nat)
      returns (legs: seq<Leg>)
    requires n < |evs| && TruthfulEvent(W.Before(DirectoryOf(s), gate, evs, os, n), gate, evs[n], os(n))
    ensures Goes(AtNth(s, id, gate, evs, os, n), id, legs, W.Segment(DirectoryOf(s), gate, evs, os, n),
                 AtNth(s, id, gate, evs, os, n + 1))
  {
    var before, after := W.Before(DirectoryOf(s), gate, evs, os, n), W.Before(DirectoryOf(s), gate, evs, os, n + 1);
    var t := Running(gate, evs[n..], Idle);
    assert evs[n..][1..] == evs[n + 1..] && evs[n..][0] == evs[n];
    assert DirectoryOf(AtNth(s, id, gate, evs, os, n)) == before;
    assert W.SyncEvent(before, gate, evs[n], os(n)).directory == after;
    legs := PlayEvent(AtNth(s, id, gate, evs, os, n), id, os(n));
    AtAt(s, id, before, t, after, Skip(t));
  }

  /** After the first `n` events, one more. */
  lemma {:induction false} PlayOneMore(s: Sys, id: nat, gate: Gate, evs: seq<Messaging>, os: nat -> EventOutcome,
                                       n: nat, front: seq<Leg>) returns (legs: seq<Leg>)
    requires n < |evs| && TruthfulEvent(W.Before(DirectoryOf(s), gate, evs, os, n), gate, evs[n], os(n))
    requires Goes(s, id, front, W.BatchCalls(DirectoryOf(s), gate, evs, os, n), AtNth(s, id, gate, evs, os, n))
    ensures Goes(s, id, legs, W.BatchCalls(DirectoryOf(s), gate, evs, os, n + 1), AtNth(s, id, gate, evs, os, n + 1))
  {
    var d := DirectoryOf(s);
    var last := PlayNth(s, id, gate, evs, os, n);
    GoesConcat(s, id, front, W.BatchCalls(d, gate, evs, os, n), AtNth(s, id, gate, evs, os, n),
               last, W.Segment(d, gate, evs, os, n), AtNth(s, id, gate, evs, os, n + 1));
    legs := front + last;
  }

  lemma {:induction false} PlayNoEvents(s: Sys, id: nat, gate: Gate, evs: seq<Messaging>, os: nat -> EventOutcome)
    requires id in s.tasks && s.tasks[id] == Running(gate, evs, Idle)
    ensures Goes(s, id, [], W.BatchCalls(DirectoryOf(s), gate, evs, os, 0), AtNth(s, id, gate, evs, os, 0))
  {
    assert evs[0..] == evs && s.tasks[id := Running(gate, evs, Idle)] == s.tasks;
  }

  /** The first `n` events, one after the other. */
  lemma {:induction false} PlayEvents(s: Sys, id: nat, gate: Gate, evs: seq<Messaging>, os: nat -> EventOutcome, n: nat)
      returns (legs: seq<Leg>)
    requires id in s.tasks && s.tasks[id] == Running(gate, evs, Idle) && n <= |evs|
    requires TruthfulBatch(DirectoryOf(s), gate, evs, os, n)
    ensures Goes(s, id, legs, W.BatchCalls(DirectoryOf(s), gate, evs, os, n), AtNth(s, id, gate, evs, os, n))
  {
    var d := DirectoryOf(s);
    if n == 0 {
      legs := [];
      PlayNoEvents(s, id, gate, evs, os);
    } else {
      var front := PlayEvents(s, id, gate, evs, os, n - 1);
      legs := PlayOneMore(s, id, gate, evs, os, n - 1, front);
    }
  }

  /** From an enabled gate to the end. */
  lemma {:induction false} PlayRunning(s: Sys, id: nat, gate: Gate, evs: seq<Messaging>, os: nat -> EventOutcome)
      returns (legs: seq<Leg>)
    requires id in s.tasks && s.tasks[id] == Running(gate, evs, Idle)
    requires TruthfulBatch(DirectoryOf(s), gate, evs, os, |evs|)
    ensures var d := DirectoryOf(s);
      Goes(s, id, legs, W.BatchCalls(d, gate, evs, os, |evs|),
        At(s, id, W.Before(d, gate, evs, os, |evs|), Finished))
  {
    var d := DirectoryOf(s);
    var after, sent := W.Before(d, gate, evs, os, |evs|), W.BatchCalls(d, gate, evs, os, |evs|);
    var events := PlayEvents(s, id, gate, evs, os, |evs|);
    var s1 := At(s, id, after, Running(gate, evs[|evs|..], Idle));
    GoesOne(s1, id, TakeEvent);
    AtAt(s, id, after, s1.tasks[id], after, Finished);
    GoesConcat(s, id, events, sent, s1, [Leg(s1, TakeEvent)], [], At(s, id, after, Finished));
    assert sent + [] == sent;
    legs := events + [Leg(s1, TakeEvent)];
  }

  /** The enabled flags that the machine keeps of the provider's gate cache. */
  function Flags(cache: map<string, W.GateState>): map<string, bool> {
    map key <- cache :: cache[key].enabled
  }

  /** The row that the store answers with, unless it fails. */
  predicate Answers(s: Sys, uri: string, entries: seq<Entry>, row: W.Lookup) {
    row.Row? ==> (uri, PageOf(entries)) in s.rows && s.rows[(uri, PageOf(entries))] == row.gate
  }

  /** `s` after the gate is resolved: delivery `id` at `t`, and the gate cache as the provider's. */
  function Resolved(s: Sys, id: nat, cache: map<string, W.GateState>, path: string, entries: seq<Entry>, row: W.Lookup,
                    t: Task): Sys
    requires entries != []
  {
    s.(cache := Flags(W.CacheAfter(cache, W.PageKey(path, entries), row, {})), tasks := s.tasks[id := t])
  }

  lemma {:induction false} PlayFill(s: Sys, id: nat, cache: map<string, W.GateState>, path: string, entries: seq<Entry>,
                                    row: W.Lookup)
    requires id in s.tasks && row.Row? && s.tasks[id] == Found(WebhookUri(path), entries, row.gate) && entries != []
    requires s.cache == Flags(cache) && !W.ShortCircuits(cache, W.PageKey(path, entries))
    ensures var t := if row.gate.enabled then Running(row.gate, Events(entries), Idle) else Finished;
      Goes(s, id, [Leg(s, FillCache)], [], Resolved(s, id, cache, path, entries, row, t))
  {
    GoesOne(s, id, FillCache);
    var key := W.PageKey(path, entries);
    assert Flags(cache)[key := row.gate.enabled] == Flags(cache[key := W.StateOf(row.gate)] - {});
  }

  /** Finding the gate, up to the first event or to the end of a rejected delivery. */
  lemma {:induction false} PlayGate(s: Sys, id: nat, cache: map<string, W.GateState>, path: string, entries: seq<Entry>,
                                    row: W.Lookup)
      returns (legs: seq<Leg>)
    requires id in s.tasks && s.tasks[id] == Arrived(WebhookUri(path), entries) && entries != []
    requires s.cache == Flags(cache) && Answers(s, WebhookUri(path), entries, row)
    ensures var t := if W.Rejected(cache, path, Some(entries), row) then Finished
        else Running(row.gate, Events(entries), Idle);
      Goes(s, id, legs, [], Resolved(s, id, cache, path, entries, row, t))
  {
    var uri, d := WebhookUri(path), DirectoryOf(s);
    var missed := Missed(uri, entries);
    var s1 := At(s, id, d, missed);
    if W.ShortCircuits(cache, W.PageKey(path, entries)) {
      legs := [Leg(s, LookInCache)];
      GoesOne(s, id, LookInCache);
    } else if row.Failed? {
      GoesOne(s1, id, ReadStore(true));
      AtAt(s, id, d, missed, d, Finished);
      Silently(s, id, LookInCache, s1, [Leg(s1, ReadStore(true))], [], At(s, id, d, Finished));
      legs := [Leg(s, LookInCache)] + [Leg(s1, ReadStore(true))];
    } else {
      var found := Found(uri, entries, row.gate);
      var s2 := At(s, id, d, found);
      var t := if row.gate.enabled then Running(row.gate, Events(entries), Idle) else Finished;
      var end := Resolved(s, id, cache, path, entries, row, t);
      AtAt(s, id, d, missed, d, found);
      AtAt(s, id, d, found, d, t);
      PlayFill(s2, id, cache, path, entries, row);
      Silently(s1, id, ReadStore(false), s2, [Leg(s2, FillCache)], [], end);
      Silently(s, id, LookInCache, s1, [Leg(s1, ReadStore(false))] + [Leg(s2, FillCache)], [], end);
      legs := [Leg(s, LookInCache)] + ([Leg(s1, ReadStore(false))] + [Leg(s2, FillCache)]);
    }
  }

  /** From the first event to the end, once the gate is resolved. */
  lemma {:induction false} PlayResolved(s: Sys, id: nat, cache: map<string, W.GateState>, path: string,
                                        entries: seq<Entry>, row: W.Lookup, os: nat -> EventOutcome)
      returns (legs: seq<Leg>)
    requires entries != [] && row.Row?
    requires TruthfulBatch(DirectoryOf(s), row.gate, Events(entries), os, |Events(entries)|)
    ensures var d, evs := DirectoryOf(s), Events(entries);
      Goes(Resolved(s, id, cache, path, entries, row, Running(row.gate, evs, Idle)), id, legs,
           W.BatchCalls(d, row.gate, evs, os, |evs|),
           At(Resolved(s, id, cache, path, entries, row, Finished), id,
              W.Before(d, row.gate, evs, os, |evs|), Finished))
  {
    var evs := Events(entries);
    var done := Resolved(s, id, cache, path, entries, row, Finished);
    var s1 := Resolved(s, id, cache, path, entries, row, Running(row.gate, evs, Idle));
    assert s1.tasks[id := Finished] == done.tasks[id := Finished];
    legs := PlayRunning(s1, id, row.gate, evs, os);
  }

  /** A delivery that is not rejected. */
  lemma {:induction false} PlayAccepted(s: Sys, id: nat, cache: map<string, W.GateState>, path: string,
                                        entries: seq<Entry>, row: W.Lookup, os: nat -> EventOutcome)
      returns (legs: seq<Leg>)
    requires id in s.tasks && s.tasks[id] == Arrived(WebhookUri(path), entries) && entries != []
    requires s.cache == Flags(cache) && Answers(s, WebhookUri(path), entries, row)
    requires !W.Rejected(cache, path, Some(entries), row)
    requires TruthfulBatch(DirectoryOf(s), row.gate, Events(entries), os, |Events(entries)|)
    ensures var d, evs := DirectoryOf(s), Events(entries);
      Goes(s, id, legs, W.BatchCalls(d, row.gate, evs, os, |evs|),
           At(Resolved(s, id, cache, path, entries, row, Finished), id,
              W.Before(d, row.gate, evs, os, |evs|), Finished))
  {
    var d, evs := DirectoryOf(s), Events(entries);
    var sent := W.BatchCalls(d, row.gate, evs, os, |evs|);
    var end := At(Resolved(s, id, cache, path, entries, row, Finished), id,
                  W.Before(d, row.gate, evs, os, |evs|), Finished);
    var first := PlayGate(s, id, cache, path, entries, row);
    var rest := PlayResolved(s, id, cache, path, entries, row, os);
    var s1 := Resolved(s, id, cache, path, entries, row, Running(row.gate, evs, Idle));
    GoesConcat(s, id, first, [], s1, rest, sent, end);
    assert [] + sent == sent;
    legs := first + rest;
  }

  /** A whole delivery, alone: the machine can take it from its arrival to its end, with the
      sends, the directory and the gate cache of `HandleWebhook`. */
  lemma {:induction false} PlayDelivery(s: Sys, id: nat, cache: map<string, W.GateState>, path: string,
                                        entries: seq<Entry>, row: W.Lookup, os: nat -> EventOutcome)
      returns (legs: seq<Leg>)
    requires id in s.tasks && s.tasks[id] == Arrived(WebhookUri(path), entries) && entries != []
    requires s.cache == Flags(cache) && Answers(s, WebhookUri(path), entries, row)
    requires !W.Rejected(cache, path, Some(entries), row) ==>
               TruthfulBatch(DirectoryOf(s), row.gate, Events(entries), os, |Events(entries)|)
    ensures var d, evs, rejected := DirectoryOf(s), Events(entries), W.Rejected(cache, path, Some(entries), row);
      Goes(s, id, legs,
           if rejected then [] else W.BatchCalls(d, row.gate, evs, os, |evs|),
           At(Resolved(s, id, cache, path, entries, row, Finished), id,
              if rejected then d else W.Before(d, row.gate, evs, os, |evs|), Finished))
  {
    var done := Resolved(s, id, cache, path, entries, row, Finished);
    assert done.tasks[id := Finished] == done.tasks;
    if W.Rejected(cache, path, Some(entries), row) {
      legs := PlayGate(s, id, cache, path, entries, row);
    } else {
      legs := PlayAccepted(s, id, cache, path, entries, row, os);
    }
  }
}
