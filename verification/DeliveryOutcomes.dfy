/** The other way round: whatever a delivery does that runs without interference, the sequential
    provider does as well, for some answers of the outside. */
module DeliveryOutcomes {
  import opened Options
  import opened Facebook
  import opened Identity
  import opened Deliveries
  import opened SingleDelivery
  import W = Webhook

  /** Delivery `id` alone goes from `s` to its end, in state `t`. */
  ghost predicate Finishes(s: Sys, id: nat, legs: seq<Leg>, sent: seq<Call>, t: Sys) {
    Goes(s, id, legs, sent, t) && id in t.tasks && t.tasks[id].Finished?
  }

  /** A delivery that is not at its end takes a step. */
  lemma {:induction false} Next(s: Sys, id: nat, legs: seq<Leg>, sent: seq<Call>, t: Sys)
    requires Finishes(s, id, legs, sent, t) && id in s.tasks && !s.tasks[id].Finished?
    ensures legs != [] && Own(legs[0].action) && Enabled(s, id, legs[0].action)
    ensures Attempt(s, id, legs[0].action) <= sent
    ensures Finishes(Apply(s, id, legs[0].action), id, legs[1..], sent[|Attempt(s, id, legs[0].action)|..], t)
  {
    GoesFirst(s, id, legs, sent, t);
  }

  /** The same, for a step that sends nothing and leads to `next`. */
  lemma {:induction false} NextSilent(s: Sys, id: nat, legs: seq<Leg>, sent: seq<Call>, t: Sys, next: Sys)
    requires Finishes(s, id, legs, sent, t) && id in s.tasks && !s.tasks[id].Finished?
    requires legs != [] && Own(legs[0].action) && Enabled(s, id, legs[0].action) ==>
               !legs[0].action.Send? && Apply(s, id, legs[0].action) == next
    ensures legs != [] && Finishes(next, id, legs[1..], sent, t)
  {
    Next(s, id, legs, sent, t);
    assert sent[0..] == sent;
  }

  lemma {:induction false} NothingAfter(s: Sys, id: nat, legs: seq<Leg>, sent: seq<Call>, t: Sys)
    requires Finishes(s, id, legs, sent, t) && id in s.tasks && s.tasks[id].Finished?
    ensures sent == [] && s == t
  {
    if legs != [] {
      GoesFirst(s, id, legs, sent, t);
    }
  }

  // ---- One synchronisation ----

  lemma {:induction false} ReadMark(s: Sys, id: nat, legs: seq<Leg>, sent: seq<Call>, t: Sys)
      returns (marked: bool, media: nat -> MediaOutcome, rest: seq<Leg>)
    requires Finishes(s, id, legs, sent, t) && AtEvent(s, id) && s.tasks[id].stage.Marking?
    ensures |rest| < |legs|
    ensures var task := s.tasks[id];
      var d := W.Directory(if marked then s.known + {Hash(task.stage.user)} else s.known, s.contacts);
      Finishes(At(s, id, d, Proceed(task, task.stage.again, media)), id, rest, sent, t)
  {
    Next(s, id, legs, sent, t);
    marked, media, rest := legs[0].action.ok, legs[0].action.media, legs[1..];
    assert sent[0..] == sent;
  }

  lemma {:induction false} ReadCreate(s: Sys, id: nat, legs: seq<Leg>, sent: seq<Call>, t: Sys)
      returns (creation: Creation, marked: bool, media: nat -> MediaOutcome, rest: seq<Leg>)
    requires Finishes(s, id, legs, sent, t) && AtEvent(s, id) && s.tasks[id].stage.Creating?
    ensures |rest| < |legs|
    ensures creation.AlreadyExists? ==> (s.tasks[id].gate.domain, s.tasks[id].events[0].sender) in s.contacts
    ensures var task := s.tasks[id];
      var d := if creation.CreateFailed? then DirectoryOf(s)
               else W.Directory(if marked then s.known + {Hash(task.stage.user)} else s.known,
                                s.contacts + {(task.gate.domain, task.events[0].sender)});
      Finishes(At(s, id, d, Onward(task, !creation.CreateFailed?, task.stage.again, media)), id, rest, sent, t)
  {
    Next(s, id, legs, sent, t);
    creation, marked, media, rest := legs[0].action.answer, false, NoMedia, legs[1..];
    assert sent[0..] == sent;
    var task := s.tasks[id];
    if !creation.CreateFailed? {
      var d := W.Directory(s.known, s.contacts + {(task.gate.domain, task.events[0].sender)});
      var created := task.(stage := Marking(task.stage.again, task.stage.user));
      marked, media, rest := ReadMark(At(s, id, d, created), id, rest, sent, t);
      var e := if marked then d.(known := d.known + {Hash(task.stage.user)}) else d;
      AtAt(s, id, d, created, e, Proceed(task, task.stage.again, media));
    }
  }

  lemma {:induction false} ReadAsk(s: Sys, id: nat, p: Profile, legs: seq<Leg>, sent: seq<Call>, t: Sys)
      returns (o: SyncOutcome, media: nat -> MediaOutcome, rest: seq<Leg>)
    requires Finishes(s, id, legs, sent, t) && AtEvent(s, id) && s.tasks[id].stage.Checking?
    requires s.tasks[id].stage.user == W.User(s.tasks[id].events[0].sender, p)
    ensures |rest| < |legs| && o.profile == Some(p)
    ensures Truthful(DirectoryOf(s), s.tasks[id].gate, s.tasks[id].events[0].sender, o)
    ensures var task := s.tasks[id];
      var synced := W.Sync(DirectoryOf(s), task.gate, task.events[0].sender, o);
      Finishes(At(s, id, synced.directory, Onward(task, synced.ok, task.stage.again, media)), id, rest, sent, t)
  {
    Next(s, id, legs, sent, t);
    assert sent[0..] == sent;
    var task, down := s.tasks[id], legs[0].action.down;
    media, rest := legs[0].action.media, legs[1..];
    o := SyncOutcome(Some(p), down, CreateFailed, false);
    if down || Hash(task.stage.user) !in s.known {
      var asked := task.(stage := Creating(task.stage.again, task.stage.user));
      var creation, marked;
      creation, marked, media, rest := ReadCreate(At(s, id, DirectoryOf(s), asked), id, rest, sent, t);
      o := SyncOutcome(Some(p), down, creation, marked);
      var synced := W.Sync(DirectoryOf(s), task.gate, task.events[0].sender, o);
      AtAt(s, id, DirectoryOf(s), asked, synced.directory, Onward(task, synced.ok, task.stage.again, media));
    }
  }

  lemma {:induction false} ReadSync(s: Sys, id: nat, legs: seq<Leg>, sent: seq<Call>, t: Sys)
      returns (o: SyncOutcome, media: nat -> MediaOutcome, rest: seq<Leg>)
    requires Finishes(s, id, legs, sent, t) && AtEvent(s, id) && s.tasks[id].stage.Fetching?
    ensures |rest| < |legs|
    ensures Truthful(DirectoryOf(s), s.tasks[id].gate, s.tasks[id].events[0].sender, o)
    ensures var task := s.tasks[id];
      var synced := W.Sync(DirectoryOf(s), task.gate, task.events[0].sender, o);
      Finishes(At(s, id, synced.directory, Onward(task, synced.ok, task.stage.again, media)), id, rest, sent, t)
  {
    Next(s, id, legs, sent, t);
    assert sent[0..] == sent;
    var task, profile := s.tasks[id], legs[0].action.profile;
    o, media, rest := SyncOutcome(None, false, CreateFailed, false), NoMedia, legs[1..];
    if profile.Some? {
      var fetched := task.(stage := Checking(task.stage.again, W.User(task.events[0].sender, profile.value)));
      o, media, rest := ReadAsk(At(s, id, DirectoryOf(s), fetched), id, profile.value, rest, sent, t);
      var synced := W.Sync(DirectoryOf(s), task.gate, task.events[0].sender, o);
      AtAt(s, id, DirectoryOf(s), fetched, synced.directory, Onward(task, synced.ok, task.stage.again, media));
    }
  }

  // ---- One event ----

  lemma {:induction false} ReadSyncs(s: Sys, id: nat, legs: seq<Leg>, sent: seq<Call>, t: Sys)
      returns (o: EventOutcome, rest: seq<Leg>)
    requires Finishes(s, id, legs, sent, t) && AtEvent(s, id) && s.tasks[id].stage == Fetching(false)
    requires !s.tasks[id].events[0].Ignored()
    ensures |rest| < |legs| && TruthfulEvent(DirectoryOf(s), s.tasks[id].gate, s.tasks[id].events[0], o)
    ensures var task := s.tasks[id];
      var synced := W.SyncEvent(DirectoryOf(s), task.gate, task.events[0], o);
      Finishes(At(s, id, synced.directory, Handled(task, synced.ok, o.media)), id, rest, sent, t)
  {
    var task, d := s.tasks[id], DirectoryOf(s);
    var psid := task.events[0].sender;
    var first, media;
    first, media, rest := ReadSync(s, id, legs, sent, t);
    var once := W.Sync(d, task.gate, psid, first);
    o := EventOutcome(first, SyncOutcome(None, false, CreateFailed, false), media);
    if once.ok && task.events[0].message.Some? {
      var again := task.(stage := Fetching(true));
      var second;
      second, media, rest := ReadSync(At(s, id, once.directory, again), id, rest, sent, t);
      o := EventOutcome(first, second, media);
      var synced := W.Sync(once.directory, task.gate, psid, second);
      AtAt(s, id, once.directory, again, synced.directory, Handled(task, synced.ok, media));
    }
  }

  lemma {:induction false} ReadSends(s: Sys, id: nat, legs: seq<Leg>, sent: seq<Call>, t: Sys)
      returns (more: seq<Call>, rest: seq<Leg>)
    requires Finishes(s, id, legs, sent, t) && AtEvent(s, id) && s.tasks[id].stage.Sending?
    ensures |rest| < |legs| && sent == s.tasks[id].stage.todo + more
    ensures Finishes(At(s, id, DirectoryOf(s), Skip(s.tasks[id])), id, rest, more, t)
    decreases |legs|
  {
    Next(s, id, legs, sent, t);
    var task := s.tasks[id];
    var todo := task.stage.todo;
    more, rest := sent, legs[1..];
    assert sent[0..] == sent;
    if todo != [] {
      var next := At(s, id, DirectoryOf(s), task.(stage := Sending(todo[1..])));
      more, rest := ReadSends(next, id, rest, sent[1..], t);
      AtAt(s, id, DirectoryOf(s), next.tasks[id], DirectoryOf(s), Skip(task));
    }
  }

  lemma {:induction false} ReadContent(s: Sys, id: nat, task: Task, ok: bool, media: nat -> MediaOutcome,
                                       legs: seq<Leg>, sent: seq<Call>, t: Sys)
      returns (more: seq<Call>, rest: seq<Leg>)
    requires task.Running? && task.events != [] && id in s.tasks && s.tasks[id] == Handled(task, ok, media)
    requires Finishes(s, id, legs, sent, t)
    ensures sent == (if ok then ContentCalls(task.gate, task.events[0], media) else []) + more
    ensures Finishes(At(s, id, DirectoryOf(s), Skip(task)), id, rest, more, t)
  {
    if ok {
      more, rest := ReadSends(s, id, legs, sent, t);
    } else {
      more, rest := sent, legs;
      assert s.tasks[id := Skip(task)] == s.tasks;
    }
  }

  /** One event: it was handled as the provider does, for some outcome. */
  lemma {:induction false} ReadEvent(s: Sys, id: nat, legs: seq<Leg>, sent: seq<Call>, t: Sys)
      returns (o: EventOutcome, more: seq<Call>, rest: seq<Leg>)
    requires Finishes(s, id, legs, sent, t) && AtEvent(s, id) && s.tasks[id].stage.Idle?
    ensures TruthfulEvent(DirectoryOf(s), s.tasks[id].gate, s.tasks[id].events[0], o)
    ensures var task, d := s.tasks[id], DirectoryOf(s);
      && sent == W.EventCalls(d, task.gate, task.events[0], o) + more
      && Finishes(At(s, id, W.SyncEvent(d, task.gate, task.events[0], o).directory, Skip(task)), id, rest, more, t)
  {
    Next(s, id, legs, sent, t);
    assert sent[0..] == sent;
    var task, d := s.tasks[id], DirectoryOf(s);
    if task.events[0].Ignored() {
      var nothing := SyncOutcome(None, false, CreateFailed, false);
      o, more, rest := EventOutcome(nothing, nothing, NoMedia), sent, legs[1..];
    } else {
      var s0 := At(s, id, d, task.(stage := Fetching(false)));
      o, rest := ReadSyncs(s0, id, legs[1..], sent, t);
      var synced := W.SyncEvent(d, task.gate, task.events[0], o);
      var s1 := At(s, id, synced.directory, Handled(task, synced.ok, o.media));
      AtAt(s, id, d, s0.tasks[id], synced.directory, s1.tasks[id]);
      more, rest := ReadContent(s1, id, task, synced.ok, o.media, rest, sent, t);
      AtAt(s, id, synced.directory, s1.tasks[id], synced.directory, Skip(task));
    }
  }

  // ---- A whole delivery ----

  /** The directory before event `n` of a batch, from what the first event leaves. */
  lemma {:induction false} BeforeFirst(d: W.Directory, gate: Gate, evs: seq<Messaging>, os: nat -> EventOutcome,
                                       ps: nat -> EventOutcome, n: nat)
    requires 0 < n <= |evs| && forall k: nat :: ps(k) == os(k + 1)
    ensures W.Before(d, gate, evs, os, n)
         == W.Before(W.SyncEvent(d, gate, evs[0], os(0)).directory, gate, evs[1..], ps, n - 1)
  {
    if n == 1 {
      assert W.Before(d, gate, evs, os, 0) == d;
    } else {
      BeforeFirst(d, gate, evs, os, ps, n - 1);
      assert evs[1..][n - 2] == evs[n - 1] && ps(n - 2) == os(n - 1);
    }
  }

  lemma {:induction false} SegmentFirst(d: W.Directory, gate: Gate, evs: seq<Messaging>, os: nat -> EventOutcome,
                                        ps: nat -> EventOutcome, n: nat)
    requires 0 < n < |evs| && forall k: nat :: ps(k) == os(k + 1)
    ensures W.Segment(d, gate, evs, os, n)
         == W.Segment(W.SyncEvent(d, gate, evs[0], os(0)).directory, gate, evs[1..], ps, n - 1)
  {
    BeforeFirst(d, gate, evs, os, ps, n);
    assert evs[1..][n - 1] == evs[n] && ps(n - 1) == os(n);
  }

  /** The sends of a batch are those of its first event and then those of the others. */
  lemma {:induction false} BatchFirst(d: W.Directory, gate: Gate, evs: seq<Messaging>, os: nat -> EventOutcome,
                                      ps: nat -> EventOutcome, n: nat)
    requires 0 < n <= |evs| && forall k: nat :: ps(k) == os(k + 1)
    ensures W.BatchCalls(d, gate, evs, os, n)
         == W.EventCalls(d, gate, evs[0], os(0))
            + W.BatchCalls(W.SyncEvent(d, gate, evs[0], os(0)).directory, gate, evs[1..], ps, n - 1)
  {
    var e, first := W.SyncEvent(d, gate, evs[0], os(0)).directory, W.EventCalls(d, gate, evs[0], os(0));
    if n == 1 {
      BatchOne(d, gate, evs, os);
      assert first + [] == first;
    } else {
      BatchFirst(d, gate, evs, os, ps, n - 1);
      SegmentFirst(d, gate, evs, os, ps, n - 1);
      BatchLonger(d, e, gate, evs, os, ps, n, first);
    }
  }

  lemma {:induction false} BatchOne(d: W.Directory, gate: Gate, evs: seq<Messaging>, os: nat -> EventOutcome)
    requires evs != []
    ensures W.BatchCalls(d, gate, evs, os, 1) == W.EventCalls(d, gate, evs[0], os(0))
  {
    assert W.BatchCalls(d, gate, evs, os, 0) == [];
  }

  lemma {:induction false} Regroup(a: seq<Call>, b: seq<Call>, c: seq<Call>)
    ensures a + b + c == a + (b + c)
  {
  }

  lemma {:induction false} BatchLonger(d: W.Directory, e: W.Directory, gate: Gate, evs: seq<Messaging>,
                                       os: nat -> EventOutcome, ps: nat -> EventOutcome, n: nat, first: seq<Call>)
    requires 1 < n <= |evs|
    requires W.BatchCalls(d, gate, evs, os, n - 1) == first + W.BatchCalls(e, gate, evs[1..], ps, n - 2)
    requires W.Segment(d, gate, evs, os, n - 1) == W.Segment(e, gate, evs[1..], ps, n - 2)
    ensures W.BatchCalls(d, gate, evs, os, n) == first + W.BatchCalls(e, gate, evs[1..], ps, n - 1)
  {
    var middle, last := W.BatchCalls(e, gate, evs[1..], ps, n - 2), W.Segment(e, gate, evs[1..], ps, n - 2);
    assert W.BatchCalls(d, gate, evs, os, n) == first + middle + last;
    assert W.BatchCalls(e, gate, evs[1..], ps, n - 1) == middle + last;
    Regroup(first, middle, last);
  }

  lemma {:induction false} TruthfulFirst(d: W.Directory, gate: Gate, evs: seq<Messaging>, os: nat -> EventOutcome,
                                         ps: nat -> EventOutcome)
    requires evs != [] && (forall k: nat :: ps(k) == os(k + 1)) && TruthfulEvent(d, gate, evs[0], os(0))
    requires TruthfulBatch(W.SyncEvent(d, gate, evs[0], os(0)).directory, gate, evs[1..], ps, |evs| - 1)
    ensures TruthfulBatch(d, gate, evs, os, |evs|)
  {
    var e := W.SyncEvent(d, gate, evs[0], os(0)).directory;
    forall k | 0 <= k < |evs|
      ensures TruthfulEvent(W.Before(d, gate, evs, os, k), gate, evs[k], os(k))
    {
      if k > 0 {
        BeforeFirst(d, gate, evs, os, ps, k);
        assert TruthfulEvent(W.Before(e, gate, evs[1..], ps, k - 1), gate, evs[1..][k - 1], ps(k - 1));
        assert ps(k - 1) == os(k) && evs[1..][k - 1] == evs[k];
      }
    }
  }

  lemma {:induction false} ReadNoEvents(s: Sys, id: nat, gate: Gate, legs: seq<Leg>, sent: seq<Call>, t: Sys)
    requires Finishes(s, id, legs, sent, t) && id in s.tasks && s.tasks[id] == Running(gate, [], Idle)
    ensures sent == [] && t == At(s, id, DirectoryOf(s), Finished)
  {
    var done := At(s, id, DirectoryOf(s), Finished);
    NextSilent(s, id, legs, sent, t, done);
    NothingAfter(done, id, legs[1..], sent, t);
  }

  /** The outcome of the first event, and those of the others. */
  function Prepended(o: EventOutcome, ps: nat -> EventOutcome): (os: nat -> EventOutcome)
    ensures os(0) == o && forall k: nat :: ps(k) == os(k + 1)
  {
    (n: nat) => if n == 0 then o else ps(n - 1)
  }

  /** The first of the events. */
  lemma {:induction false} ReadFirst(s: Sys, id: nat, gate: Gate, evs: seq<Messaging>, legs: seq<Leg>,
                                     sent: seq<Call>, t: Sys)
      returns (o: EventOutcome, more: seq<Call>, rest: seq<Leg>)
    requires Finishes(s, id, legs, sent, t) && evs != []
    requires id in s.tasks && s.tasks[id] == Running(gate, evs, Idle)
    ensures TruthfulEvent(DirectoryOf(s), gate, evs[0], o)
    ensures sent == W.EventCalls(DirectoryOf(s), gate, evs[0], o) + more
    ensures var e := W.SyncEvent(DirectoryOf(s), gate, evs[0], o).directory;
      Finishes(At(s, id, e, Running(gate, evs[1..], Idle)), id, rest, more, t)
  {
    o, more, rest := ReadEvent(s, id, legs, sent, t);
  }

  /** From `s`, with delivery `id` about to handle `evs`, to its end in `t`: the provider does the
      same with the outcomes `os`. */
  ghost predicate Explained(s: Sys, id: nat, gate: Gate, evs: seq<Messaging>, os: nat -> EventOutcome,
                            sent: seq<Call>, t: Sys) {
    && TruthfulBatch(DirectoryOf(s), gate, evs, os, |evs|)
    && sent == W.BatchCalls(DirectoryOf(s), gate, evs, os, |evs|)
    && t == At(s, id, W.Before(DirectoryOf(s), gate, evs, os, |evs|), Finished)
  }

  lemma {:induction false} JoinExplained(s: Sys, id: nat, gate: Gate, evs: seq<Messaging>, o: EventOutcome,
                                         ps: nat -> EventOutcome, more: seq<Call>, t: Sys)
    requires evs != [] && TruthfulEvent(DirectoryOf(s), gate, evs[0], o)
    requires var next := At(s, id, W.SyncEvent(DirectoryOf(s), gate, evs[0], o).directory,
        Running(gate, evs[1..], Idle));
      Explained(next, id, gate, evs[1..], ps, more, t)
    ensures Explained(s, id, gate, evs, Prepended(o, ps), W.EventCalls(DirectoryOf(s), gate, evs[0], o) + more, t)
  {
    var e, left := W.SyncEvent(DirectoryOf(s), gate, evs[0], o).directory, Running(gate, evs[1..], Idle);
    assert DirectoryOf(At(s, id, e, left)) == e;
    var os := Prepended(o, ps);
    BatchFirst(DirectoryOf(s), gate, evs, os, ps, |evs|);
    BeforeFirst(DirectoryOf(s), gate, evs, os, ps, |evs|);
    TruthfulFirst(DirectoryOf(s), gate, evs, os, ps);
    AtAt(s, id, e, left, W.Before(e, gate, evs[1..], ps, |evs| - 1), Finished);
  }

  /** From an enabled gate to the end. */
  lemma {:induction false} ReadEvents(s: Sys, id: nat, gate: Gate, evs: seq<Messaging>, legs: seq<Leg>,
                                      sent: seq<Call>, t: Sys) returns (os: nat -> EventOutcome)
    requires Finishes(s, id, legs, sent, t) && id in s.tasks && s.tasks[id] == Running(gate, evs, Idle)
    ensures Explained(s, id, gate, evs, os, sent, t)
    decreases |evs|, 1
  {
    if evs == [] {
      var nothing := SyncOutcome(None, false, CreateFailed, false);
      os := n => EventOutcome(nothing, nothing, NoMedia);
      ReadNoEvents(s, id, gate, legs, sent, t);
    } else {
      var o, more, rest := ReadFirst(s, id, gate, evs, legs, sent, t);
      var ps := ReadRest(s, id, gate, evs, o, rest, more, t);
      JoinExplained(s, id, gate, evs, o, ps, more, t);
      os := Prepended(o, ps);
    }
  }

  lemma {:induction false} ReadRest(s: Sys, id: nat, gate: Gate, evs: seq<Messaging>, o: EventOutcome,
                                    legs: seq<Leg>, sent: seq<Call>, t: Sys) returns (ps: nat -> EventOutcome)
    requires evs != []
    requires var next := At(s, id, W.SyncEvent(DirectoryOf(s), gate, evs[0], o).directory,
        Running(gate, evs[1..], Idle));
      Finishes(next, id, legs, sent, t)
    ensures var next := At(s, id, W.SyncEvent(DirectoryOf(s), gate, evs[0], o).directory,
        Running(gate, evs[1..], Idle));
      Explained(next, id, gate, evs[1..], ps, sent, t)
    decreases |evs|, 0
  {
    var next := At(s, id, W.SyncEvent(DirectoryOf(s), gate, evs[0], o).directory, Running(gate, evs[1..], Idle));
    ps := ReadEvents(next, id, gate, evs[1..], legs, sent, t);
  }

  lemma {:induction false} ReadFill(s: Sys, id: nat, cache: map<string, W.GateState>, path: string, entries: seq<Entry>,
                                    row: W.Lookup, legs: seq<Leg>, sent: seq<Call>, t: Sys)
      returns (rest: seq<Leg>)
    requires Finishes(s, id, legs, sent, t) && entries != [] && row.Row?
    requires id in s.tasks && s.tasks[id] == Found(WebhookUri(path), entries, row.gate)
    requires s.cache == Flags(cache) && !W.ShortCircuits(cache, W.PageKey(path, entries))
    ensures var task := if row.gate.enabled then Running(row.gate, Events(entries), Idle) else Finished;
      Finishes(Resolved(s, id, cache, path, entries, row, task), id, rest, sent, t)
  {
    var task := if row.gate.enabled then Running(row.gate, Events(entries), Idle) else Finished;
    var key := W.PageKey(path, entries);
    assert Flags(cache)[key := row.gate.enabled] == Flags(cache[key := W.StateOf(row.gate)] - {});
    NextSilent(s, id, legs, sent, t, Resolved(s, id, cache, path, entries, row, task));
    rest := legs[1..];
  }

  /** Finding the gate: some answer of the store explains it. */
  lemma {:induction false} ReadGate(s: Sys, id: nat, cache: map<string, W.GateState>, path: string, entries: seq<Entry>,
                                    legs: seq<Leg>, sent: seq<Call>, t: Sys)
      returns (row: W.Lookup, rest: seq<Leg>)
    requires Finishes(s, id, legs, sent, t) && entries != []
    requires id in s.tasks && s.tasks[id] == Arrived(WebhookUri(path), entries) && s.cache == Flags(cache)
    ensures Answers(s, WebhookUri(path), entries, row)
    ensures var task := if W.Rejected(cache, path, Some(entries), row) then Finished
        else Running(row.gate, Events(entries), Idle);
      Finishes(Resolved(s, id, cache, path, entries, row, task), id, rest, sent, t)
  {
    var uri, d := WebhookUri(path), DirectoryOf(s);
    var missed := Missed(uri, entries);
    row, rest := W.Failed(W.StoreFailed), legs;
    if W.ShortCircuits(cache, W.PageKey(path, entries)) {
      NextSilent(s, id, legs, sent, t, At(s, id, d, Finished));
      rest := legs[1..];
    } else {
      NextSilent(s, id, legs, sent, t, At(s, id, d, missed));
      var s1 := At(s, id, d, missed);
      rest := legs[1..];
      Next(s1, id, rest, sent, t);
      if rest[0].action.failed {
        AtAt(s, id, d, missed, d, Finished);
        NextSilent(s1, id, rest, sent, t, At(s, id, d, Finished));
        rest := rest[1..];
      } else {
        row := W.Row(s.rows[(uri, PageOf(entries))]);
        var found := Found(uri, entries, row.gate);
        AtAt(s, id, d, missed, d, found);
        NextSilent(s1, id, rest, sent, t, At(s, id, d, found));
        rest := ReadFill(At(s, id, d, found), id, cache, path, entries, row, rest[1..], sent, t);
        var task := if row.gate.enabled then Running(row.gate, Events(entries), Idle) else Finished;
        AtAt(s, id, d, found, d, task);
      }
    }
  }

  /** What the provider does with the delivery, given the answer of the store and the outcomes of
      the events: the sends `sent` and the state `t`. */
  ghost predicate Provided(s: Sys, id: nat, cache: map<string, W.GateState>, path: string, entries: seq<Entry>,
                           row: W.Lookup, os: nat -> EventOutcome, sent: seq<Call>, t: Sys)
    requires entries != []
  {
    var d, evs, rejected := DirectoryOf(s), Events(entries), W.Rejected(cache, path, Some(entries), row);
    && Answers(s, WebhookUri(path), entries, row)
    && (!rejected ==> TruthfulBatch(d, row.gate, evs, os, |evs|))
    && sent == (if rejected then [] else W.BatchCalls(d, row.gate, evs, os, |evs|))
    && t == At(Resolved(s, id, cache, path, entries, row, Finished), id,
               if rejected then d else W.Before(d, row.gate, evs, os, |evs|), Finished)
  }

  /** A whole delivery that nothing disturbs: whatever way the machine takes from its arrival to
      its end, the sends, the directory and the gate cache are those of `HandleWebhook` for some
      answer of the store and some outcomes of the events. */
  lemma {:induction false} ReadDelivery(s: Sys, id: nat, cache: map<string, W.GateState>, path: string,
                                        entries: seq<Entry>, legs: seq<Leg>, sent: seq<Call>, t: Sys)
      returns (row: W.Lookup, os: nat -> EventOutcome)
    requires Finishes(s, id, legs, sent, t) && entries != []
    requires id in s.tasks && s.tasks[id] == Arrived(WebhookUri(path), entries) && s.cache == Flags(cache)
    ensures Provided(s, id, cache, path, entries, row, os, sent, t)
  {
    var d, evs := DirectoryOf(s), Events(entries);
    var rest;
    row, rest := ReadGate(s, id, cache, path, entries, legs, sent, t);
    var done := Resolved(s, id, cache, path, entries, row, Finished);
    assert done.tasks[id := Finished] == done.tasks;
    if W.Rejected(cache, path, Some(entries), row) {
      NothingAfter(done, id, rest, sent, t);
      var nothing := SyncOutcome(None, false, CreateFailed, false);
      os := n => EventOutcome(nothing, nothing, NoMedia);
    } else {
      var s1 := Resolved(s, id, cache, path, entries, row, Running(row.gate, evs, Idle));
      os := ReadEvents(s1, id, row.gate, evs, rest, sent, t);
      assert s1.tasks[id := Finished] == done.tasks;
    }
  }

  /** Undisturbed, a delivery of the machine can end with these sends in this state exactly when
      the provider can, for some answer of the store and some outcomes of the events. */
  lemma {:induction false} DeliveryExactly(s: Sys, id: nat, cache: map<string, W.GateState>, path: string,
                                           entries: seq<Entry>, sent: seq<Call>, t: Sys)
    requires entries != [] && id in s.tasks && s.tasks[id] == Arrived(WebhookUri(path), entries)
    requires s.cache == Flags(cache)
    ensures (exists legs :: Finishes(s, id, legs, sent, t)) <==>
            exists row, os :: Provided(s, id, cache, path, entries, row, os, sent, t)
  {
    if legs :| Finishes(s, id, legs, sent, t) {
      var row, os := ReadDelivery(s, id, cache, path, entries, legs, sent, t);
      assert Provided(s, id, cache, path, entries, row, os, sent, t);
    }
    if row, os :| Provided(s, id, cache, path, entries, row, os, sent, t) {
      var legs := PlayDelivery(s, id, cache, path, entries, row, os);
      assert Finishes(s, id, legs, sent, t);
    }
  }
}
