/** When what happens to one event of a delivery changes the sends of a later one, exactly, with
    any events between them. */
module Disturbance {
  import opened Facebook
  import opened Options
  import opened Identity
  import opened Webhook

  // ---- What an event passes on ----

  /** Synchronising makes the user known, whatever is known beforehand. */
  predicate Grants(o: SyncOutcome) {
    o.profile.Some? && !o.creation.CreateFailed? && o.marked
  }

  function HashOf(psid: string, o: SyncOutcome): string
    requires o.profile.Some?
  {
    Hash(User(psid, o.profile.value))
  }

  /** The hashes that the event makes known, given what is known. */
  function Added(known: set<string>, ev: Messaging, o: EventOutcome): set<string> {
    if ev.Ignored() then {}
    else
      (if Grants(o.first) then {HashOf(ev.sender, o.first)} else {})
      + (if ev.message.Some? && Grants(o.second)
            && !Refused(o.first) && (NeedsKnown(o.first) ==> HashOf(ev.sender, o.first) in known)
         then {HashOf(ev.sender, o.second)} else {})
  }

  /** The event makes one hash known exactly if another one is. */
  predicate Conditional(ev: Messaging, o: EventOutcome) {
    !ev.Ignored() && ev.message.Some? && Grants(o.second) && NeedsKnown(o.first)
  }

  /** Of the hashes `wanted` after the event, those that have to be known before it; in two ways
      where the event passes one hash on for another. */
  function Demands(ev: Messaging, o: EventOutcome, wanted: set<string>): set<set<string>> {
    if Conditional(ev, o)
    then {wanted, wanted - {HashOf(ev.sender, o.second)} + {HashOf(ev.sender, o.first)}}
    else {wanted - Added({}, ev, o)}
  }

  lemma {:induction false} SyncKnows(d: Directory, gate: Gate, psid: string, o: SyncOutcome, hash: string)
    ensures hash in Sync(d, gate, psid, o).directory.known <==>
            hash in d.known || (Grants(o) && hash == HashOf(psid, o))
    ensures Sync(d, gate, psid, o).ok <==> !Refused(o) && (NeedsKnown(o) ==> HashOf(psid, o) in d.known)
  {
  }

  lemma {:induction false} EventKnows(d: Directory, gate: Gate, ev: Messaging, o: EventOutcome, hash: string)
    requires !ev.Ignored()
    ensures hash in SyncEvent(d, gate, ev, o).directory.known <==>
            || hash in d.known
            || (Grants(o.first) && hash == HashOf(ev.sender, o.first))
            || (ev.message.Some? && Grants(o.second) && hash == HashOf(ev.sender, o.second)
                && !Refused(o.first) && (NeedsKnown(o.first) ==> HashOf(ev.sender, o.first) in d.known))
  {
    SyncKnows(d, gate, ev.sender, o.first, hash);
    SyncKnows(Sync(d, gate, ev.sender, o.first).directory, gate, ev.sender, o.second, hash);
  }

  lemma {:induction false} EventAdds(d: Directory, gate: Gate, ev: Messaging, o: EventOutcome)
    ensures SyncEvent(d, gate, ev, o).directory.known == d.known + Added(d.known, ev, o)
  {
    if !ev.Ignored() {
      forall hash: string
        ensures hash in SyncEvent(d, gate, ev, o).directory.known <==> hash in d.known + Added(d.known, ev, o)
      {
        EventKnows(d, gate, ev, o, hash);
      }
    }
  }

  lemma {:induction false} DemandsMet(known: set<string>, ev: Messaging, o: EventOutcome, wanted: set<string>)
    ensures wanted <= known + Added(known, ev, o) <==> exists s <- Demands(ev, o, wanted) :: s <= known
  {
    if Conditional(ev, o) {
      var first, second := HashOf(ev.sender, o.first), HashOf(ev.sender, o.second);
      assert wanted in Demands(ev, o, wanted) && wanted - {second} + {first} in Demands(ev, o, wanted);
      assert Added(known, ev, o) == if first in known then {second} else {};
    } else {
      var added := Added(known, ev, o);
      assert added == Added({}, ev, o) && wanted - added in Demands(ev, o, wanted);
      assert wanted <= known + added <==> wanted - added <= known;
    }
  }

  /** All of `wanted` is known after the event exactly when one of its demands is met before. */
  lemma {:induction false} EventDemands(d: Directory, gate: Gate, ev: Messaging, o: EventOutcome, wanted: set<string>)
    ensures wanted <= SyncEvent(d, gate, ev, o).directory.known <==> exists s <- Demands(ev, o, wanted) :: s <= d.known
  {
    EventAdds(d, gate, ev, o);
    DemandsMet(d.known, ev, o, wanted);
  }

  // ---- Back through a batch ----

  /** The sets of hashes of which one has to be known before event `k`, for event `j` to send. */
  function DemandsAt(evs: seq<Messaging>, os: nat -> EventOutcome, j: nat, k: nat): set<set<string>>
    requires k <= j < |evs|
    decreases j - k
  {
    if k == j then {Needed(evs[j], os(j))}
    else set wanted <- DemandsAt(evs, os, j, k + 1), s <- Demands(evs[k], os(k), wanted) :: s
  }

  lemma {:induction false} BatchStepDemands(before: Directory, gate: Gate, evs: seq<Messaging>, os: nat -> EventOutcome,
                                            j: nat, k: nat)
    requires k < j < |evs|
    ensures (exists s <- DemandsAt(evs, os, j, k + 1) :: s <= SyncEvent(before, gate, evs[k], os(k)).directory.known)
            <==> exists s <- DemandsAt(evs, os, j, k) :: s <= before.known
  {
    var after := SyncEvent(before, gate, evs[k], os(k)).directory;
    if wanted :| wanted in DemandsAt(evs, os, j, k + 1) && wanted <= after.known {
      EventDemands(before, gate, evs[k], os(k), wanted);
      var s :| s in Demands(evs[k], os(k), wanted) && s <= before.known;
      assert s in DemandsAt(evs, os, j, k);
    }
    if s :| s in DemandsAt(evs, os, j, k) && s <= before.known {
      var wanted :| wanted in DemandsAt(evs, os, j, k + 1) && s in Demands(evs[k], os(k), wanted);
      EventDemands(before, gate, evs[k], os(k), wanted);
      assert wanted <= after.known;
    }
  }

  lemma {:induction false} BatchDemands(d: Directory, gate: Gate, evs: seq<Messaging>, os: nat -> EventOutcome,
                                        j: nat, k: nat)
    requires k <= j < |evs|
    ensures Needed(evs[j], os(j)) <= Before(d, gate, evs, os, j).known <==>
            exists s <- DemandsAt(evs, os, j, k) :: s <= Before(d, gate, evs, os, k).known
    decreases j - k
  {
    if k < j {
      BatchDemands(d, gate, evs, os, j, k + 1);
      BatchStepDemands(Before(d, gate, evs, os, k), gate, evs, os, j, k);
    }
  }

  lemma {:induction false} SameDemands(evs: seq<Messaging>, os: nat -> EventOutcome, ps: nat -> EventOutcome,
                                       j: nat, k: nat)
    requires k <= j < |evs| && forall n: nat :: k <= n <= j ==> os(n) == ps(n)
    ensures DemandsAt(evs, os, j, k) == DemandsAt(evs, ps, j, k)
    decreases j - k
  {
    if k < j {
      SameDemands(evs, os, ps, j, k + 1);
    }
  }

  // ---- Least demands ----

  /** The demands that no other one is part of. */
  function Least(demands: set<set<string>>): set<set<string>> {
    set s <- demands | forall t <- demands :: t <= s ==> t == s
  }

  lemma {:induction false} HasLeast(demands: set<set<string>>, s: set<string>) returns (t: set<string>)
    requires s in demands
    ensures t in Least(demands) && t <= s
    decreases |s|
  {
    if s in Least(demands) {
      t := s;
    } else {
      var r :| r in demands && r <= s && r != s;
      Smaller(r, s);
      t := HasLeast(demands, r);
    }
  }

  lemma {:induction false} Smaller(r: set<string>, s: set<string>)
    requires r <= s && r != s
    ensures |r| < |s|
  {
    assert s == r + (s - r);
    assert s - r != {};
  }

  // ---- The first event and a later one ----

  function With(os: nat -> EventOutcome, first: EventOutcome): nat -> EventOutcome {
    (n: nat) => if n == 0 then first else os(n)
  }

  /** Whether event `j` sends, from what is known after the first event. */
  lemma {:induction false} SendsIf(d: Directory, gate: Gate, evs: seq<Messaging>, os: nat -> EventOutcome,
                                   p: EventOutcome, j: nat)
    requires 0 < j < |evs| && !Silent(gate, evs[j], os(j))
    ensures Segment(d, gate, evs, With(os, p), j) ==
            if exists s <- DemandsAt(evs, os, j, 1) :: s <= SyncEvent(d, gate, evs[0], p).directory.known
            then ContentCalls(gate, evs[j], os(j).media) else []
  {
    var ps := With(os, p);
    assert ps(j) == os(j) && ps(0) == p;
    BatchDemands(d, gate, evs, ps, j, 1);
    SameDemands(evs, os, ps, j, 1);
    NeededCalls(Before(d, gate, evs, ps, j), gate, evs[j], os(j));
    assert Before(d, gate, evs, ps, 0) == d;
    assert Before(d, gate, evs, ps, 1) == SyncEvent(d, gate, evs[0], p).directory;
  }

  /** What happens to the first event never changes the sends of event `j`. */
  ghost predicate NeverDisturbs(gate: Gate, evs: seq<Messaging>, os: nat -> EventOutcome, j: nat)
    requires j < |evs|
  {
    forall d: Directory, p: EventOutcome, q: EventOutcome ::
      Segment(d, gate, evs, With(os, p), j) == Segment(d, gate, evs, With(os, q), j)
  }

  /** Some of the hashes can be marked for `psid`. */
  predicate Touches(psid: string, s: set<string>) {
    exists hash <- s :: Markable(psid, hash)
  }

  /** No least demand of event `j` has a hash in it that the first event can mark. */
  ghost predicate OutOfReach(evs: seq<Messaging>, os: nat -> EventOutcome, j: nat)
    requires 0 < j < |evs|
  {
    forall s <- Least(DemandsAt(evs, os, j, 1)) :: !Touches(evs[0].sender, s)
  }

  lemma {:induction false} Unreached(d: Directory, gate: Gate, evs: seq<Messaging>, os: nat -> EventOutcome,
                                     p: EventOutcome, j: nat)
    requires 0 < j < |evs| && OutOfReach(evs, os, j)
    ensures (exists s <- DemandsAt(evs, os, j, 1) :: s <= SyncEvent(d, gate, evs[0], p).directory.known) <==>
            exists s <- DemandsAt(evs, os, j, 1) :: s <= d.known
  {
    var demands, after := DemandsAt(evs, os, j, 1), SyncEvent(d, gate, evs[0], p).directory.known;
    EventMarks(d, gate, evs[0], p);
    if s :| s in demands && s <= after {
      var t := HasLeast(demands, s);
      forall hash <- t
        ensures hash in d.known
      {
        assert !Touches(evs[0].sender, t);
      }
      assert t in demands && t <= d.known;
    }
  }

  lemma {:induction false} Reached(gate: Gate, evs: seq<Messaging>, os: nat -> EventOutcome, j: nat)
    requires 0 < j < |evs| && !evs[0].Ignored() && !Silent(gate, evs[j], os(j)) && !OutOfReach(evs, os, j)
    ensures !NeverDisturbs(gate, evs, os, j)
  {
    var demands := DemandsAt(evs, os, j, 1);
    var s :| s in Least(demands) && Touches(evs[0].sender, s);
    var hash :| hash in s && Markable(evs[0].sender, hash);
    var p := MarkableProfile(evs[0].sender, hash);
    var d := Directory(s - {hash}, {});
    MarkingMarks(d, gate, evs[0], p);
    SendsIf(d, gate, evs, os, Marking(p, true), j);
    SendsIf(d, gate, evs, os, Marking(p, false), j);
    assert s <= SyncEvent(d, gate, evs[0], Marking(p, true)).directory.known;
    assert !exists t <- demands :: t <= d.known by {
      if t :| t in demands && t <= d.known {
        assert t <= s && hash !in t;
      }
    }
    var marked, lost := With(os, Marking(p, true)), With(os, Marking(p, false));
    assert Segment(d, gate, evs, marked, j) != Segment(d, gate, evs, lost, j);
  }

  /** In a batch, whatever the events between do: what happens to the first event never changes
      the sends of event `j` exactly when that event sends nothing anyway, or none of its least
      demands, followed back to the first event, has a hash that the first event can mark. */
  lemma {:induction false} FirstEvent(gate: Gate, evs: seq<Messaging>, os: nat -> EventOutcome, j: nat)
    requires 0 < j < |evs| && !evs[0].Ignored()
    ensures NeverDisturbs(gate, evs, os, j) <==> Silent(gate, evs[j], os(j)) || OutOfReach(evs, os, j)
  {
    if Silent(gate, evs[j], os(j)) {
      forall d: Directory, p: EventOutcome, q: EventOutcome
        ensures Segment(d, gate, evs, With(os, p), j) == Segment(d, gate, evs, With(os, q), j)
      {
        SteadyCalls(Before(d, gate, evs, With(os, p), j), Before(d, gate, evs, With(os, q), j), gate, evs[j], os(j));
      }
    } else if OutOfReach(evs, os, j) {
      forall d: Directory, p: EventOutcome, q: EventOutcome
        ensures Segment(d, gate, evs, With(os, p), j) == Segment(d, gate, evs, With(os, q), j)
      {
        SendsIf(d, gate, evs, os, p, j);
        SendsIf(d, gate, evs, os, q, j);
        Unreached(d, gate, evs, os, p, j);
        Unreached(d, gate, evs, os, q, j);
      }
    } else {
      Reached(gate, evs, os, j);
    }
  }
}
