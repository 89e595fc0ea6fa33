/** Any number of webhook deliveries at once, against a changing gate store, an evicting gate
    cache and an expiring known-user cache.

    Each step is one access to shared state, so the steps of different deliveries interleave
    freely. A delivery follows `Webhook.FacebookProvider`: look at the gate cache, read the
    store, fill the cache, then for each event fetch the profile, ask the known-user cache,
    create the contact, mark it known, a second time for messages, and send. */
module Deliveries {
  import opened Facebook
  import opened Options
  import opened Identity

  /** Where a delivery stands with its current event; `again` in the second synchronisation. */
  datatype Stage =
    | Idle                                         // about to take the next event
    | Fetching(again: bool)                        // about to fetch the profile
    | Checking(again: bool, user: ExternalUser)    // about to ask the known-user cache
    | Creating(again: bool, user: ExternalUser)    // about to create the contact
    | Marking(again: bool, user: ExternalUser)     // about to mark the user known
    | Sending(todo: seq<Call>)

  datatype Task =
    | Arrived(uri: string, entries: seq<Entry>)
    | Missed(uri: string, entries: seq<Entry>)                  // about to read the store
    | Found(uri: string, entries: seq<Entry>, gate: Gate)       // about to fill the cache
    | Running(gate: Gate, events: seq<Messaging>, stage: Stage)
    | Finished

  datatype Sys = Sys(
    rows: map<(string, string), Gate>,    // the store, by webhook uri and page id
    cache: map<string, bool>,             // the gate cache: key to the enabled flag
    known: set<string>,                   // the known-user cache: hashes
    contacts: set<(int, string)>,         // the gateway's contacts: domain and id
    tasks: map<nat, Task>)

  datatype Action =
    | Arrive(uri: string, entries: seq<Entry>)
    | LookInCache
    | ReadStore(failed: bool)
    | FillCache
    | TakeEvent
    | Fetch(profile: Option<Profile>)
    | Ask(down: bool, media: nat -> MediaOutcome)
    | Create(answer: Creation)
    | Mark(ok: bool, media: nat -> MediaOutcome)
    | Send
    // the rest of the world
    | SetRow(key: (string, string), gate: Gate)      // a gate is created or updated
    | DeleteRow(key: (string, string))               // a gate is unbound
    | Drop(cacheKey: string)                         // a cache entry is evicted or deleted
    | Expire(hash: string)                           // a known user times out
    | Elsewhere(domain: int, id: string)             // a contact is created by someone else

  function PageOf(entries: seq<Entry>): string {
    if entries == [] then "" else entries[0].id
  }

  /** The delivery gives up its current event. */
  function Skip(t: Task): Task
    requires t.Running? && t.events != []
  {
    Running(t.gate, t.events[1..], Idle)
  }

  /** The contact is synchronised: once more for messages, else the content is sent. */
  function Proceed(t: Task, again: bool, media: nat -> MediaOutcome): Task
    requires t.Running? && t.events != []
  {
    if !again && t.events[0].message.Some? then t.(stage := Fetching(true))
    else t.(stage := Sending(ContentCalls(t.gate, t.events[0], media)))
  }

  /** The action is possible for delivery `t`. */
  predicate Enabled(s: Sys, id: nat, a: Action) {
    match a
    case Arrive(uri, entries) => id !in s.tasks && entries != []
    case LookInCache => id in s.tasks && s.tasks[id].Arrived?
    case ReadStore(failed) =>
      id in s.tasks && s.tasks[id].Missed?
      && (failed || (s.tasks[id].uri, PageOf(s.tasks[id].entries)) in s.rows)
    case FillCache => id in s.tasks && s.tasks[id].Found?
    case TakeEvent => id in s.tasks && s.tasks[id].Running? && s.tasks[id].stage.Idle?
    case Fetch(_) => AtEvent(s, id) && s.tasks[id].stage.Fetching?
    case Ask(_, _) => AtEvent(s, id) && s.tasks[id].stage.Checking?
    case Create(answer) =>
      AtEvent(s, id) && s.tasks[id].stage.Creating?
      && (answer.AlreadyExists? ==> (s.tasks[id].gate.domain, s.tasks[id].events[0].sender) in s.contacts)
    case Mark(_, _) => AtEvent(s, id) && s.tasks[id].stage.Marking?
    case Send => AtEvent(s, id) && s.tasks[id].stage.Sending?
    case _ => true
  }

  predicate AtEvent(s: Sys, id: nat) {
    id in s.tasks && s.tasks[id].Running? && s.tasks[id].events != []
  }

  function Apply(s: Sys, id: nat, a: Action): Sys
    requires Enabled(s, id, a)
  {
    match a
    case Arrive(uri, entries) => s.(tasks := s.tasks[id := Arrived(uri, entries)])
    case LookInCache =>
      var t := s.tasks[id];
      var key := GateKey(t.uri, PageOf(t.entries));
      s.(tasks := s.tasks[id := if key in s.cache && !s.cache[key] then Finished else Missed(t.uri, t.entries)])
    case ReadStore(failed) =>
      var t := s.tasks[id];
      s.(tasks := s.tasks[id := if failed then Finished
                                else Found(t.uri, t.entries, s.rows[(t.uri, PageOf(t.entries))])])
    case FillCache =>
      var t := s.tasks[id];
      s.(cache := s.cache[GateKey(t.uri, PageOf(t.entries)) := t.gate.enabled],
         tasks := s.tasks[id := if t.gate.enabled then Running(t.gate, Events(t.entries), Idle) else Finished])
    case TakeEvent =>
      var t := s.tasks[id];
      s.(tasks := s.tasks[id := if t.events == [] then Finished
                                else if t.events[0].Ignored() then Skip(t)
                                else t.(stage := Fetching(false))])
    case Fetch(profile) =>
      var t := s.tasks[id];
      s.(tasks := s.tasks[id :=
        match profile
        case None => Skip(t)
        case Some(p) =>
          t.(stage := Checking(t.stage.again, ExternalUser(t.events[0].sender, p.firstName, p.lastName)))])
    case Ask(down, media) =>
      var t := s.tasks[id];
      s.(tasks := s.tasks[id := if !down && Hash(t.stage.user) in s.known then Proceed(t, t.stage.again, media)
                                else t.(stage := Creating(t.stage.again, t.stage.user))])
    case Create(answer) =>
      var t := s.tasks[id];
      if answer.CreateFailed? then s.(tasks := s.tasks[id := Skip(t)])
      else s.(contacts := s.contacts + {(t.gate.domain, t.events[0].sender)},
              tasks := s.tasks[id := t.(stage := Marking(t.stage.again, t.stage.user))])
    case Mark(ok, media) =>
      var t := s.tasks[id];
      s.(known := if ok then s.known + {Hash(t.stage.user)} else s.known,
         tasks := s.tasks[id := Proceed(t, t.stage.again, media)])
    case Send =>
      var t := s.tasks[id];
      s.(tasks := s.tasks[id := if t.stage.todo == [] then Skip(t) else t.(stage := Sending(t.stage.todo[1..]))])
    case SetRow(key, gate) => s.(rows := s.rows[key := gate])
    case DeleteRow(key) => s.(rows := s.rows - {key})
    case Drop(cacheKey) => s.(cache := s.cache - {cacheKey})
    case Expire(hash) => s.(known := s.known - {hash})
    case Elsewhere(domain, psid) => s.(contacts := s.contacts + {(domain, psid)})
  }

  // ---- Runs ----

  datatype Move = Move(id: nat, action: Action)

  /** States `run[0]`, `run[1]`, ... where `moves[i]` leads from `run[i]` to `run[i + 1]`. */
  predicate IsRun(run: seq<Sys>, moves: seq<Move>) {
    && |run| == |moves| + 1
    && forall i :: 0 <= i < |moves| ==>
         Enabled(run[i], moves[i].id, moves[i].action) && run[i + 1] == Apply(run[i], moves[i].id, moves[i].action)
  }

  /** Step `i` attempts a send. */
  predicate Sends(run: seq<Sys>, moves: seq<Move>, i: nat)
    requires IsRun(run, moves) && i < |moves|
  {
    moves[i].action.Send? && run[i].tasks[moves[i].id].stage.todo != []
  }

  function SentCall(run: seq<Sys>, moves: seq<Move>, i: nat): Call
    requires IsRun(run, moves) && i < |moves| && Sends(run, moves, i)
  {
    run[i].tasks[moves[i].id].stage.todo[0]
  }

  // ---- Sends speak for the sender ----

  /** What a delivery is about to send is in the name of the event's sender, through its gate. */
  predicate TaskSpeaks(t: Task) {
    t.Running? && t.events != [] && t.stage.Sending? ==>
      forall c <- t.stage.todo :: Speaks(c, t.gate, t.events[0].sender)
  }

  lemma {:induction false} ProceedSpeaks(t: Task, again: bool, media: nat -> MediaOutcome)
    requires t.Running? && t.events != []
    ensures TaskSpeaks(Proceed(t, again, media))
  {
    ContentSpeaks(t.gate, t.events[0], media);
  }

  lemma {:induction false} StepSpeaks(s: Sys, id: nat, a: Action)
    requires Enabled(s, id, a) && forall k <- s.tasks :: TaskSpeaks(s.tasks[k])
    ensures forall k <- Apply(s, id, a).tasks :: TaskSpeaks(Apply(s, id, a).tasks[k])
  {
    if a.Ask? {
      ProceedSpeaks(s.tasks[id], s.tasks[id].stage.again, a.media);
    } else if a.Mark? {
      ProceedSpeaks(s.tasks[id], s.tasks[id].stage.again, a.media);
    } else if a.Send? {
      assert TaskSpeaks(s.tasks[id]);
    }
  }

  lemma {:induction false} RunSpeaks(run: seq<Sys>, moves: seq<Move>, i: nat)
    requires IsRun(run, moves) && i < |run| && run[0].tasks == map[]
    ensures forall k <- run[i].tasks :: TaskSpeaks(run[i].tasks[k])
  {
    if i > 0 {
      RunSpeaks(run, moves, i - 1);
      StepSpeaks(run[i - 1], moves[i - 1].id, moves[i - 1].action);
    }
  }

  /** In every run, what is sent is in the name of the sender of the event at hand. */
  lemma {:induction false} SentSpeaks(run: seq<Sys>, moves: seq<Move>, i: nat)
    requires IsRun(run, moves) && run[0].tasks == map[] && i < |moves| && Sends(run, moves, i)
    ensures var t := run[i].tasks[moves[i].id]; Speaks(SentCall(run, moves, i), t.gate, t.events[0].sender)
  {
    RunSpeaks(run, moves, i);
    var t := run[i].tasks[moves[i].id];
    assert TaskSpeaks(t) && t.stage.todo[0] in t.stage.todo;
  }

  /** While a delivery is past taking an event, the event is none that is passed over. */
  predicate TaskTaken(t: Task) {
    t.Running? && t.events != [] && !t.stage.Idle? ==>
      var ev := t.events[0];
      && ev.sender != "" && (ev.message.Some? || ev.postback.Some?)
      && (ev.message.Some? ==> !ev.message.value.isEcho)
  }

  lemma {:induction false} StepTaken(s: Sys, id: nat, a: Action)
    requires Enabled(s, id, a) && forall k <- s.tasks :: TaskTaken(s.tasks[k])
    ensures forall k <- Apply(s, id, a).tasks :: TaskTaken(Apply(s, id, a).tasks[k])
  {
    OthersKept(s, id, a);
    if id in s.tasks {
      assert TaskTaken(s.tasks[id]);
    }
  }

  lemma {:induction false} RunTaken(run: seq<Sys>, moves: seq<Move>, i: nat)
    requires IsRun(run, moves) && i < |run| && run[0].tasks == map[]
    ensures forall k <- run[i].tasks :: TaskTaken(run[i].tasks[k])
  {
    if i > 0 {
      RunTaken(run, moves, i - 1);
      StepTaken(run[i - 1], moves[i - 1].id, moves[i - 1].action);
    }
  }

  /** In every run, the event whose content is sent has a sender and content, and is no echo. */
  lemma {:induction false} SentEvent(run: seq<Sys>, moves: seq<Move>, i: nat)
    requires IsRun(run, moves) && run[0].tasks == map[] && i < |moves| && Sends(run, moves, i)
    ensures var ev := run[i].tasks[moves[i].id].events[0];
      && ev.sender != "" && (ev.message.Some? || ev.postback.Some?)
      && (ev.message.Some? ==> !ev.message.value.isEcho)
  {
    RunTaken(run, moves, i);
    assert TaskTaken(run[i].tasks[moves[i].id]);
  }

  // ---- Contact before content ----

  /** Which domains serve an id. */
  type Domains = string -> iset<int>

  predicate Served(d: Domains, gate: Gate, events: seq<Messaging>) {
    forall i :: 0 <= i < |events| ==> events[i].Ignored() || gate.domain in d(events[i].sender)
  }

  /** Deliveries go through gates of domains that serve the senders. */
  predicate Orderly(d: Domains, s: Sys) {
    forall id <- s.tasks :: s.tasks[id].Running? ==> Served(d, s.tasks[id].gate, s.tasks[id].events)
  }

  /** No two senders that are served can share a hash. */
  ghost predicate Distinct(d: Domains) {
    forall a, b, x, y :: a != "" && b != "" && Collide(a, b) && x in d(a) && y in d(b) ==> a == b
  }

  /** Moreover, a sender is served by one domain only. */
  ghost predicate Settled(d: Domains) {
    forall a, b, x, y :: a != "" && b != "" && Collide(a, b) && x in d(a) && y in d(b) ==> a == b && x == y
  }

  ghost predicate HasContact(d: Domains, s: Sys, psid: string) {
    exists domain :: domain in d(psid) && (domain, psid) in s.contacts
  }

  /** The hash is one of a sender with a contact. */
  ghost predicate Backed(d: Domains, s: Sys, hash: string) {
    exists u: ExternalUser :: hash == Hash(u) && u.id != "" && HasContact(d, s, u.id)
  }

  /** Known hash implies contact created. */
  ghost predicate Justified(d: Domains, s: Sys) {
    forall hash <- s.known :: Backed(d, s, hash)
  }

  ghost predicate TaskSound(d: Domains, s: Sys, t: Task) {
    t.Running? && t.events != [] && !t.stage.Idle? ==>
      var psid := t.events[0].sender;
      && !t.events[0].Ignored()
      && match t.stage
         case Checking(_, user) => user.id == psid
         case Creating(_, user) => user.id == psid
         case Marking(_, user) => user.id == psid && HasContact(d, s, psid)
         case Sending(_) => HasContact(d, s, psid)
         case _ => true
  }

  ghost predicate Sound(d: Domains, s: Sys) {
    Justified(d, s) && forall id <- s.tasks :: TaskSound(d, s, s.tasks[id])
  }

  /** Contacts are never removed, so what has a contact keeps it. */
  lemma {:induction false} Keeps(d: Domains, s: Sys, t: Sys)
    requires s.contacts <= t.contacts
    ensures forall psid :: HasContact(d, s, psid) ==> HasContact(d, t, psid)
    ensures forall hash :: Backed(d, s, hash) ==> Backed(d, t, hash)
    ensures forall task :: TaskSound(d, s, task) ==> TaskSound(d, t, task)
  {
    forall psid | HasContact(d, s, psid)
      ensures HasContact(d, t, psid)
    {
      var domain :| domain in d(psid) && (domain, psid) in s.contacts;
      assert (domain, psid) in t.contacts;
    }
  }

  /** A hit in the known-user cache is a user with a contact. */
  lemma {:induction false} HitHasContact(d: Domains, s: Sys, u: ExternalUser, domain: int)
    requires Distinct(d) && Justified(d, s) && Hash(u) in s.known
    requires u.id != "" && domain in d(u.id)
    ensures HasContact(d, s, u.id)
  {
    var v: ExternalUser :| Hash(u) == Hash(v) && v.id != "" && HasContact(d, s, v.id);
    HashCollides(v, u);
    var x :| x in d(v.id) && (x, v.id) in s.contacts;
    assert v.id == u.id;
  }

  lemma {:induction false} AskSound(d: Domains, s: Sys, id: nat, a: Action)
    requires Enabled(s, id, a) && Sound(d, s) && Orderly(d, s) && Distinct(d) && a.Ask?
    ensures TaskSound(d, s, Apply(s, id, a).tasks[id])
  {
    var t := s.tasks[id];
    assert TaskSound(d, s, t);
    if !a.down && Hash(t.stage.user) in s.known {
      assert Served(d, t.gate, t.events);
      HitHasContact(d, s, t.stage.user, t.gate.domain);
    }
  }

  lemma {:induction false} CreateSound(d: Domains, s: Sys, id: nat, a: Action)
    requires Enabled(s, id, a) && Sound(d, s) && Orderly(d, s) && a.Create?
    ensures TaskSound(d, Apply(s, id, a), Apply(s, id, a).tasks[id])
  {
    var t := s.tasks[id];
    assert TaskSound(d, s, t) && Served(d, t.gate, t.events);
    if !a.answer.CreateFailed? {
      assert (t.gate.domain, t.events[0].sender) in Apply(s, id, a).contacts;
    }
  }

  lemma {:induction false} MarkSound(d: Domains, s: Sys, id: nat, a: Action)
    requires Enabled(s, id, a) && Sound(d, s) && a.Mark?
    ensures TaskSound(d, s, Apply(s, id, a).tasks[id])
    ensures forall hash <- Apply(s, id, a).known :: Backed(d, s, hash)
  {
    var t := s.tasks[id];
    assert TaskSound(d, s, t);
    assert Backed(d, s, Hash(t.stage.user));
  }

  /** The other steps of a delivery keep it sound as well. */
  lemma {:induction false} OwnSound(d: Domains, s: Sys, id: nat, a: Action)
    requires Enabled(s, id, a) && Sound(d, s)
    requires !a.Ask? && !a.Create? && !a.Mark? && id in Apply(s, id, a).tasks
    ensures TaskSound(d, s, Apply(s, id, a).tasks[id])
  {
    if id in s.tasks {
      assert TaskSound(d, s, s.tasks[id]);
    }
  }

  lemma {:induction false} StepSound(d: Domains, s: Sys, id: nat, a: Action)
    requires Enabled(s, id, a) && Sound(d, s) && Orderly(d, s) && Distinct(d)
    ensures Sound(d, Apply(s, id, a))
  {
    var s' := Apply(s, id, a);
    Keeps(d, s, s');
    OthersKept(s, id, a);
    if a.Ask? {
      AskSound(d, s, id, a);
    } else if a.Create? {
      CreateSound(d, s, id, a);
    } else if a.Mark? {
      MarkSound(d, s, id, a);
    } else if id in s'.tasks {
      OwnSound(d, s, id, a);
    }
    assert forall hash <- s'.known :: Backed(d, s, hash);
    forall k <- s'.tasks
      ensures TaskSound(d, s', s'.tasks[k])
    {
      if k != id {
        assert TaskSound(d, s, s.tasks[k]);
      }
    }
  }

  /** A step moves one delivery, and only marking adds a known hash. */
  lemma {:induction false} OthersKept(s: Sys, id: nat, a: Action)
    requires Enabled(s, id, a)
    ensures var s' := Apply(s, id, a);
      && s.contacts <= s'.contacts && (a.Mark? || s'.known <= s.known)
      && forall k <- s'.tasks :: k == id || (k in s.tasks && s'.tasks[k] == s.tasks[k])
  {
  }

  /** A run begins without deliveries, and what is known then is justified. */
  ghost predicate Starts(d: Domains, s: Sys) {
    s.tasks == map[] && Justified(d, s)
  }

  lemma {:induction false} RunSound(d: Domains, run: seq<Sys>, moves: seq<Move>, i: nat)
    requires IsRun(run, moves) && i < |run| && Starts(d, run[0]) && Distinct(d)
    requires forall s <- run :: Orderly(d, s)
    ensures Sound(d, run[i])
  {
    if i > 0 {
      RunSound(d, run, moves, i - 1);
      assert run[i - 1] in run;
      StepSound(d, run[i - 1], moves[i - 1].id, moves[i - 1].action);
    }
  }

  /** In every run, a send is attempted only when its sender has a contact at the gateway,
      in one of the domains that serve the sender. */
  lemma {:induction false} ContactBeforeContent(d: Domains, run: seq<Sys>, moves: seq<Move>, i: nat)
    requires IsRun(run, moves) && Starts(d, run[0]) && i < |moves| && Sends(run, moves, i)
    requires Distinct(d) && forall s <- run :: Orderly(d, s)
    ensures HasContact(d, run[i], SentCall(run, moves, i).Sender())
  {
    RunSound(d, run, moves, i);
    SentSpeaks(run, moves, i);
    assert TaskSound(d, run[i], run[i].tasks[moves[i].id]);
  }

  /** When moreover every sender is served by one domain only, the contact is in the domain
      the send goes to. */
  lemma {:induction false} ContactInDomain(d: Domains, run: seq<Sys>, moves: seq<Move>, i: nat)
    requires IsRun(run, moves) && Starts(d, run[0]) && i < |moves| && Sends(run, moves, i)
    requires Settled(d) && forall s <- run :: Orderly(d, s)
    ensures var c := SentCall(run, moves, i); (c.domain, c.Sender()) in run[i].contacts
  {
    assert Distinct(d);
    ContactBeforeContent(d, run, moves, i);
    RunSound(d, run, moves, i);
    SentSpeaks(run, moves, i);
    var c, t := SentCall(run, moves, i), run[i].tasks[moves[i].id];
    var domain :| domain in d(c.Sender()) && (domain, c.Sender()) in run[i].contacts;
    assert run[i] in run && Served(d, t.gate, t.events) && TaskSound(d, run[i], t);
    assert Collide(c.Sender(), c.Sender());
  }

  // ---- When contact before content fails ----

  /** A service that has just been set up: gates may be bound, and that is all. */
  ghost predicate Fresh(s: Sys) {
    s.tasks == map[] && s.cache == map[] && s.known == {} && s.contacts == {}
  }

  ghost predicate OrderlyRun(d: Domains, run: seq<Sys>, moves: seq<Move>) {
    IsRun(run, moves) && forall s <- run :: Orderly(d, s)
  }

  /** Whatever the run sends is for a sender with a contact. */
  ghost predicate SendersKnown(d: Domains, run: seq<Sys>, moves: seq<Move>)
    requires IsRun(run, moves)
  {
    forall i: nat :: i < |moves| && Sends(run, moves, i) ==> HasContact(d, run[i], SentCall(run, moves, i).Sender())
  }

  /** Whatever the run sends is for a sender with a contact in the domain of the send. */
  ghost predicate SendersKnownThere(run: seq<Sys>, moves: seq<Move>)
    requires IsRun(run, moves)
  {
    forall i: nat :: i < |moves| && Sends(run, moves, i) ==>
      var c := SentCall(run, moves, i); (c.domain, c.Sender()) in run[i].contacts
  }

  lemma {:induction false} JoinRuns(run: seq<Sys>, moves: seq<Move>, more: seq<Sys>, later: seq<Move>)
    requires IsRun(run, moves) && IsRun(more, later) && run[|moves|] == more[0]
    ensures IsRun(run + more[1..], moves + later)
  {
    var joined, all := run + more[1..], moves + later;
    forall i | 0 <= i < |all|
      ensures Enabled(joined[i], all[i].id, all[i].action)
      ensures joined[i + 1] == Apply(joined[i], all[i].id, all[i].action)
    {
      if i < |moves| {
        assert joined[i] == run[i] && joined[i + 1] == run[i + 1];
      } else {
        assert joined[i] == more[i - |moves|] && joined[i + 1] == more[i + 1 - |moves|];
      }
    }
  }

  /** An enabled gate of domain `domain`, and a postback of `psid`. */
  function BoundGate(domain: int): Gate {
    Gate("g", domain, Peer("bot", "facebook", None), true)
  }

  function PostbackOf(psid: string): Messaging {
    Messaging(psid, None, Some(Postback("")))
  }

  function NoMedia(i: nat): MediaOutcome {
    MediaOutcome(0, None)
  }

  /** `s` with delivery `id` handling a postback through the gate of domain `x`. */
  function Handling(s: Sys, id: nat, x: int, psid: string, stage: Stage): Sys {
    s.(tasks := s.tasks[id := Running(BoundGate(x), [PostbackOf(psid)], stage)])
  }

  /** Delivery `id` brings a postback of `u` to page `page` and is about to ask whether the user
      is known: the states, and the actions between them. */
  function ArrivingStates(s: Sys, id: nat, page: string, x: int, u: ExternalUser): seq<Sys> {
    var entries := [Entry(page, [PostbackOf(u.id)])];
    var filled := s.(cache := s.cache[GateKey("/", page) := true]);
    [s,
     s.(tasks := s.tasks[id := Arrived("/", entries)]),
     s.(tasks := s.tasks[id := Missed("/", entries)]),
     s.(tasks := s.tasks[id := Found("/", entries, BoundGate(x))]),
     Handling(filled, id, x, u.id, Idle),
     Handling(filled, id, x, u.id, Fetching(false)),
     Handling(filled, id, x, u.id, Checking(false, u))]
  }

  function ArrivingActions(page: string, u: ExternalUser): seq<Action> {
    [Arrive("/", [Entry(page, [PostbackOf(u.id)])]), LookInCache, ReadStore(false), FillCache,
     TakeEvent, Fetch(Some(Profile(u.firstName, u.lastName)))]
  }

  /** Nothing stands in the way of the delivery. */
  predicate Open(s: Sys, id: nat, page: string, x: int) {
    && id !in s.tasks && GateKey("/", page) !in s.cache
    && ("/", page) in s.rows && s.rows[("/", page)] == BoundGate(x)
  }

  lemma {:induction false} ArrivingStep(s: Sys, id: nat, page: string, x: int, u: ExternalUser, i: nat)
    requires Open(s, id, page, x) && i < 3
    ensures var run := ArrivingStates(s, id, page, x, u);
      Enabled(run[i], id, ArrivingActions(page, u)[i]) && run[i + 1] == Apply(run[i], id, ArrivingActions(page, u)[i])
  {
    var run := ArrivingStates(s, id, page, x, u);
    assert run[i].tasks[id := run[i + 1].tasks[id]] == run[i + 1].tasks;
  }

  lemma {:induction false} FillingStep(s: Sys, id: nat, page: string, x: int, u: ExternalUser)
    requires Open(s, id, page, x)
    ensures var run := ArrivingStates(s, id, page, x, u);
      Enabled(run[3], id, FillCache) && run[4] == Apply(run[3], id, FillCache)
  {
    var run := ArrivingStates(s, id, page, x, u);
    var entries := [Entry(page, [PostbackOf(u.id)])];
    assert entries[..0] == [] && Events(entries) == [PostbackOf(u.id)];
    assert run[3].tasks[id := run[4].tasks[id]] == run[4].tasks;
  }

  lemma {:induction false} FetchingStep(s: Sys, id: nat, page: string, x: int, u: ExternalUser, i: nat)
    requires Open(s, id, page, x) && u.id != "" && 4 <= i < 6
    ensures var run := ArrivingStates(s, id, page, x, u);
      Enabled(run[i], id, ArrivingActions(page, u)[i]) && run[i + 1] == Apply(run[i], id, ArrivingActions(page, u)[i])
  {
    var run := ArrivingStates(s, id, page, x, u);
    assert run[i].tasks[id := run[i + 1].tasks[id]] == run[i + 1].tasks;
  }

  lemma {:induction false} ArrivingRun(s: Sys, id: nat, page: string, x: int, u: ExternalUser)
      returns (moves: seq<Move>)
    requires Open(s, id, page, x) && u.id != ""
    ensures IsRun(ArrivingStates(s, id, page, x, u), moves) && |moves| == 6
  {
    moves := seq(6, i requires 0 <= i < 6 => Move(id, ArrivingActions(page, u)[i]));
    var run := ArrivingStates(s, id, page, x, u);
    forall i | 0 <= i < 6
      ensures Enabled(run[i], id, ArrivingActions(page, u)[i])
          && run[i + 1] == Apply(run[i], id, ArrivingActions(page, u)[i])
    {
      if i < 3 {
        ArrivingStep(s, id, page, x, u, i);
      } else if i == 3 {
        FillingStep(s, id, page, x, u);
      } else {
        FetchingStep(s, id, page, x, u, i);
      }
    }
  }

  lemma {:induction false} ArrivingOrderly(d: Domains, s: Sys, id: nat, page: string, x: int, u: ExternalUser)
    requires Orderly(d, s) && x in d(u.id)
    ensures forall t <- ArrivingStates(s, id, page, x, u) :: Orderly(d, t)
  {
    var run := ArrivingStates(s, id, page, x, u);
    forall i | 0 <= i < 7
      ensures Orderly(d, run[i])
    {
      assert forall k <- run[i].tasks :: k != id ==> k in s.tasks && run[i].tasks[k] == s.tasks[k];
      if i >= 4 {
        assert run[i].tasks[id].gate == BoundGate(x) && run[i].tasks[id].events == [PostbackOf(u.id)];
      }
    }
  }

  /** A new user: the contact is created and marked, and the postback is about to be sent. */
  function MeetingStates(s: Sys, id: nat, x: int, u: ExternalUser): seq<Sys> {
    var created := s.(contacts := s.contacts + {(x, u.id)});
    [Handling(s, id, x, u.id, Checking(false, u)),
     Handling(s, id, x, u.id, Creating(false, u)),
     Handling(created, id, x, u.id, Marking(false, u)),
     Handling(created.(known := s.known + {Hash(u)}), id, x, u.id, Sending(TextCalls(BoundGate(x), u.id, "")))]
  }

  const MEETING_ACTIONS: seq<Action> := [Ask(false, NoMedia), Create(Created), Mark(true, NoMedia)]

  lemma {:induction false} MeetingStep(s: Sys, id: nat, x: int, u: ExternalUser, i: nat)
    requires Hash(u) !in s.known && i < 3
    ensures var run := MeetingStates(s, id, x, u);
      Enabled(run[i], id, MEETING_ACTIONS[i]) && run[i + 1] == Apply(run[i], id, MEETING_ACTIONS[i])
  {
    var run := MeetingStates(s, id, x, u);
    assert ContentCalls(BoundGate(x), PostbackOf(u.id), NoMedia) == TextCalls(BoundGate(x), u.id, "");
    assert run[i].tasks[id := run[i + 1].tasks[id]] == run[i + 1].tasks;
  }

  /** A user whose hash is known: the postback is sent at once. */
  function HitStates(s: Sys, id: nat, y: int, v: ExternalUser): seq<Sys> {
    [Handling(s, id, y, v.id, Checking(false, v)),
     Handling(s, id, y, v.id, Sending(TextCalls(BoundGate(y), v.id, ""))),
     Handling(s, id, y, v.id, Sending([]))]
  }

  lemma {:induction false} HitStep(s: Sys, id: nat, y: int, v: ExternalUser)
    requires Hash(v) in s.known
    ensures var run := HitStates(s, id, y, v);
      && Enabled(run[0], id, Ask(false, NoMedia)) && run[1] == Apply(run[0], id, Ask(false, NoMedia))
      && Enabled(run[1], id, Send) && run[2] == Apply(run[1], id, Send)
  {
    var run := HitStates(s, id, y, v);
    var call := TextCalls(BoundGate(y), v.id, "");
    assert ContentCalls(BoundGate(y), PostbackOf(v.id), NoMedia) == call && call[1..] == [];
    assert run[0].tasks[id := run[1].tasks[id]] == run[1].tasks;
    assert run[1].tasks[id := run[2].tasks[id]] == run[2].tasks;
  }

  /** Delivery 0 brings a postback of a user nobody knows. */
  lemma {:induction false} MeetRun(d: Domains, s: Sys, x: int, u: ExternalUser)
      returns (run: seq<Sys>, moves: seq<Move>)
    requires Open(s, 0, "p", x) && u.id != "" && Hash(u) !in s.known && Orderly(d, s) && x in d(u.id)
    ensures OrderlyRun(d, run, moves) && |moves| == 9 && run[0] == s
    ensures run[9] == Handling(s.(cache := s.cache[GateKey("/", "p") := true], known := s.known + {Hash(u)},
                                  contacts := s.contacts + {(x, u.id)}),
                               0, x, u.id, Sending(TextCalls(BoundGate(x), u.id, "")))
  {
    var filled := s.(cache := s.cache[GateKey("/", "p") := true]);
    var arriving, meeting := ArrivingStates(s, 0, "p", x, u), MeetingStates(filled, 0, x, u);
    var first := ArrivingRun(s, 0, "p", x, u);
    var later := seq(3, i requires 0 <= i < 3 => Move(0, MEETING_ACTIONS[i]));
    forall i | 0 <= i < 3
      ensures Enabled(meeting[i], 0, MEETING_ACTIONS[i]) && meeting[i + 1] == Apply(meeting[i], 0, MEETING_ACTIONS[i])
    {
      MeetingStep(filled, 0, x, u, i);
    }
    JoinRuns(arriving, first, meeting, later);
    run, moves := arriving + meeting[1..], first + later;
    ArrivingOrderly(d, s, 0, "p", x, u);
    forall t <- meeting
      ensures Orderly(d, t)
    {
      HandlingOrderly(d, s, t, 0, x, u.id);
    }
  }

  lemma {:induction false} HandlingOrderly(d: Domains, s: Sys, t: Sys, id: nat, x: int, psid: string)
    requires Orderly(d, s) && x in d(psid) && id in t.tasks
    requires forall k <- t.tasks :: k == id || (k in s.tasks && t.tasks[k] == s.tasks[k])
    requires t.tasks[id].Running? && t.tasks[id].gate == BoundGate(x) && t.tasks[id].events == [PostbackOf(psid)]
    ensures Orderly(d, t)
  {
  }

  /** Delivery 1 then brings a postback of a user whose hash is known. */
  lemma {:induction false} HitRun(d: Domains, s: Sys, y: int, v: ExternalUser) returns (run: seq<Sys>, moves: seq<Move>)
    requires Open(s, 1, "q", y) && v.id != "" && Hash(v) in s.known && Orderly(d, s) && y in d(v.id)
    ensures OrderlyRun(d, run, moves) && |moves| == 8 && run[0] == s
    ensures Sends(run, moves, 7) && run[7].contacts == s.contacts
    ensures SentCall(run, moves, 7).domain == y && SentCall(run, moves, 7).Sender() == v.id
  {
    var filled := s.(cache := s.cache[GateKey("/", "q") := true]);
    var arriving, hit := ArrivingStates(s, 1, "q", y, v), HitStates(filled, 1, y, v);
    var first := ArrivingRun(s, 1, "q", y, v);
    var later := [Move(1, Ask(false, NoMedia)), Move(1, Send)];
    HitStep(filled, 1, y, v);
    assert IsRun(hit, later);
    JoinRuns(arriving, first, hit, later);
    run, moves := arriving + hit[1..], first + later;
    assert run[7] == hit[1] && moves[7] == later[1];
    ArrivingOrderly(d, s, 1, "q", y, v);
    forall t <- hit
      ensures Orderly(d, t)
    {
      HandlingOrderly(d, s, t, 1, y, v.id);
    }
  }

  /** Senders that collide, or two domains for one sender, break it: in a service that has just
      been set up, a postback of `a` through domain `x` and one of `b` through domain `y` suffice
      to send for `b` with no contact but `(x, a)`. */
  lemma {:induction false} HitElsewhere(d: Domains, a: string, b: string, x: int, y: int)
      returns (run: seq<Sys>, moves: seq<Move>, i: nat)
    requires a != "" && b != "" && Collide(a, b) && x in d(a) && y in d(b)
    ensures OrderlyRun(d, run, moves) && Fresh(run[0])
    ensures i < |moves| && Sends(run, moves, i) && run[i].contacts == {(x, a)}
    ensures SentCall(run, moves, i).domain == y && SentCall(run, moves, i).Sender() == b
  {
    SharedHash(a, b);
    var u: ExternalUser, v: ExternalUser :| u.id == a && v.id == b && Hash(u) == Hash(v);
    var s := Sys(map[("/", "p") := BoundGate(x), ("/", "q") := BoundGate(y)], map[], {}, {}, map[]);
    var meeting, first := MeetRun(d, s, x, u);
    assert GateKey("/", "p") != GateKey("/", "q") by {
      assert GateKey("/", "p")[2] == 'p' && GateKey("/", "q")[2] == 'q';
    }
    assert meeting[9] in meeting;
    var hit, later := HitRun(d, meeting[9], y, v);
    JoinRuns(meeting, first, hit, later);
    run, moves, i := meeting + hit[1..], first + later, 16;
    assert run[16] == hit[7] && moves[16] == later[7];
  }

  lemma {:induction false} FreshStarts(d: Domains, s: Sys)
    requires Fresh(s)
    ensures Starts(d, s)
  {
  }

  /** Senders have contacts, in every run through serving domains that starts justified, or just
      in every one that starts fresh, exactly when no two served senders collide. */
  lemma {:induction false} ContactExactly(d: Domains)
    ensures (forall run: seq<Sys>, moves: seq<Move> ::
               OrderlyRun(d, run, moves) && Starts(d, run[0]) ==> SendersKnown(d, run, moves)) <==> Distinct(d)
    ensures (forall run: seq<Sys>, moves: seq<Move> ::
               OrderlyRun(d, run, moves) && Fresh(run[0]) ==> SendersKnown(d, run, moves)) <==> Distinct(d)
  {
    if Distinct(d) {
      forall run: seq<Sys>, moves: seq<Move> | OrderlyRun(d, run, moves) && (Starts(d, run[0]) || Fresh(run[0]))
        ensures SendersKnown(d, run, moves)
      {
        forall i: nat | i < |moves| && Sends(run, moves, i)
          ensures HasContact(d, run[i], SentCall(run, moves, i).Sender())
        {
          ContactBeforeContent(d, run, moves, i);
        }
      }
    } else {
      var a, b, x, y :| a != "" && b != "" && Collide(a, b) && x in d(a) && y in d(b) && a != b;
      var run, moves, i := HitElsewhere(d, a, b, x, y);
      FreshStarts(d, run[0]);
      assert !HasContact(d, run[i], SentCall(run, moves, i).Sender());
      assert !SendersKnown(d, run, moves);
    }
  }

  /** And the contact is in the domain of the send exactly when, moreover, no sender is
      served by two domains. */
  lemma {:induction false} ContactInDomainExactly(d: Domains)
    ensures (forall run: seq<Sys>, moves: seq<Move> ::
               OrderlyRun(d, run, moves) && Starts(d, run[0]) ==> SendersKnownThere(run, moves)) <==> Settled(d)
    ensures (forall run: seq<Sys>, moves: seq<Move> ::
               OrderlyRun(d, run, moves) && Fresh(run[0]) ==> SendersKnownThere(run, moves)) <==> Settled(d)
  {
    if Settled(d) {
      forall run: seq<Sys>, moves: seq<Move> | OrderlyRun(d, run, moves) && (Starts(d, run[0]) || Fresh(run[0]))
        ensures SendersKnownThere(run, moves)
      {
        forall i: nat | i < |moves| && Sends(run, moves, i)
          ensures (SentCall(run, moves, i).domain, SentCall(run, moves, i).Sender()) in run[i].contacts
        {
          ContactInDomain(d, run, moves, i);
        }
      }
    } else {
      var a, b, x, y :| a != "" && b != "" && Collide(a, b) && x in d(a) && y in d(b) && !(a == b && x == y);
      var run, moves, i := HitElsewhere(d, a, b, x, y);
      FreshStarts(d, run[0]);
      assert (y, b) !in run[i].contacts;
      assert !SendersKnownThere(run, moves);
    }
  }

  // ---- Gate cache safety ----

  /** At step `j`, delivery `id` read `gate` from the store. */
  predicate Reads(run: seq<Sys>, moves: seq<Move>, j: nat, id: nat, gate: Gate)
    requires IsRun(run, moves)
  {
    && j < |moves| && moves[j] == Move(id, ReadStore(false))
    && run[j].rows[(run[j].tasks[id].uri, PageOf(run[j].tasks[id].entries))] == gate
  }

  /** A disabled row with this cache key is in the store. */
  ghost predicate StoredDisabled(s: Sys, key: string) {
    exists row <- s.rows :: GateKey(row.0, row.1) == key && !s.rows[row].enabled
  }

  /** The gate a delivery goes by is one it read itself, and enabled once events are handled. */
  ghost predicate GateRead(run: seq<Sys>, moves: seq<Move>, i: nat, id: nat, t: Task)
    requires IsRun(run, moves) && i < |run|
  {
    match t
    case Found(uri, entries, gate) =>
      exists j :: 0 <= j < i && Reads(run, moves, j, id, gate) && run[j].tasks[id] == Missed(uri, entries)
    case Running(gate, _, _) => gate.enabled && exists j :: 0 <= j < i && Reads(run, moves, j, id, gate)
    case _ => true
  }

  ghost predicate CacheRead(run: seq<Sys>, i: nat, key: string)
    requires i < |run|
  {
    key in run[i].cache && !run[i].cache[key] ==> exists j :: 0 <= j < i && StoredDisabled(run[j], key)
  }

  /** A step leaves a delivery's gate alone, but for the store read that finds it. */
  lemma {:induction false} GateKept(s: Sys, mover: nat, a: Action, id: nat)
    requires Enabled(s, mover, a) && id in Apply(s, mover, a).tasks
    ensures var t := Apply(s, mover, a).tasks[id];
      || (!t.Found? && !t.Running?)
      || (id in s.tasks && (t == s.tasks[id] || (t.Running? && s.tasks[id].Running? && t.gate == s.tasks[id].gate)))
      || (id in s.tasks && t.Running? && s.tasks[id].Found? && t.gate == s.tasks[id].gate && t.gate.enabled)
      || (a == ReadStore(false) && mover == id && s.tasks[id].Missed?
          && (s.tasks[id].uri, PageOf(s.tasks[id].entries)) in s.rows
          && t == Found(s.tasks[id].uri, s.tasks[id].entries, s.rows[(s.tasks[id].uri, PageOf(s.tasks[id].entries))]))
  {
  }

  lemma {:induction false} RunGateRead(run: seq<Sys>, moves: seq<Move>, i: nat, id: nat)
    requires IsRun(run, moves) && i < |run| && run[0].tasks == map[]
    requires id in run[i].tasks
    ensures GateRead(run, moves, i, id, run[i].tasks[id])
  {
    assert i > 0;
    var s, move, t := run[i - 1], moves[i - 1], run[i].tasks[id];
    GateKept(s, move.id, move.action, id);
    if !t.Found? && !t.Running? {
    } else if id in s.tasks && (s.tasks[id].Found? || s.tasks[id].Running?) {
      RunGateRead(run, moves, i - 1, id);
    } else {
      assert Reads(run, moves, i - 1, id, t.gate);
    }
  }

  lemma {:induction false} RunCacheRead(run: seq<Sys>, moves: seq<Move>, i: nat, key: string)
    requires IsRun(run, moves) && i < |run| && run[0].tasks == map[] && run[0].cache == map[]
    ensures CacheRead(run, i, key)
  {
    if i > 0 {
      RunCacheRead(run, moves, i - 1, key);
      var s, move := run[i - 1], moves[i - 1];
      if move.action.FillCache? && !s.tasks[move.id].gate.enabled {
        FoundDisabled(run, moves, i - 1, move.id);
      }
    }
  }

  /** A disabled gate that is about to be cached was disabled in the store when it was read. */
  lemma {:induction false} FoundDisabled(run: seq<Sys>, moves: seq<Move>, i: nat, id: nat)
    requires IsRun(run, moves) && i < |run| && run[0].tasks == map[]
    requires id in run[i].tasks && run[i].tasks[id].Found? && !run[i].tasks[id].gate.enabled
    ensures exists j ::
              0 <= j < i && StoredDisabled(run[j], GateKey(run[i].tasks[id].uri, PageOf(run[i].tasks[id].entries)))
  {
    RunGateRead(run, moves, i, id);
    var t := run[i].tasks[id];
    var j :| 0 <= j < i && Reads(run, moves, j, id, t.gate) && run[j].tasks[id] == Missed(t.uri, t.entries);
    var row := (t.uri, PageOf(t.entries));
    assert row in run[j].rows && GateKey(row.0, row.1) == GateKey(t.uri, PageOf(t.entries));
    assert StoredDisabled(run[j], GateKey(t.uri, PageOf(t.entries)));
  }

  /** In every run, a delivery that attempts a send read an enabled row at its own store
      lookup, and sends in the domain and to the bot of that row. */
  lemma {:induction false} SendsReadEnabled(run: seq<Sys>, moves: seq<Move>, i: nat)
    requires IsRun(run, moves) && run[0].tasks == map[] && i < |moves| && Sends(run, moves, i)
    ensures exists j, gate :: 0 <= j < i && Reads(run, moves, j, moves[i].id, gate) && gate.enabled
                              && Speaks(SentCall(run, moves, i), gate, SentCall(run, moves, i).Sender())
  {
    RunGateRead(run, moves, i, moves[i].id);
    SentSpeaks(run, moves, i);
  }

  /** In every run, a disabled entry of the gate cache was copied from a row that was disabled
      at an earlier step; so a delivery is cut short by the cache only for such a gate. */
  lemma CachedDisabled(run: seq<Sys>, moves: seq<Move>, i: nat, key: string)
    requires IsRun(run, moves) && i < |run| && run[0].tasks == map[] && run[0].cache == map[]
    requires key in run[i].cache && !run[i].cache[key]
    ensures exists j :: 0 <= j < i && StoredDisabled(run[j], key)
  {
    RunCacheRead(run, moves, i, key);
  }

  /** Where no stored page id ends the delivery's own after a colon, nor the other way round,
      the disabled row is the row of the delivery itself. */
  lemma {:induction false} ShortCircuitJustified(run: seq<Sys>, moves: seq<Move>, i: nat)
    requires IsRun(run, moves) && i < |moves| && run[0].tasks == map[] && run[0].cache == map[]
    requires moves[i].action.LookInCache? && run[i + 1].tasks[moves[i].id].Finished?
    requires var page := PageOf(run[i].tasks[moves[i].id].entries);
      forall s <- run, row <- s.rows :: !Ends(row.1, page) && !Ends(page, row.1)
    ensures var row := (run[i].tasks[moves[i].id].uri, PageOf(run[i].tasks[moves[i].id].entries));
      exists j :: 0 <= j < i && row in run[j].rows && !run[j].rows[row].enabled
  {
    var t := run[i].tasks[moves[i].id];
    var key := GateKey(t.uri, PageOf(t.entries));
    CachedDisabled(run, moves, i, key);
    var j :| 0 <= j < i && StoredDisabled(run[j], key);
    var row :| row in run[j].rows && GateKey(row.0, row.1) == key && !run[j].rows[row].enabled;
    assert run[j] in run;
    GateKeyInjective(row.0, row.1, t.uri, PageOf(t.entries));
    assert row == (t.uri, PageOf(t.entries));
  }
}
