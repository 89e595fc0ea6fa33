/** The inbound pipeline of internal/facebook/webhook.go, user.go, media.go and provider.go,
    for one delivery: resolve the gate, flatten the events, and for each event fetch the
    profile, synchronise the contact and route the content. */
module Webhook {
  import opened Facebook
  import opened Options
  import opened Identity

  // ---- Contact synchronisation ----

  /** The known-user cache (of hashes) and the contacts the gateway holds, by domain and id. */
  datatype Directory = Directory(known: set<string>, contacts: set<(int, string)>)

  datatype Synced = Synced(directory: Directory, ok: bool)

  function User(psid: string, p: Profile): ExternalUser {
    ExternalUser(psid, p.firstName, p.lastName)
  }

  /** Fetching the profile and synchronising the contact. */
  function Sync(d: Directory, gate: Gate, psid: string, o: SyncOutcome): Synced {
    match o.profile
    case None => Synced(d, false)
    case Some(p) =>
      var hash := Hash(User(psid, p));
      if !o.cacheDown && hash in d.known then Synced(d, true)
      else if o.creation.CreateFailed? then Synced(d, false)
      else Synced(Directory(if o.marked then d.known + {hash} else d.known, d.contacts + {(gate.domain, psid)}), true)
  }

  // ---- One event ----

  /** An event is synchronised once, and a second time when it carries a message. */
  function SyncEvent(d: Directory, gate: Gate, ev: Messaging, o: EventOutcome): Synced {
    if ev.Ignored() then Synced(d, false)
    else
      var once := Sync(d, gate, ev.sender, o.first);
      if !once.ok || ev.message.None? then once
      else Sync(once.directory, gate, ev.sender, o.second)
  }

  /** The sends of one event: all its content or, when it is dropped, nothing. */
  function EventCalls(d: Directory, gate: Gate, ev: Messaging, o: EventOutcome): seq<Call> {
    if SyncEvent(d, gate, ev, o).ok then ContentCalls(gate, ev, o.media) else []
  }

  /** An event without sender, one with neither message nor postback, and an echo of a message of
      the page itself send nothing and leave the directory as it is, whatever the outside says. */
  lemma {:induction false} PassedOver(d: Directory, gate: Gate, ev: Messaging, o: EventOutcome)
    requires || ev.sender == ""
             || (ev.message == None && ev.postback == None)
             || (ev.message.Some? && ev.message.value.isEcho)
    ensures EventCalls(d, gate, ev, o) == [] && SyncEvent(d, gate, ev, o).directory == d
  {
  }

  /** The user is known, if the cache answers, or the contact is created or exists already. */
  predicate Succeeds(d: Directory, psid: string, o: SyncOutcome) {
    && o.profile.Some?
    && (|| (!o.cacheDown && Hash(ExternalUser(psid, o.profile.value.firstName, o.profile.value.lastName)) in d.known)
        || o.creation == Created || o.creation == AlreadyExists)
  }

  /** Every other event sends all its content exactly when its synchronisation succeeds, and for
      a message a second one after it; else it sends nothing. */
  lemma {:induction false} NotPassedOver(d: Directory, gate: Gate, ev: Messaging, o: EventOutcome)
    requires ev.sender != "" && (ev.message.Some? || ev.postback.Some?)
    requires ev.message.Some? ==> !ev.message.value.isEcho
    ensures var second := Sync(d, gate, ev.sender, o.first).directory;
      EventCalls(d, gate, ev, o) ==
      if Succeeds(d, ev.sender, o.first) && (ev.message.Some? ==> Succeeds(second, ev.sender, o.second))
      then ContentCalls(gate, ev, o.media) else []
  {
  }

  // ---- A batch ----

  /** The directory before event `n`. */
  function Before(d: Directory, gate: Gate, evs: seq<Messaging>, os: nat -> EventOutcome, n: nat): Directory
    requires n <= |evs|
  {
    if n == 0 then d
    else SyncEvent(Before(d, gate, evs, os, n - 1), gate, evs[n - 1], os(n - 1)).directory
  }

  /** The sends of event `n` of the batch. */
  function Segment(d: Directory, gate: Gate, evs: seq<Messaging>, os: nat -> EventOutcome, n: nat): seq<Call>
    requires n < |evs|
  {
    EventCalls(Before(d, gate, evs, os, n), gate, evs[n], os(n))
  }

  /** The concatenation of the first `n` segments. */
  function BatchCalls(d: Directory, gate: Gate, evs: seq<Messaging>, os: nat -> EventOutcome, n: nat): seq<Call>
    requires n <= |evs|
  {
    if n == 0 then [] else BatchCalls(d, gate, evs, os, n - 1) + Segment(d, gate, evs, os, n - 1)
  }

  lemma {:induction false} BatchStep(d: Directory, gate: Gate, evs: seq<Messaging>, os: nat -> EventOutcome, n: nat,
                                     sent: seq<Call>)
    requires n < |evs|
    ensures Before(d, gate, evs, os, n + 1) == SyncEvent(Before(d, gate, evs, os, n), gate, evs[n], os(n)).directory
    ensures sent + BatchCalls(d, gate, evs, os, n + 1)
         == sent + BatchCalls(d, gate, evs, os, n) + EventCalls(Before(d, gate, evs, os, n), gate, evs[n], os(n))
  {
  }

  // ---- The provider ----

  datatype GateState = GateState(gateId: string, enabled: bool, issuer: string, sub: string, domain: int)

  datatype Error = NotFound | StoreFailed

  datatype Lookup = Row(gate: Gate) | Failed(error: Error)

  function StateOf(g: Gate): GateState {
    GateState(g.id, g.enabled, g.peer.iss, g.peer.sub, g.domain)
  }

  /** The cache short-circuits a gate only when it holds it as disabled. */
  predicate ShortCircuits(cache: map<string, GateState>, key: string) {
    key in cache && !cache[key].enabled
  }

  /** The cache after a gate was resolved: a row that was read replaces the cached entry. */
  function CacheAfter(cache: map<string, GateState>, key: string, row: Lookup, evicted: set<string>)
      : map<string, GateState> {
    if ShortCircuits(cache, key) || row.Failed? then cache else cache[key := StateOf(row.gate)] - evicted
  }

  /** The cached state of a gate, field by field. */
  lemma {:induction false} CachedState(cache: map<string, GateState>, key: string, gate: Gate)
    requires key !in cache || cache[key].enabled
    ensures var after := CacheAfter(cache, key, Row(gate), {});
      && key in after && after.Keys == cache.Keys + {key}
      && after[key].gateId == gate.id && after[key].enabled == gate.enabled && after[key].domain == gate.domain
      && after[key].issuer == gate.peer.iss && after[key].sub == gate.peer.sub
      && forall k <- cache :: k != key ==> after[k] == cache[k]
  {
  }

  class FacebookProvider {
    var gateCache: map<string, GateState>
    var directory: Directory
    var sent: seq<Call>          // every send attempted at the messenger, in order

    /** Reads the gate through the cache. `row` is the store's answer, if it is asked;
        `evicted` are the keys the cache drops to make room. */
    method ResolveGate(uri: string, pageId: string, row: Lookup, evicted: set<string>) returns (r: Lookup)
      modifies this`gateCache
      ensures if ShortCircuits(old(gateCache), GateKey(uri, pageId)) then r.Row? && !r.gate.enabled else r == row
      ensures gateCache == CacheAfter(old(gateCache), GateKey(uri, pageId), row, evicted)
    {
      var k := GateKey(uri, pageId);
      if k in gateCache && !gateCache[k].enabled {
        return Row(Gate("", 0, Peer("", "", None), false));
      }
      if row.Failed? {
        return row;
      }
      gateCache := gateCache[k := StateOf(row.gate)] - evicted;
      return row;
    }

    method EnsureContact(gate: Gate, user: ExternalUser, creation: Creation) returns (ok: bool)
      modifies this`directory
      ensures ok == !creation.CreateFailed?
      ensures directory.known == old(directory).known
      ensures directory.contacts == if ok then old(directory).contacts + {(gate.domain, user.id)}
          else old(directory).contacts
    {
      if creation.CreateFailed? {
        return false;
      }
      directory := directory.(contacts := directory.contacts + {(gate.domain, user.id)});
      return true;
    }

    method SyncContact(gate: Gate, psid: string, profile: Profile, o: SyncOutcome) returns (ok: bool)
      requires o.profile == Some(profile)
      modifies this`directory
      ensures Synced(directory, ok) == Sync(old(directory), gate, psid, o)
    {
      var user := User(psid, profile);
      var known := !o.cacheDown && Hash(user) in directory.known;
      if known {
        return true;
      }
      ok := EnsureContact(gate, user, o.creation);
      if !ok {
        return;
      }
      if o.marked {
        directory := directory.(known := directory.known + {Hash(user)});
      }
    }

    method HandleAttachments(gate: Gate, psid: string, attachments: seq<Attachment>, media: nat -> MediaOutcome)
      modifies this`sent
      ensures sent == old(sent) + AllAttachmentCalls(gate, psid, attachments, media)
    {
      for i := 0 to |attachments|
        invariant sent == old(sent) + AllAttachmentCalls(gate, psid, attachments[..i], media)
      {
        var attach := attachments[i];
        assert attachments[..i + 1][..i] == attachments[..i];
        if attach.url == "" {
          continue;
        }
        var name := FileName(attach, media(i).now);
        if media(i).uploaded.None? {
          continue;
        }
        var m := media(i).uploaded.value;
        if m.size <= 0 {
          m := m.(size := 1);
        }
        if attach.kind == "image" {
          sent := sent + [SendImage(gate.domain, FromPeer(gate, psid), ToPeer(gate), m.id, name, m.mimeType)];
        } else if attach.kind == "video" || attach.kind == "audio" || attach.kind == "file" {
          sent := sent + [SendDocument(gate.domain, FromPeer(gate, psid), ToPeer(gate), m.id, name, m.mimeType,
            m.size)];
        }
      }
      assert attachments[..|attachments|] == attachments;
    }

    method RouteMessage(gate: Gate, psid: string, m: InboundMessage, media: nat -> MediaOutcome)
      modifies this`sent
      ensures sent == old(sent) + MessageCalls(gate, psid, m, media)
    {
      if m.text != "" {
        sent := sent + [SendText(gate.domain, FromPeer(gate, psid), ToPeer(gate), m.text)];
      }
      if |m.attachments| > 0 {
        HandleAttachments(gate, psid, m.attachments, media);
      }
    }

    method RoutePostback(gate: Gate, psid: string, pb: Postback)
      modifies this`sent
      ensures sent == old(sent) + TextCalls(gate, psid, pb.payload)
    {
      sent := sent + [SendText(gate.domain, FromPeer(gate, psid), ToPeer(gate), pb.payload)];
    }

    /** One event. `dropped` is the error the caller logs. */
    method ProcessMessage(gate: Gate, ev: Messaging, o: EventOutcome) returns (dropped: bool)
      modifies this`directory, this`sent
      ensures directory == SyncEvent(old(directory), gate, ev, o).directory
      ensures sent == old(sent) + EventCalls(old(directory), gate, ev, o)
      ensures dropped <==> !ev.Ignored() && !SyncEvent(old(directory), gate, ev, o).ok
    {
      var psid := ev.sender;
      if psid == "" {
        return false;
      }
      if ev.message.None? && ev.postback.None? {
        return false;
      }
      if ev.message.Some? && ev.message.value.isEcho {
        return false;
      }
      if o.first.profile.None? {
        return true;
      }
      var ok := SyncContact(gate, psid, o.first.profile.value, o.first);
      if !ok {
        return true;
      }
      if ev.message.Some? {
        if o.second.profile.None? {
          return true;
        }
        ok := SyncContact(gate, psid, o.second.profile.value, o.second);
        if !ok {
          return true;
        }
      }
      if ev.message.Some? {
        RouteMessage(gate, psid, ev.message.value, o.media);
      }
      if ev.postback.Some? {
        RoutePostback(gate, psid, ev.postback.value);
      }
      return false;
    }

    /** One delivery. `entries` is None when the payload does not parse. */
    method HandleWebhook(path: string, entries: Option<seq<Entry>>, row: Lookup, evicted: set<string>,
                         os: nat -> EventOutcome)
        returns (error: Option<Error>)
      modifies this
      ensures Rejected(old(gateCache), path, entries, row) ==> sent == old(sent) && directory == old(directory)
      ensures !Rejected(old(gateCache), path, entries, row) ==>
                var evs := Events(entries.value);
                && sent == old(sent) + BatchCalls(old(directory), row.gate, evs, os, |evs|)
                && directory == Before(old(directory), row.gate, evs, os, |evs|)
      ensures gateCache == if entries.None? || entries.value == [] then old(gateCache)
                           else CacheAfter(old(gateCache), PageKey(path, entries.value), row, evicted)
      ensures error.Some? <==>
                && entries.Some? && entries.value != []
                && !ShortCircuits(old(gateCache), PageKey(path, entries.value))
                && row.Failed?
    {
      if entries.None? || |entries.value| == 0 {
        return None;
      }
      var resolved := ResolveGate(WebhookUri(path), entries.value[0].id, row, evicted);
      if resolved.Failed? {
        return Some(resolved.error);
      }
      var gate := resolved.gate;
      if !gate.enabled {
        return None;
      }
      var evs := AllMessages(entries.value);
      ProcessAll(gate, evs, os);
      return None;
    }

    /** The event loop of a delivery: an event that is dropped is only logged. */
    method ProcessAll(gate: Gate, evs: seq<Messaging>, os: nat -> EventOutcome)
      modifies this`directory, this`sent
      ensures sent == old(sent) + BatchCalls(old(directory), gate, evs, os, |evs|)
      ensures directory == Before(old(directory), gate, evs, os, |evs|)
    {
      ghost var d, s := directory, sent;
      for i := 0 to |evs|
        invariant sent == s + BatchCalls(d, gate, evs, os, i)
        invariant directory == Before(d, gate, evs, os, i)
      {
        var _ := ProcessMessage(gate, evs[i], os(i));
        BatchStep(d, gate, evs, os, i, s);
      }
    }
  }

  /** The gate of a delivery is picked by the page of its first entry. */
  function PageKey(path: string, entries: seq<Entry>): string
    requires entries != []
  {
    GateKey(WebhookUri(path), entries[0].id)
  }

  /** No event of the delivery is looked at. */
  predicate Rejected(cache: map<string, GateState>, path: string, entries: Option<seq<Entry>>, row: Lookup) {
    || entries.None? || entries.value == []
    || ShortCircuits(cache, PageKey(path, entries.value))
    || row.Failed? || !row.gate.enabled
  }

  // ---- One failure does not disturb another event ----

  /** The two caches agree on every user with one of these ids. */
  ghost predicate AgreeOn(a: set<string>, b: set<string>, ids: set<string>) {
    forall u: ExternalUser :: u.id in ids ==> (Hash(u) in a <==> Hash(u) in b)
  }

  /** Synchronising `psid` leaves the cache as it was for ids that `psid` does not collide with. */
  lemma {:induction false} SyncOwn(d: Directory, gate: Gate, psid: string, o: SyncOutcome, ids: set<string>)
    requires forall x <- ids :: !Collide(x, psid)
    ensures AgreeOn(d.known, Sync(d, gate, psid, o).directory.known, ids)
  {
    if o.profile.Some? {
      forall u: ExternalUser | u.id in ids
        ensures Hash(u) != Hash(User(psid, o.profile.value))
      {
        if Hash(u) == Hash(User(psid, o.profile.value)) {
          HashCollides(u, User(psid, o.profile.value));
        }
      }
    }
  }

  lemma {:induction false} SyncAgrees(a: Directory, b: Directory, gate: Gate, psid: string, o: SyncOutcome,
                                      ids: set<string>)
    requires psid in ids && AgreeOn(a.known, b.known, ids)
    ensures Sync(a, gate, psid, o).ok == Sync(b, gate, psid, o).ok
    ensures AgreeOn(Sync(a, gate, psid, o).directory.known, Sync(b, gate, psid, o).directory.known, ids)
  {
  }

  lemma {:induction false} EventOwn(d: Directory, gate: Gate, ev: Messaging, o: EventOutcome, ids: set<string>)
    requires ev.Ignored() || forall x <- ids :: !Collide(x, ev.sender)
    ensures AgreeOn(d.known, SyncEvent(d, gate, ev, o).directory.known, ids)
  {
    if !ev.Ignored() {
      SyncOwn(d, gate, ev.sender, o.first, ids);
      SyncOwn(Sync(d, gate, ev.sender, o.first).directory, gate, ev.sender, o.second, ids);
    }
  }

  lemma {:induction false} EventAgrees(a: Directory, b: Directory, gate: Gate, ev: Messaging, o: EventOutcome,
                                       ids: set<string>)
    requires ev.Ignored() || ev.sender in ids
    requires AgreeOn(a.known, b.known, ids)
    ensures AgreeOn(SyncEvent(a, gate, ev, o).directory.known, SyncEvent(b, gate, ev, o).directory.known, ids)
    ensures EventCalls(a, gate, ev, o) == EventCalls(b, gate, ev, o)
  {
    if !ev.Ignored() {
      SyncAgrees(a, b, gate, ev.sender, o.first, ids);
      var c, e := Sync(a, gate, ev.sender, o.first).directory, Sync(b, gate, ev.sender, o.first).directory;
      SyncAgrees(c, e, gate, ev.sender, o.second, ids);
    }
  }

  /** Who is synchronised in a batch. */
  function Senders(evs: seq<Messaging>): set<string> {
    set ev <- evs | !ev.Ignored() :: ev.sender
  }

  /** The senders that a failure can reach from `touched` are in `touched` themselves: no other
      sender of the batch collides with one of them. */
  predicate ClosedUnder(evs: seq<Messaging>, touched: set<string>) {
    forall x, y :: x in Senders(evs) - touched && y in touched ==> !Collide(x, y)
  }

  lemma {:induction false} BatchAgrees(d: Directory, gate: Gate, evs: seq<Messaging>, os: nat -> EventOutcome,
                                       ps: nat -> EventOutcome, i: nat, n: nat, touched: set<string>)
    requires i < |evs| && n <= |evs| && ClosedUnder(evs, touched) && (evs[i].Ignored() || evs[i].sender in touched)
    requires forall k: nat :: k != i ==> os(k) == ps(k)
    ensures AgreeOn(Before(d, gate, evs, os, n).known, Before(d, gate, evs, ps, n).known, Senders(evs) - touched)
    ensures n <= i ==> Before(d, gate, evs, os, n) == Before(d, gate, evs, ps, n)
  {
    if n > 0 {
      BatchAgrees(d, gate, evs, os, ps, i, n - 1, touched);
      var ids, ev := Senders(evs) - touched, evs[n - 1];
      var a, b := Before(d, gate, evs, os, n - 1), Before(d, gate, evs, ps, n - 1);
      assert ev in evs;
      if ev.Ignored() || ev.sender in touched {
        EventOwn(a, gate, ev, os(n - 1), ids);
        EventOwn(b, gate, ev, ps(n - 1), ids);
      } else {
        EventAgrees(a, b, gate, ev, os(n - 1), ids);
      }
    }
  }

  /** Whatever happens to event `i`, the sends of event `j` are the same: always when `j` is
      earlier or its sender is out of reach, and otherwise when what `j` itself meets makes it
      independent of the cache. Where no two senders collide, only the sender of event `i` is
      in reach. */
  lemma {:induction false} Isolation(d: Directory, gate: Gate, evs: seq<Messaging>, os: nat -> EventOutcome,
                                     ps: nat -> EventOutcome, i: nat, j: nat, touched: set<string>)
    requires i < |evs| && j < |evs| && i != j
    requires ClosedUnder(evs, touched) && (evs[i].Ignored() || evs[i].sender in touched)
    requires forall k: nat :: k != i ==> os(k) == ps(k)
    requires j < i || evs[j].sender !in touched || Steady(gate, evs[j], os(j))
    ensures Segment(d, gate, evs, os, j) == Segment(d, gate, evs, ps, j)
  {
    BatchAgrees(d, gate, evs, os, ps, i, j, touched);
    var a, b := Before(d, gate, evs, os, j), Before(d, gate, evs, ps, j);
    assert evs[j] in evs;
    if j < i {
    } else if evs[j].sender !in touched {
      EventAgrees(a, b, gate, evs[j], os(j), Senders(evs) - touched);
    } else {
      SteadyCalls(a, b, gate, evs[j], os(j));
    }
  }

  // ---- When the cache matters ----

  /** Synchronising cannot succeed: neither the cache nor the gateway answers. */
  predicate Refused(o: SyncOutcome) {
    o.profile.None? || (o.creation.CreateFailed? && o.cacheDown)
  }

  /** Synchronising succeeds exactly for a known user. */
  predicate NeedsKnown(o: SyncOutcome) {
    o.profile.Some? && o.creation.CreateFailed? && !o.cacheDown
  }

  /** The first synchronisation marks the very user that the second asks for. */
  predicate MarksForSecond(psid: string, o: EventOutcome) {
    && !NeedsKnown(o.first) && o.first.marked && o.first.profile.Some? && o.second.profile.Some?
    && Hash(User(psid, o.first.profile.value)) == Hash(User(psid, o.second.profile.value))
  }

  /** The event sends nothing, whatever is known. */
  predicate Silent(gate: Gate, ev: Messaging, o: EventOutcome) {
    || ev.Ignored() || ContentCalls(gate, ev, o.media) == []
    || Refused(o.first) || (ev.message.Some? && Refused(o.second))
  }

  /** The hashes that have to be known beforehand. */
  function Needed(ev: Messaging, o: EventOutcome): set<string> {
    (if NeedsKnown(o.first) then {Hash(User(ev.sender, o.first.profile.value))} else {})
    + (if ev.message.Some? && NeedsKnown(o.second) && !MarksForSecond(ev.sender, o)
       then {Hash(User(ev.sender, o.second.profile.value))} else {})
  }

  /** What the event meets decides its sends, whatever is known beforehand. */
  predicate Steady(gate: Gate, ev: Messaging, o: EventOutcome) {
    Silent(gate, ev, o) || Needed(ev, o) == {}
  }

  /** An event that can send does so exactly when all it needs is known. */
  lemma {:induction false} NeededCalls(d: Directory, gate: Gate, ev: Messaging, o: EventOutcome)
    requires !Silent(gate, ev, o)
    ensures EventCalls(d, gate, ev, o) == if Needed(ev, o) <= d.known then ContentCalls(gate, ev, o.media) else []
  {
  }

  lemma {:induction false} SteadyCalls(a: Directory, b: Directory, gate: Gate, ev: Messaging, o: EventOutcome)
    requires Steady(gate, ev, o)
    ensures EventCalls(a, gate, ev, o) == EventCalls(b, gate, ev, o)
  {
    if !Silent(gate, ev, o) {
      NeededCalls(a, gate, ev, o);
      NeededCalls(b, gate, ev, o);
    }
  }

  const NOBODY: Directory := Directory({}, {})

  /** The sends of an event are the same for every directory exactly when the event is steady. */
  lemma {:induction false} CacheIrrelevant(gate: Gate, ev: Messaging, o: EventOutcome)
    ensures (forall a: Directory, b: Directory :: EventCalls(a, gate, ev, o) == EventCalls(b, gate, ev, o))
            <==> Steady(gate, ev, o)
  {
    if Steady(gate, ev, o) {
      forall a: Directory, b: Directory
        ensures EventCalls(a, gate, ev, o) == EventCalls(b, gate, ev, o)
      {
        SteadyCalls(a, b, gate, ev, o);
      }
    } else {
      NeededCalls(Directory(Needed(ev, o), {}), gate, ev, o);
      NeededCalls(NOBODY, gate, ev, o);
      assert EventCalls(Directory(Needed(ev, o), {}), gate, ev, o) != EventCalls(NOBODY, gate, ev, o);
    }
  }

  /** The hash is one of a user with this id: the id, a colon, and two names. */
  predicate Markable(psid: string, hash: string) {
    |psid| < |hash| && hash[..|psid|] == psid && hash[|psid|] == ':' && ':' in hash[|psid| + 1..]
  }

  lemma {:induction false} OwnMarkable(psid: string, p: Profile)
    ensures Markable(psid, Hash(User(psid, p)))
  {
    var names := p.firstName + [':'] + p.lastName;
    assert Hash(User(psid, p))[|psid| + 1..] == names && names[|p.firstName|] == ':';
  }

  lemma {:induction false} MarkableProfile(psid: string, hash: string) returns (p: Profile)
    requires Markable(psid, hash)
    ensures Hash(User(psid, p)) == hash
  {
    var names := hash[|psid| + 1..];
    var i :| 0 <= i < |names| && names[i] == ':';
    p := Profile(names[..i], names[i + 1..]);
    assert names == p.firstName + [':'] + p.lastName;
    assert hash == psid + [':'] + names;
  }

  lemma {:induction false} MarkableHash(psid: string, hash: string)
    ensures Markable(psid, hash) <==> exists p: Profile :: Hash(User(psid, p)) == hash
  {
    if Markable(psid, hash) {
      var _ := MarkableProfile(psid, hash);
    }
    if p: Profile :| Hash(User(psid, p)) == hash {
      OwnMarkable(psid, p);
    }
  }

  /** Synchronising adds at most hashes of its own user. */
  lemma {:induction false} SyncMarks(d: Directory, gate: Gate, psid: string, o: SyncOutcome)
    ensures d.known <= Sync(d, gate, psid, o).directory.known
    ensures forall hash <- Sync(d, gate, psid, o).directory.known :: hash in d.known || Markable(psid, hash)
  {
    if o.profile.Some? {
      MarkableHash(psid, Hash(User(psid, o.profile.value)));
    }
  }

  lemma {:induction false} EventMarks(d: Directory, gate: Gate, ev: Messaging, o: EventOutcome)
    ensures d.known <= SyncEvent(d, gate, ev, o).directory.known
    ensures forall hash <- SyncEvent(d, gate, ev, o).directory.known :: hash in d.known || Markable(ev.sender, hash)
  {
    SyncMarks(d, gate, ev.sender, o.first);
    SyncMarks(Sync(d, gate, ev.sender, o.first).directory, gate, ev.sender, o.second);
  }

  /** What an event can meet that makes the user of `p` known, or leaves the user unknown
      because the mark is lost. */
  function Marking(p: Profile, marked: bool): EventOutcome {
    var sync := SyncOutcome(Some(p), true, Created, marked);
    EventOutcome(sync, sync, i => MediaOutcome(0, None))
  }

  lemma {:induction false} MarkingMarks(d: Directory, gate: Gate, ev: Messaging, p: Profile)
    requires !ev.Ignored()
    ensures SyncEvent(d, gate, ev, Marking(p, true)).directory.known == d.known + {Hash(User(ev.sender, p))}
    ensures SyncEvent(d, gate, ev, Marking(p, false)).directory.known == d.known
  {
  }

  /** What happens to the earlier event never changes the sends of the later one. */
  ghost predicate Undisturbed(gate: Gate, earlier: Messaging, later: Messaging, o: EventOutcome) {
    forall d: Directory, p: EventOutcome, q: EventOutcome ::
      EventCalls(SyncEvent(d, gate, earlier, p).directory, gate, later, o)
      == EventCalls(SyncEvent(d, gate, earlier, q).directory, gate, later, o)
  }

  /** Two events, of whatever senders: the earlier one never changes the sends of the later one
      exactly when the later one is steady, or needs no hash that the earlier one can mark. */
  lemma {:induction false} EarlierEvent(gate: Gate, earlier: Messaging, later: Messaging, o: EventOutcome)
    requires !earlier.Ignored()
    ensures Undisturbed(gate, earlier, later, o) <==>
            Steady(gate, later, o) || forall hash <- Needed(later, o) :: !Markable(earlier.sender, hash)
  {
    if Steady(gate, later, o) {
      CacheIrrelevant(gate, later, o);
    } else if hash :| hash in Needed(later, o) && Markable(earlier.sender, hash) {
      MarkableHash(earlier.sender, hash);
      var p: Profile :| Hash(User(earlier.sender, p)) == hash;
      var d := Directory(Needed(later, o) - {hash}, {});
      MarkingMarks(d, gate, earlier, p);
      var x, y := SyncEvent(d, gate, earlier, Marking(p, true)).directory,
        SyncEvent(d, gate, earlier, Marking(p, false)).directory;
      NeededCalls(x, gate, later, o);
      NeededCalls(y, gate, later, o);
      assert EventCalls(x, gate, later, o) != EventCalls(y, gate, later, o);
    } else {
      forall d: Directory, p: EventOutcome, q: EventOutcome
        ensures EventCalls(SyncEvent(d, gate, earlier, p).directory, gate, later, o)
             == EventCalls(SyncEvent(d, gate, earlier, q).directory, gate, later, o)
      {
        EventMarks(d, gate, earlier, p);
        EventMarks(d, gate, earlier, q);
        NeededCalls(SyncEvent(d, gate, earlier, p).directory, gate, later, o);
        NeededCalls(SyncEvent(d, gate, earlier, q).directory, gate, later, o);
      }
    }
  }

  /** For two events of one sender, exactly when the later one is steady. */
  lemma {:induction false} SameSender(gate: Gate, earlier: Messaging, later: Messaging, o: EventOutcome)
    requires !earlier.Ignored() && later.sender == earlier.sender
    ensures Undisturbed(gate, earlier, later, o) <==> Steady(gate, later, o)
  {
    EarlierEvent(gate, earlier, later, o);
    if !Steady(gate, later, o) {
      var hash :| hash in Needed(later, o);
      MarkableHash(earlier.sender, hash);
    }
  }

  // ---- What the known-user cache promises, and what not ----

  /** The hash has no domain in it: once a user is known through one domain's gate,
      a gate of another domain serves the user without a contact of its own. */
  lemma KnownElsewhere(g: Gate, h: Gate, psid: string, p: Profile)
    requires g.domain != h.domain
    ensures var o := SyncOutcome(Some(p), false, Created, true);
      var d := Sync(NOBODY, g, psid, o).directory;
      Sync(d, h, psid, o).ok && (h.domain, psid) !in Sync(d, h, psid, o).directory.contacts
  {
  }

  /** An id and one that extends it can share a hash, whichever comes first: then the second
      user is never created. */
  lemma {:induction false} ColonCollision(g: Gate, a: string, b: string) returns (p: Profile, q: Profile)
    requires a != b && Collide(a, b)
    ensures var d := Sync(NOBODY, g, a, SyncOutcome(Some(p), false, Created, true)).directory;
      var o := SyncOutcome(Some(q), false, Created, true);
      Sync(d, g, b, o).ok && (g.domain, b) !in Sync(d, g, b, o).directory.contacts
  {
    SharedHash(a, b);
    var u: ExternalUser, v: ExternalUser :| u.id == a && v.id == b && Hash(u) == Hash(v);
    p, q := Profile(u.firstName, u.lastName), Profile(v.firstName, v.lastName);
    assert User(a, p) == u && User(b, q) == v;
  }
}
