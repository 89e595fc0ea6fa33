/** The strings by which the connector names callers, users and gates. */
module Identity {
  import opened Text

  // ---- Caller identity ----

  /** The domain-scoped caller, "%d.%s". */
  function CallerIdentity(domain: int, sub: string): string {
    Decimal(domain) + ['.'] + sub
  }

  /** The caller a webhook delivery presents to the gateway: the gate's own bot. */
  function GatewayIdentity(gateDomain: int, gatePeerSub: string): string {
    CallerIdentity(gateDomain, gatePeerSub)
  }

  /** The caller the messenger decorator presents: the sender of the message. */
  function MessengerIdentity(requestDomain: int, fromSub: string): string {
    CallerIdentity(requestDomain, fromSub)
  }

  /** Two callers share an identity string exactly when they are the same caller,
      whichever of the two sides builds it, for all domains and all subjects. */
  lemma {:induction false} CallerIdentityInjective(d1: int, s1: string, d2: int, s2: string)
    ensures GatewayIdentity(d1, s1) == MessengerIdentity(d2, s2) <==> d1 == d2 && s1 == s2
    ensures CallerIdentity(d1, s1) == CallerIdentity(d2, s2) <==> d1 == d2 && s1 == s2
  {
    DecimalRoundTrip(d1);
    DecimalRoundTrip(d2);
    if CallerIdentity(d1, s1) == CallerIdentity(d2, s2) {
      FirstSplit(Decimal(d1), s1, Decimal(d2), s2, '.');
    }
  }

  /** The identity is the domain in decimal, a dot, and the subject: the first dot splits it. */
  lemma {:induction false} CallerIdentityText(domain: int, sub: string) returns (dot: nat)
    ensures var id := CallerIdentity(domain, sub);
      && dot < |id| && id[dot] == '.' && '.' !in id[..dot]
      && Value(id[..dot]) == domain && id[dot + 1..] == sub
  {
    DecimalRoundTrip(domain);
    dot := |Decimal(domain)|;
    SplitParts(Decimal(domain), sub, '.');
  }

  // ---- User hash ----

  datatype ExternalUser = ExternalUser(id: string, firstName: string, lastName: string)

  /** What the user hash digests, "%s:%s:%s". The digest itself is taken to be injective,
      so this string stands for the hash. */
  function Hash(u: ExternalUser): string {
    u.id + [':'] + (u.firstName + [':'] + u.lastName)
  }

  /** `b` is `a` followed by a colon and more. */
  predicate Extends(a: string, b: string) {
    |a| < |b| && b[..|a|] == a && b[|a|] == ':'
  }

  /** The ids are equal, or one extends the other. */
  predicate Collide(a: string, b: string) {
    a == b || Extends(a, b) || Extends(b, a)
  }

  /** Names under which the longer id hashes as the shorter one: what it has more becomes
      the shorter one's first name. */
  function Twin(a: string, b: ExternalUser): ExternalUser
    requires Extends(a, b.id)
  {
    ExternalUser(a, b.id[|a| + 1..], b.firstName + [':'] + b.lastName)
  }

  lemma {:induction false} TwinHash(a: string, b: ExternalUser)
    requires Extends(a, b.id)
    ensures Hash(Twin(a, b)) == Hash(b)
  {
    assert b.id == a + [':'] + b.id[|a| + 1..];
  }

  /** Two users can share a hash only if their ids are equal or one extends the other. */
  lemma {:induction false} HashCollides(u: ExternalUser, v: ExternalUser)
    requires Hash(u) == Hash(v)
    ensures Collide(u.id, v.id)
  {
    var whole := Hash(u);
    assert whole[..|u.id|] == u.id && whole[|u.id|] == ':';
    assert whole[..|v.id|] == v.id && whole[|v.id|] == ':';
    if |u.id| < |v.id| {
      assert v.id[..|u.id|] == whole[..|v.id|][..|u.id|] == u.id;
    } else if |v.id| < |u.id| {
      assert u.id[..|v.id|] == whole[..|u.id|][..|v.id|] == v.id;
    }
  }

  /** Two ids can share a hash, for some names, exactly when they are equal or one extends
      the other. */
  lemma {:induction false} SharedHash(a: string, b: string)
    ensures (exists u: ExternalUser, v: ExternalUser :: u.id == a && v.id == b && Hash(u) == Hash(v)) <==> Collide(a, b)
  {
    if u: ExternalUser, v: ExternalUser :| u.id == a && v.id == b && Hash(u) == Hash(v) {
      HashCollides(u, v);
    }
    var u, v := ExternalUser(a, "", ""), ExternalUser(b, "", "");
    if Extends(a, b) {
      TwinHash(a, v);
      assert Twin(a, v).id == a && Hash(Twin(a, v)) == Hash(v);
    } else if Extends(b, a) {
      TwinHash(b, u);
      assert Twin(b, u).id == b && Hash(u) == Hash(Twin(b, u));
    } else if a == b {
      assert Hash(u) == Hash(v);
    }
  }

  /** When neither id extends the other, users share a hash exactly when they share the id
      and the two joined names agree. */
  lemma {:induction false} HashOwner(u: ExternalUser, v: ExternalUser)
    requires !Extends(u.id, v.id) && !Extends(v.id, u.id)
    ensures Hash(u) == Hash(v) <==>
            u.id == v.id && u.firstName + [':'] + u.lastName == v.firstName + [':'] + v.lastName
  {
    if Hash(u) == Hash(v) {
      HashCollides(u, v);
      assert Hash(u)[|u.id| + 1..] == u.firstName + [':'] + u.lastName;
      assert Hash(v)[|v.id| + 1..] == v.firstName + [':'] + v.lastName;
    }
  }

  /** With colon-free first names too, the hash determines the user. */
  lemma {:induction false} HashInjective(u: ExternalUser, v: ExternalUser)
    requires !Extends(u.id, v.id) && !Extends(v.id, u.id)
    requires ':' !in u.firstName && ':' !in v.firstName
    ensures Hash(u) == Hash(v) <==> u == v
  {
    HashOwner(u, v);
    if Hash(u) == Hash(v) {
      FirstSplit(u.firstName, u.lastName, v.firstName, v.lastName, ':');
    }
  }

  /** Joining the names with a colon loses nothing exactly when they contain none: then a
      joined text with a single colon splits in one way. */
  lemma {:induction false} JoinedNames(f: string, l: string, g: string, k: string)
    requires ':' !in f && ':' !in l
    requires f + [':'] + l == g + [':'] + k
    ensures f == g && l == k
  {
    var whole := f + [':'] + l;
    assert forall i :: 0 <= i < |whole| && whole[i] == ':' ==> i == |f|;
    assert whole[|g|] == ':' && |g| == |f|;
    assert f == whole[..|f|] && g == whole[..|g|];
    assert l == whole[|f| + 1..] && k == whole[|g| + 1..];
  }

  /** Every change of a user's names changes the hash exactly when neither of the names
      that are changed contains a colon. */
  lemma {:induction false} RenameNoticed(u: ExternalUser)
    ensures (forall v: ExternalUser :: v.id == u.id && v != u ==> Hash(v) != Hash(u)) <==>
            ':' !in u.firstName && ':' !in u.lastName
  {
    if ':' in u.firstName {
      var i :| 0 <= i < |u.firstName| && u.firstName[i] == ':';
      var v := ExternalUser(u.id, u.firstName[..i], u.firstName[i + 1..] + [':'] + u.lastName);
      assert u.firstName == v.firstName + [':'] + u.firstName[i + 1..];
      assert v.firstName + [':'] + v.lastName == u.firstName + [':'] + u.lastName;
      assert v.id == u.id && |v.firstName| < |u.firstName| && Hash(v) == Hash(u);
    } else if ':' in u.lastName {
      var i :| 0 <= i < |u.lastName| && u.lastName[i] == ':';
      var v := ExternalUser(u.id, u.firstName + [':'] + u.lastName[..i], u.lastName[i + 1..]);
      assert u.lastName == u.lastName[..i] + [':'] + v.lastName;
      assert v.firstName + [':'] + v.lastName == u.firstName + [':'] + u.lastName;
      assert v.id == u.id && |v.firstName| > |u.firstName| && Hash(v) == Hash(u);
    } else {
      forall v: ExternalUser | v.id == u.id && v != u
        ensures Hash(v) != Hash(u)
      {
        HashOwner(u, v);
        if Hash(v) == Hash(u) {
          JoinedNames(u.firstName, u.lastName, v.firstName, v.lastName);
        }
      }
    }
  }

  /** A changed name can leave the hash as it was, when a colon moves between the names. */
  lemma {:induction false} RenameUnnoticed(id: string)
    ensures Hash(ExternalUser(id, "a:b", "c")) == Hash(ExternalUser(id, "a", "b:c"))
  {
    assert "a:b" + [':'] + "c" == "a" + [':'] + "b:c";
  }

  // ---- Gate key ----

  function WebhookUri(path: string): (uri: string)
    ensures uri != "" && uri[0] == '/'
    ensures path != "" && path[0] == '/' ==> uri == path
    ensures path == "" || path[0] != '/' ==> uri[1..] == path
  {
    if path == "" || path[0] != '/' then "/" + path else path
  }

  function GateKey(uri: string, pageId: string): string {
    uri + [':'] + pageId
  }

  /** `q` is something, a colon, and `p`. */
  predicate Ends(p: string, q: string) {
    |p| < |q| && q[|q| - |p|..] == p && q[|q| - |p| - 1] == ':'
  }

  /** Gates can share a key only if their page ids are equal or one ends the other. */
  lemma {:induction false} KeyCollides(u1: string, p1: string, u2: string, p2: string)
    requires GateKey(u1, p1) == GateKey(u2, p2)
    ensures p1 == p2 || Ends(p1, p2) || Ends(p2, p1)
  {
    var whole := GateKey(u1, p1);
    var n := |whole|;
    assert whole[n - |p1|..] == p1 && whole[n - |p1| - 1] == ':';
    assert whole[n - |p2|..] == p2 && whole[n - |p2| - 1] == ':';
    if |p1| < |p2| {
      assert p2[|p2| - |p1|..] == whole[n - |p2|..][|p2| - |p1|..] == p1;
      assert p2[|p2| - |p1| - 1] == whole[n - |p1| - 1];
    } else if |p2| < |p1| {
      assert p1[|p1| - |p2|..] == whole[n - |p1|..][|p1| - |p2|..] == p2;
      assert p1[|p1| - |p2| - 1] == whole[n - |p2| - 1];
    }
  }

  /** A page id and one that ends it: with the right uris they share a key. */
  lemma {:induction false} EndsShare(p: string, q: string)
    requires Ends(p, q)
    ensures GateKey("/" + [':'] + q[..|q| - |p| - 1], p) == GateKey("/", q)
  {
    assert q == q[..|q| - |p| - 1] + [':'] + p;
  }

  /** Two page ids can share a key, for some uris, exactly when they are equal or one ends the
      other after a colon. */
  lemma {:induction false} SharedKey(p: string, q: string)
    ensures (exists u, v :: GateKey(u, p) == GateKey(v, q)) <==> p == q || Ends(p, q) || Ends(q, p)
  {
    if u, v :| GateKey(u, p) == GateKey(v, q) {
      KeyCollides(u, p, v, q);
    }
    if p == q {
      assert GateKey("/", p) == GateKey("/", q);
    } else if Ends(p, q) {
      EndsShare(p, q);
    } else if Ends(q, p) {
      EndsShare(q, p);
    }
  }

  /** Where neither page id ends the other, keys agree only for the same uri and page. */
  lemma {:induction false} GateKeyInjective(u1: string, p1: string, u2: string, p2: string)
    requires !Ends(p1, p2) && !Ends(p2, p1)
    ensures GateKey(u1, p1) == GateKey(u2, p2) <==> u1 == u2 && p1 == p2
  {
    if GateKey(u1, p1) == GateKey(u2, p2) {
      KeyCollides(u1, p1, u2, p2);
      assert u1 == GateKey(u1, p1)[..|u1|] && u2 == GateKey(u2, p2)[..|u2|];
    }
  }

  /** The keys that gates are cached under are exactly the strings with a colon in them. */
  lemma {:induction false} CachedUnder(key: string)
    ensures (exists uri, pageId :: GateKey(uri, pageId) == key) <==> ':' in key
  {
    if ':' in key {
      var i :| 0 <= i < |key| && key[i] == ':';
      assert GateKey(key[..i], key[i + 1..]) == key;
    }
    if uri, pageId :| GateKey(uri, pageId) == key {
      assert key[|uri|] == ':';
    }
  }

  /** What the store does to the gate cache when it updates or unbinds the gate of a page:
      it deletes the page id, not the key. */
  function Invalidate<V>(cache: map<string, V>, pageId: string): map<string, V> {
    cache - {pageId}
  }

  /** The gate's own entry always stays, whatever the page id. */
  lemma {:induction false} InvalidateMisses<V>(cache: map<string, V>, uri: string, pageId: string)
    requires GateKey(uri, pageId) in cache
    ensures GateKey(uri, pageId) in Invalidate(cache, pageId)
    ensures Invalidate(cache, pageId)[GateKey(uri, pageId)] == cache[GateKey(uri, pageId)]
  {
    assert |GateKey(uri, pageId)| > |pageId|;
  }

  /** Every key of the cache is that of some gate. */
  ghost predicate OfGates<V>(cache: map<string, V>) {
    forall key <- cache :: exists uri, pageId :: GateKey(uri, pageId) == key
  }

  /** No entry of any gate is ever removed exactly when the page id has no colon. */
  lemma {:induction false} InvalidateNothing<V(!new)>(pageId: string, v: V)
    ensures (forall cache: map<string, V> :: OfGates(cache) ==> Invalidate(cache, pageId) == cache) <==> ':' !in pageId
  {
    CachedUnder(pageId);
    if ':' in pageId {
      var cache := map[pageId := v];
      assert OfGates(cache);
      assert pageId in cache && pageId !in Invalidate(cache, pageId);
    } else {
      forall cache: map<string, V> | OfGates(cache)
        ensures Invalidate(cache, pageId) == cache
      {
        assert pageId !in cache;
      }
    }
  }
}
