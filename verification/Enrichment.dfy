/** Template variables of internal/core/service/template.go: contact ids are resolved to names,
    in whatever order the maps are walked. */
module Enrichment {
  import opened Caches
  import opened Options

  const CONTACT_ID_SUFFIX := "_contact_id"
  const NAME_SUFFIX := "_name"

  type Vars = map<string, string>

  predicate HasSuffix(s: string, suffix: string) {
    |suffix| <= |s| && s[|s| - |suffix|..] == suffix
  }

  function TrimSuffix(s: string, suffix: string): string {
    if HasSuffix(s, suffix) then s[..|s| - |suffix|] else s
  }

  // ---- Names ----

  /** The contact search for one id: the name and the user name of the first contact. */
  type Contacts = string -> Option<(string, string)>

  function NameSource(contacts: Contacts): Source<(), string, string, ()> {
    (caller, id) =>
      match contacts(id)
      case None => Err(())
      case Some((name, username)) => Ok(if name == "" then username else name)
  }

  /** The display name of a contact, or its id when the search finds none. */
  function NameOf(contacts: Contacts, id: string): string {
    match NameSource(contacts)((), id)
    case Ok(name) => name
    case Err(_) => id
  }

  // ---- What enriching means ----

  /** A key whose contact is resolved. */
  predicate Resolvable(vars: Vars, key: string) {
    key in vars && HasSuffix(key, CONTACT_ID_SUFFIX) && vars[key] != ""
  }

  /** The key under which the name of contact key `key` is added. */
  function NameKey(key: string): string {
    TrimSuffix(key, CONTACT_ID_SUFFIX) + NAME_SUFFIX
  }

  /** The contact key that a name key stems from. */
  function ContactKey(key: string): string {
    TrimSuffix(key, NAME_SUFFIX) + CONTACT_ID_SUFFIX
  }

  /** Stripping suffixes loses nothing, and no key has both. */
  lemma KeysApart(key: string)
    ensures HasSuffix(key, CONTACT_ID_SUFFIX) ==>
        ContactKey(NameKey(key)) == key && HasSuffix(NameKey(key), NAME_SUFFIX)
    ensures HasSuffix(key, NAME_SUFFIX) ==>
        NameKey(ContactKey(key)) == key && HasSuffix(ContactKey(key), CONTACT_ID_SUFFIX)
    ensures !(HasSuffix(key, CONTACT_ID_SUFFIX) && HasSuffix(key, NAME_SUFFIX))
  {
    var n := TrimSuffix(key, CONTACT_ID_SUFFIX);
    var c := TrimSuffix(key, NAME_SUFFIX);
    assert (n + NAME_SUFFIX)[|n|..] == NAME_SUFFIX && (n + NAME_SUFFIX)[..|n|] == n;
    assert (c + CONTACT_ID_SUFFIX)[|c|..] == CONTACT_ID_SUFFIX && (c + CONTACT_ID_SUFFIX)[..|c|] == c;
    if HasSuffix(key, CONTACT_ID_SUFFIX) {
      assert key == n + CONTACT_ID_SUFFIX;
      assert key[|key| - 1] == CONTACT_ID_SUFFIX[10] == 'd';
    }
    if HasSuffix(key, NAME_SUFFIX) {
      assert key == c + NAME_SUFFIX;
      assert key[|key| - 1] == NAME_SUFFIX[4] == 'e';
    }
  }

  /** `key` is the name key of a contact key in `done`. */
  predicate NamedBy(done: set<string>, key: string) {
    HasSuffix(key, NAME_SUFFIX) && ContactKey(key) in done
  }

  /** `vars` with `names`, by contact key, written over it. */
  function Overlay(vars: Vars, names: Vars): Vars {
    map key | key in vars.Keys + (set c <- names :: NameKey(c)) ::
      if NamedBy(names.Keys, key) then names[ContactKey(key)]
      else if key in vars then vars[key] else ""
  }

  function ResolvableKeys(vars: Vars): set<string> {
    set key <- vars | Resolvable(vars, key)
  }

  /** What `enrichWithNames` returns when the cached names are those the search finds. */
  function Enriched(vars: Vars, contacts: Contacts): Vars {
    Overlay(vars, NamesOf(vars, contacts))
  }

  /** The name that the search finds for each resolvable key. */
  function NamesOf(vars: Vars, contacts: Contacts): Vars {
    map key <- ResolvableKeys(vars) :: NameOf(contacts, vars[key])
  }

  /** What the name cache loses whenever the name of an id is added to it. */
  type Evictions = string -> set<string>

  /** The cache never loses the id. */
  ghost predicate Stays(evicted: Evictions, id: string) {
    forall other :: id !in evicted(other)
  }

  /** The cached name if there is one, else the one the search finds. */
  function NameIn(cache: Vars, contacts: Contacts, id: string): string {
    if id in cache then cache[id] else NameOf(contacts, id)
  }

  /** `name` is what was cached for `id`, or what the search finds where nothing was cached or
      the cached name got lost. */
  ghost predicate NameFor(cache: Vars, contacts: Contacts, evicted: Evictions, id: string, name: string) {
    name == NameIn(cache, contacts, id) || (!Stays(evicted, id) && name == NameOf(contacts, id))
  }

  /** The names are such names of resolvable keys. */
  ghost predicate NamesFor(cache: Vars, contacts: Contacts, evicted: Evictions, vars: Vars, names: Vars) {
    && names.Keys <= ResolvableKeys(vars)
    && forall key <- names :: NameFor(cache, contacts, evicted, vars[key], names[key])
  }

  /** The cached names are those the search finds. */
  ghost predicate Agrees(cache: Vars, contacts: Contacts) {
    forall id <- cache :: NameSource(contacts)((), id) == Ok(cache[id])
  }

  /** What is cached was found in `contacts`, or was in `before`; what was there is still there,
      unless it can get lost. */
  ghost predicate GrownFrom(cache: Vars, before: Vars, contacts: Contacts, evicted: Evictions) {
    && (forall id <- cache ::
          NameSource(contacts)((), id) == Ok(cache[id]) || (id in before && cache[id] == before[id]))
    && (forall id <- before :: Stays(evicted, id) ==> id in cache && cache[id] == before[id])
  }

  function KeySet(keys: seq<string>): set<string> {
    set key <- keys
  }

  lemma {:induction false} KeySetAppend(keys: seq<string>, key: string)
    ensures KeySet(keys + [key]) == KeySet(keys) + {key}
  {
  }

  /** The prefix and id of each of the keys. */
  predicate PairsOf(vars: Vars, pairs: seq<(string, string)>, keys: seq<string>) {
    && |keys| == |pairs|
    && forall i :: 0 <= i < |keys| ==>
      Resolvable(vars, keys[i]) && pairs[i] == (TrimSuffix(keys[i], CONTACT_ID_SUFFIX), vars[keys[i]])
  }

  // ---- The renderer ----

  class TemplateRenderer {
    const connected: bool                    // a contact client is configured
    var contactNames: map<string, string>    // the name cache

    constructor (connected: bool)
      ensures this.connected == connected && contactNames == map[]
    {
      this.connected := connected;
      contactNames := map[];
    }

    method ResolveName(contacts: Contacts, id: string, evicted: set<string>) returns (name: string)
      modifies this
      ensures name == if id in old(contactNames) then old(contactNames)[id] else NameOf(contacts, id)
      ensures id !in old(contactNames) && contacts(id).None? ==> name == id && contactNames == old(contactNames)
      ensures id !in old(contactNames) && contacts(id).Some? ==>
                && name == (if contacts(id).value.0 != "" then contacts(id).value.0 else contacts(id).value.1)
                && contactNames == old(contactNames)[id := name] - evicted
      ensures contactNames == Memo(old(contactNames), NameSource(contacts), (), Ask((), id, false, evicted)).0
    {
      if id in contactNames {
        return contactNames[id];
      }
      var found := contacts(id);
      if found.None? {
        return id;
      }
      name := found.value.0;
      if name == "" {
        name := found.value.1;
      }
      contactNames := contactNames[id := name] - evicted;
    }

    /** The maps are walked in any order: `:|` picks the next key. */
    method EnrichWithNames(contacts: Contacts, vars: Vars, evicted: Evictions) returns (r: Vars, ghost names: Vars)
      modifies this
      ensures !connected ==> r == vars
      ensures connected ==> r == Overlay(vars, names) && names.Keys == ResolvableKeys(vars)
                            && NamesFor(old(contactNames), contacts, evicted, vars, names)
      ensures GrownFrom(contactNames, old(contactNames), contacts, evicted)
      ensures connected && (forall id :: Stays(evicted, id)) ==>
                names == map key <- ResolvableKeys(vars) :: NameIn(old(contactNames), contacts, vars[key])
      ensures connected && Agrees(old(contactNames), contacts) ==>
          r == Enriched(vars, contacts) && Agrees(contactNames, contacts)
    {
      r, names := vars, map[];
      OverlayNothing(vars);
      if !connected || |vars| == 0 {
        OneResult(contactNames, contacts, evicted, vars, names);
        return;
      }
      var toResolve, keys := ContactPairs(vars);
      if |toResolve| == 0 {
        OneResult(contactNames, contacts, evicted, vars, names);
        return;
      }
      var copy := CopyVars(vars);
      r, names := AddNames(contacts, vars, copy, toResolve, keys, evicted);
      OneResult(old(contactNames), contacts, evicted, vars, names);
    }

    /** Resolves the pairs in turn and writes their names over a copy of the variables. */
    method AddNames(contacts: Contacts, vars: Vars, copy: Vars, pairs: seq<(string, string)>, ghost keys: seq<string>,
                    evicted: Evictions) returns (r: Vars, ghost names: Vars)
      requires copy == vars && PairsOf(vars, pairs, keys) && KeySet(keys) == ResolvableKeys(vars)
      modifies this
      ensures r == Overlay(vars, names) && names.Keys == ResolvableKeys(vars)
      ensures NamesFor(old(contactNames), contacts, evicted, vars, names)
      ensures GrownFrom(contactNames, old(contactNames), contacts, evicted)
    {
      r, names := copy, map[];
      OverlayNothing(vars);
      for i := 0 to |pairs|
        invariant GrownFrom(contactNames, old(contactNames), contacts, evicted)
        invariant NamesFor(old(contactNames), contacts, evicted, vars, names)
        invariant names.Keys == KeySet(keys[..i])
        invariant r == Overlay(vars, names)
      {
        assert keys[..i + 1] == keys[..i] + [keys[i]];
        KeySetAppend(keys[..i], keys[i]);
        r, names := AddName(contacts, old(contactNames), vars, r, pairs[i], evicted, names, keys[i]);
      }
      assert keys[..|pairs|] == keys;
    }

    /** Writes one name over the variables. */
    method AddName(contacts: Contacts, ghost before: Vars, vars: Vars, enriched: Vars, p: (string, string),
                   evicted: Evictions, ghost names: Vars, ghost key: string) returns (r: Vars, ghost more: Vars)
      requires GrownFrom(contactNames, before, contacts, evicted) && NamesFor(before, contacts, evicted, vars, names)
      requires Resolvable(vars, key) && p == (TrimSuffix(key, CONTACT_ID_SUFFIX), vars[key])
      requires enriched == Overlay(vars, names)
      modifies this
      ensures GrownFrom(contactNames, before, contacts, evicted) && NamesFor(before, contacts, evicted, vars, more)
      ensures more.Keys == names.Keys + {key} && r == Overlay(vars, more)
    {
      var name := ResolveName(contacts, p.1, evicted(p.1));
      OverlayStep(vars, names, key, name);
      r := enriched[p.0 + NAME_SUFFIX := name];
      more := names[key := name];
      assert NameFor(before, contacts, evicted, p.1, name);
    }

    /** The prefix and id of every resolvable key, in the order of the walk. */
    method ContactPairs(vars: Vars) returns (pairs: seq<(string, string)>, ghost keys: seq<string>)
      ensures PairsOf(vars, pairs, keys) && KeySet(keys) == ResolvableKeys(vars)
    {
      pairs, keys := [], [];
      var todo := vars.Keys;
      while todo != {}
        invariant todo <= vars.Keys
        invariant PairsOf(vars, pairs, keys) && KeySet(keys) == ResolvableKeys(vars) - todo
      {
        var k :| k in todo;
        todo := todo - {k};
        if HasSuffix(k, CONTACT_ID_SUFFIX) && vars[k] != "" {
          pairs := pairs + [(TrimSuffix(k, CONTACT_ID_SUFFIX), vars[k])];
          KeySetAppend(keys, k);
          keys := keys + [k];
        }
      }
    }

    method CopyVars(vars: Vars) returns (copy: Vars)
      ensures copy == vars
    {
      copy := map[];
      var todo := vars.Keys;
      while todo != {}
        invariant todo <= vars.Keys
        invariant copy == map key <- vars | key !in todo :: vars[key]
      {
        var k :| k in todo;
        todo := todo - {k};
        copy := copy[k := vars[k]];
      }
    }
  }

  lemma {:induction false} NamedByStep(done: set<string>, key: string, k: string)
    requires HasSuffix(key, CONTACT_ID_SUFFIX)
    ensures NamedBy(done + {key}, k) <==> NamedBy(done, k) || k == NameKey(key)
    ensures NamedBy(done + {key}, NameKey(key)) && ContactKey(NameKey(key)) == key
  {
    KeysApart(key);
    KeysApart(k);
  }

  lemma {:induction false} OverlayAt(vars: Vars, names: Vars, key: string, name: string, k: string)
    requires HasSuffix(key, CONTACT_ID_SUFFIX)
    ensures var before, after := Overlay(vars, names), Overlay(vars, names[key := name]);
      && (k in after <==> k in before || k == NameKey(key))
      && (k in after ==> after[k] == if k == NameKey(key) then name else before[k])
  {
    NamedByStep(names.Keys, key, k);
    assert names[key := name].Keys == names.Keys + {key};
    KeysApart(k);
    assert (set c <- names[key := name] :: NameKey(c)) == (set c <- names :: NameKey(c)) + {NameKey(key)};
  }

  /** The one change to a map. */
  lemma {:induction false} Updated(before: Vars, after: Vars, key: string, name: string)
    requires forall k: string :: k in after <==> k in before || k == key
    requires forall k: string :: k in after ==> after[k] == if k == key then name else before[k]
    ensures after == before[key := name]
  {
  }

  lemma {:induction false} OverlayStep(vars: Vars, names: Vars, key: string, name: string)
    requires HasSuffix(key, CONTACT_ID_SUFFIX)
    ensures Overlay(vars, names[key := name]) == Overlay(vars, names)[NameKey(key) := name]
  {
    forall k: string {
      OverlayAt(vars, names, key, name, k);
    }
    Updated(Overlay(vars, names), Overlay(vars, names[key := name]), NameKey(key), name);
  }

  lemma {:induction false} OverlayNothing(vars: Vars)
    ensures Overlay(vars, map[]) == vars
  {
  }

  /** With nothing lost there is only one name for each key. */
  lemma {:induction false} StayingNames(cache: Vars, contacts: Contacts, evicted: Evictions, vars: Vars, names: Vars)
    requires NamesFor(cache, contacts, evicted, vars, names) && names.Keys == ResolvableKeys(vars)
    requires forall id :: Stays(evicted, id)
    ensures names == map key <- ResolvableKeys(vars) :: NameIn(cache, contacts, vars[key])
  {
    forall key <- names
      ensures names[key] == NameIn(cache, contacts, vars[key])
    {
      assert Stays(evicted, vars[key]) && NameFor(cache, contacts, evicted, vars[key], names[key]);
    }
  }

  lemma {:induction false} AgreedName(cache: Vars, contacts: Contacts, id: string)
    requires Agrees(cache, contacts)
    ensures NameIn(cache, contacts, id) == NameOf(contacts, id)
  {
  }

  /** With cached names as the search finds them there is only one result. */
  lemma {:induction false} AgreedNames(cache: Vars, contacts: Contacts, evicted: Evictions, vars: Vars, names: Vars)
    requires NamesFor(cache, contacts, evicted, vars, names) && names.Keys == ResolvableKeys(vars)
    requires Agrees(cache, contacts)
    ensures Overlay(vars, names) == Enriched(vars, contacts)
  {
    forall key <- names
      ensures names[key] == NameOf(contacts, vars[key])
    {
      AgreedName(cache, contacts, vars[key]);
      assert NameFor(cache, contacts, evicted, vars[key], names[key]);
    }
    assert names == NamesOf(vars, contacts);
  }

  lemma {:induction false} OneResult(cache: Vars, contacts: Contacts, evicted: Evictions, vars: Vars, names: Vars)
    requires NamesFor(cache, contacts, evicted, vars, names)
    ensures names.Keys == ResolvableKeys(vars) && (forall id :: Stays(evicted, id)) ==>
              names == map key <- ResolvableKeys(vars) :: NameIn(cache, contacts, vars[key])
    ensures names.Keys == ResolvableKeys(vars) && Agrees(cache, contacts) ==>
              Overlay(vars, names) == Enriched(vars, contacts)
  {
    if names.Keys == ResolvableKeys(vars) {
      if forall id :: Stays(evicted, id) {
        StayingNames(cache, contacts, evicted, vars, names);
      }
      if Agrees(cache, contacts) {
        AgreedNames(cache, contacts, evicted, vars, names);
      }
    }
  }

  lemma {:induction false} OverlayNamed(vars: Vars, names: Vars, c: string)
    requires names.Keys <= ResolvableKeys(vars) && c in names
    ensures NameKey(c) in Overlay(vars, names) && Overlay(vars, names)[NameKey(c)] == names[c]
  {
    assert Resolvable(vars, c);
    KeysApart(c);
  }

  lemma {:induction false} OverlayKept(vars: Vars, names: Vars, key: string)
    requires key in vars
    ensures (forall c <- names :: NameKey(c) != key) || HasSuffix(key, CONTACT_ID_SUFFIX) ==>
        Overlay(vars, names)[key] == vars[key]
  {
    KeysApart(key);
    if NamedBy(names.Keys, key) {
      assert ContactKey(key) in names && NameKey(ContactKey(key)) == key;
    }
  }

  /** The result is the input with one name per non-empty contact key: exactly those keys are
      added or overwritten, and the contact keys themselves are kept. */
  lemma {:induction false} EnrichedMeaning(vars: Vars, names: Vars)
    requires names.Keys == ResolvableKeys(vars)
    ensures var r := Overlay(vars, names);
      && r.Keys == vars.Keys + (set c <- names :: NameKey(c))
      && (forall c <- names :: NameKey(c) in r && r[NameKey(c)] == names[c])
      && (forall key <- vars :: (forall c <- names :: NameKey(c) != key) ==> r[key] == vars[key])
      && (forall key <- vars :: HasSuffix(key, CONTACT_ID_SUFFIX) ==> r[key] == vars[key])
    ensures forall c, d :: c in names && d in names && NameKey(c) == NameKey(d) ==> c == d
  {
    forall c <- names
      ensures NameKey(c) in Overlay(vars, names) && Overlay(vars, names)[NameKey(c)] == names[c]
    {
      OverlayNamed(vars, names, c);
    }
    forall key <- vars
      ensures (forall c <- names :: NameKey(c) != key) || HasSuffix(key, CONTACT_ID_SUFFIX) ==>
          Overlay(vars, names)[key] == vars[key]
    {
      OverlayKept(vars, names, key);
    }
    forall c, d | c in names && d in names && NameKey(c) == NameKey(d)
      ensures c == d
    {
      assert Resolvable(vars, c) && Resolvable(vars, d);
      KeysApart(c);
      KeysApart(d);
    }
  }

  /** In the variables' own keys: `prefix_contact_id` with the id of a contact gives `prefix_name`
      with the contact's name, else its user name, else the id. */
  lemma {:induction false} NamedVariable(vars: Vars, contacts: Contacts, prefix: string)
    requires prefix + "_contact_id" in vars && vars[prefix + "_contact_id"] != ""
    ensures var r, id := Enriched(vars, contacts), vars[prefix + "_contact_id"];
      && prefix + "_name" in r
      && r[prefix + "_name"] ==
         match contacts(id)
         case None => id
         case Some((name, username)) => if name != "" then name else username
  {
    var key := prefix + "_contact_id";
    var names := NamesOf(vars, contacts);
    assert key[|prefix|..] == "_contact_id" && key[..|prefix|] == prefix;
    assert Resolvable(vars, key) && key in names;
    OverlayNamed(vars, names, key);
  }

  /** Without such a key the variables are as they were. */
  lemma {:induction false} NothingNamed(vars: Vars, contacts: Contacts)
    requires forall prefix: string :: prefix + "_contact_id" in vars ==> vars[prefix + "_contact_id"] == ""
    ensures Enriched(vars, contacts) == vars
  {
    forall key <- vars
      ensures !Resolvable(vars, key)
    {
      if HasSuffix(key, CONTACT_ID_SUFFIX) {
        var prefix := key[..|key| - |CONTACT_ID_SUFFIX|];
        assert key == prefix + "_contact_id";
      }
    }
    assert ResolvableKeys(vars) == {};
    assert NamesOf(vars, contacts).Keys == {};
    assert NamesOf(vars, contacts) == map[];
    OverlayNothing(vars);
  }
}
