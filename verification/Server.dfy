/** The API server as the operator meets it: a versioned store that others edit
    at will, read through a cache that may be stale or fail, and written by
    calls that may fail, or fail after they were applied. */
module Server {
  import opened Text
  import opened Objects
  import opened Slots

  datatype Entry = Entry(obj: Object, version: nat)

  datatype Edit = Put(key: Key, obj: Object) | Remove(key: Key)

  /** The mutating calls of a log, status updates aside. */
  function Mutations(log: seq<Event>): seq<Event> {
    if log == [] then []
    else Mutations(log[..|log| - 1]) + Mutation(log[|log| - 1])
  }

  function Mutation(e: Event): seq<Event> {
    if e.Write? && !e.verb.UpdateStatus? then [e] else []
  }

  lemma MutationsAppend(log: seq<Event>, e: Event)
    ensures Mutations(log + [e]) == Mutations(log) + Mutation(e)
  {
    assert (log + [e])[..|log|] == log;
  }

  ghost predicate OthersKept(was: map<Key, Entry>, now: map<Key, Entry>, key: Key) {
    forall k | k != key :: (k in now <==> k in was) && (k in now ==> now[k] == was[k])
  }

  /** What was asked to be created was stored, with an address of the server's
      choice. */
  ghost predicate Admitted(asked: Object, stored: Object) {
    exists address :: stored == WithAddress(asked, address)
  }

  class Server {
    /** Nobody else acts, nothing is stale, and of the writes only those under
        barred keys fail. */
    const calm: bool
    const barred: set<Key>
    /** Nothing fails, nothing is stale and nobody else acts. */
    const quiet: bool := calm && barred == {}
    const ip: Allocator
    var store: map<Key, Entry>
    var clock: nat
    /** Every version there ever was. */
    var archive: map<nat, (Key, Object)>
    ghost var log: seq<Event>

    ghost predicate Valid() reads this {
      && (forall k <- store :: store[k].version in archive && archive[store[k].version] == (k, store[k].obj))
      && (forall v <- archive :: v < clock && KindOf(archive[v].1.body) == archive[v].0.kind)
      && (calm ==> forall i | 0 <= i < |log| && log[i].key in barred :: Telling(log[i]))
    }

    ghost function Answer(key: Key): Reply reads this {
      if key in store then Found(store[key].obj, store[key].version) else NotFound
    }

    /** A read tells what is there; a write fails. */
    ghost predicate Telling(e: Event) reads this {
      match e
      case Read(key, reply) => reply == Answer(key)
      case Write(_, key, ok, was, now) => !ok && was == now == Lookup(Contents(), key)
    }

    /** The objects stored, versions aside. */
    ghost function Contents(): Store reads this {
      map k | k in store :: store[k].obj
    }

    ghost predicate Remembers(past: map<nat, (Key, Object)>) reads this {
      forall v <- past :: v in archive && archive[v] == past[v]
    }

    /** The version was that of this object under this key. */
    ghost predicate WasVersion(version: nat, key: Key, obj: Object) reads this {
      version in archive && archive[version] == (key, obj)
    }

    constructor (calm: bool, barred: set<Key>, ip: Allocator)
      ensures Valid() && this.calm == calm && this.barred == barred && this.ip == ip && store == map[] && log == []
    {
      this.calm, this.barred, this.ip := calm, barred, ip;
      store, clock, archive, log := map[], 0, map[], [];
    }

    method Set(key: Key, obj: Object)
      requires Valid() && KindOf(obj.body) == key.kind && (calm && key in barred ==> log == [])
      modifies this`store, this`clock, this`archive
      ensures Valid() && Remembers(old(archive))
      ensures Contents() == old(Contents())[key := obj]
      ensures OthersKept(old(store), store, key)
    {
      archive := archive[clock := (key, obj)];
      store := store[key := Entry(obj, clock)];
      clock := clock + 1;
    }

    method Unset(key: Key)
      requires Valid() && (calm && key in barred ==> log == [])
      modifies this`store
      ensures Valid() && store == old(store) - {key} && Contents() == old(Contents()) - {key}
    {
      store := store - {key};
    }

    /** Users and other controllers act, any number of times and in any way;
        nobody does in a calm cluster. */
    method Interfere()
      requires Valid()
      modifies this`store, this`clock, this`archive
      ensures Valid() && Remembers(old(archive))
      ensures calm ==> store == old(store) && archive == old(archive)
    {
      if calm { return; }
      var edits: seq<Edit> := *;
      for i := 0 to |edits|
        invariant Valid() && Remembers(old(archive))
      {
        match edits[i] {
          case Put(key, obj) => if KindOf(obj.body) == key.kind { Set(key, obj); }
          case Remove(key) => Unset(key);
        }
      }
    }

    /** Whether a write under the key gets through, and whether its success is
        then reported. */
    method Fate(key: Key) returns (passes: bool, reported: bool)
      ensures calm ==> (passes <==> key !in barred) && (reported <==> key !in barred)
    {
      passes, reported := *, *;
      if calm { passes, reported := key !in barred, key !in barred; }
    }

    /** Reads one object, possibly an outdated one. */
    method Get(key: Key) returns (r: Reply)
      requires Valid()
      modifies this`store, this`clock, this`archive, this`log
      ensures Valid() && Remembers(old(archive))
      ensures log == old(log) + [Read(key, r)] && Mutations(log) == Mutations(old(log))
      ensures r.Found? ==> WasVersion(r.version, key, r.obj) && KindOf(r.obj.body) == key.kind
      ensures calm ==> store == old(store) && archive == old(archive)
      ensures calm ==> r == if key in store then Found(store[key].obj, store[key].version) else NotFound
    {
      Interfere();
      var luck: int := *;
      if key in store && (calm || luck == 0) {
        r := Found(store[key].obj, store[key].version);
      } else if calm || luck == 1 {
        r := NotFound;
      } else if luck == 2 && exists v <- archive :: archive[v].0 == key {
        var v :| v in archive && archive[v].0 == key;
        r := Found(archive[v].1, v);
      } else {
        r := Failure;
      }
      MutationsAppend(log, Read(key, r));
      log := log + [Read(key, r)];
    }

    method Record(verb: Verb, key: Key, ok: bool, ghost was: Option<Object>) returns (ghost e: Event)
      requires Valid() && (calm && key in barred ==> !ok && was == Lookup(Contents(), key))
      modifies this`log
      ensures Valid()
      ensures e == Write(verb, key, ok, was, Lookup(Contents(), key))
      ensures log == old(log) + [e] && Mutations(log) == Mutations(old(log)) + Mutation(e)
    {
      e := Write(verb, key, ok, was, Lookup(Contents(), key));
      MutationsAppend(log, e);
      log := log + [e];
    }

    /** Stores a new object unless the key is taken. */
    method Create(key: Key, obj: Object) returns (ok: bool, ghost e: Event)
      requires Valid() && KindOf(obj.body) == key.kind
      modifies this`store, this`clock, this`archive, this`log
      ensures Valid() && Remembers(old(archive))
      ensures log == old(log) + [e] && Mutations(log) == Mutations(old(log)) + Mutation(e)
      ensures e.Write? && e == Write(Slots.Create, key, ok, e.was, e.now)
      ensures (!ok && e.was == e.now) || (e.was.None? && e.now.Some? && Admitted(obj, e.now.value))
      ensures calm ==> OthersKept(old(store), store, key)
      ensures calm && key in barred ==> !ok && store == old(store)
      ensures calm && key !in barred && key !in old(store) ==>
                && e == Write(Slots.Create, key, true, None, Some(Admit(key, obj, ip)))
                && Contents() == old(Contents())[key := Admit(key, obj, ip)]
    {
      hide Valid, Mutations;
      Interfere();
      ghost var was := Lookup(Contents(), key);
      var passes, reported := Fate(key);
      ok := false;
      if key !in store && passes {
        var address: string := *;
        if calm { address := ip(key); }
        var stored := WithAddress(obj, address);
        AddressKind(obj, address);
        Set(key, stored);
        ok := reported;
      }
      e := Record(Slots.Create, key, ok, was);
    }

    /** Replaces an object, provided it still has the version that was read. */
    method Update(key: Key, obj: Object, version: nat, ghost base: Object) returns (ok: bool, ghost e: Event)
      requires Valid() && KindOf(obj.body) == key.kind && WasVersion(version, key, base)
      modifies this`store, this`clock, this`archive, this`log
      ensures Valid() && Remembers(old(archive))
      ensures log == old(log) + [e] && Mutations(log) == Mutations(old(log)) + Mutation(e)
      ensures e.Write? && e == Write(Slots.Update, key, ok, e.was, e.now)
      ensures (!ok && e.was == e.now) || (e.was == Some(base) && e.now == Some(obj))
      ensures calm ==> OthersKept(old(store), store, key)
      ensures calm && key in barred ==> !ok && store == old(store)
      ensures calm && key !in barred && key in old(store) && old(store)[key].version == version ==>
                && e == Write(Slots.Update, key, true, Some(base), Some(obj))
                && Contents() == old(Contents())[key := obj]
    {
      Interfere();
      ghost var was := Lookup(Contents(), key);
      ok := Swap(key, obj, version);
      e := Record(Slots.Update, key, ok, was);
    }

    /** The same for the status of an instance. */
    method PutStatus(key: Key, obj: Object, version: nat, ghost base: Object) returns (ok: bool, ghost e: Event)
      requires Valid() && KindOf(obj.body) == key.kind && WasVersion(version, key, base)
      modifies this`store, this`clock, this`archive, this`log
      ensures Valid() && Remembers(old(archive))
      ensures log == old(log) + [e] && Mutations(log) == Mutations(old(log))
      ensures e.Write? && e == Write(UpdateStatus, key, ok, e.was, e.now)
      ensures (!ok && e.was == e.now) || (e.was == Some(base) && e.now == Some(obj))
      ensures calm ==> OthersKept(old(store), store, key)
      ensures calm && key in barred ==> !ok && store == old(store)
      ensures calm && key !in barred && key in old(store) && old(store)[key].version == version ==>
                ok && Contents() == old(Contents())[key := obj]
    {
      Interfere();
      ghost var was := Lookup(Contents(), key);
      ok := Swap(key, obj, version);
      e := Record(UpdateStatus, key, ok, was);
    }

    /** Compare and swap; the report may hide a success. */
    method Swap(key: Key, obj: Object, version: nat) returns (ok: bool)
      requires Valid() && KindOf(obj.body) == key.kind
      modifies this`store, this`clock, this`archive
      ensures Valid() && Remembers(old(archive))
      ensures OthersKept(old(store), store, key)
      ensures (!ok && Contents() == old(Contents()))
              || (key in old(store) && old(store)[key].version == version && Contents() == old(Contents())[key := obj])
      ensures calm && key in barred ==> !ok && store == old(store)
      ensures calm && key !in barred && key in old(store) && old(store)[key].version == version ==>
                ok && Contents() == old(Contents())[key := obj]
    {
      var passes, reported := Fate(key);
      ok := false;
      if key in store && store[key].version == version && passes {
        Set(key, obj);
        ok := reported;
      }
    }

    /** Removes whatever is stored under the key. */
    method Delete(key: Key) returns (ok: bool, ghost e: Event)
      requires Valid()
      modifies this`store, this`clock, this`archive, this`log
      ensures Valid() && Remembers(old(archive))
      ensures log == old(log) + [e] && Mutations(log) == Mutations(old(log)) + Mutation(e)
      ensures e.Write? && e == Write(Slots.Delete, key, ok, e.was, e.now)
      ensures (!ok && e.was == e.now) || (e.was.Some? && e.now.None?)
      ensures calm ==> OthersKept(old(store), store, key)
      ensures calm && key in barred ==> !ok && store == old(store)
      ensures calm && key !in barred && key in old(store) ==>
                && e == Write(Slots.Delete, key, true, Some(old(store)[key].obj), None)
                && Contents() == old(Contents()) - {key}
    {
      hide Valid, Mutations;
      Interfere();
      ghost var was := Lookup(Contents(), key);
      var passes, reported := Fate(key);
      ok := false;
      if key in store && passes {
        Unset(key);
        ok := reported;
      }
      e := Record(Slots.Delete, key, ok, was);
    }
  }

  lemma AddressKind(o: Object, address: string)
    ensures KindOf(WithAddress(o, address).body) == KindOf(o.body)
    ensures Admitted(o, WithAddress(o, address))
  {}
}
