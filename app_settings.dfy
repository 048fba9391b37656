/** The settings DSL that each host class gains: its declarations, its private
    cache of the shared settings record, and the accessors built on them. */
module AppSettings {
  import opened Values
  import opened Coercion
  import opened SettingsRegistry

  /** The shared settings document in the document store. `doc` maps setting
      name to stored override (an absent key is no override); `fields` is the
      record schema: every name some host has declared. */
  class Store {
    var doc: Snapshot
    var fields: set<string>

    ghost predicate Valid()
      reads this
    {
      doc.Keys <= fields
    }

    constructor ()
      ensures Valid() && doc == map[] && fields == {}
    {
      doc := map[];
      fields := {};
    }

    /** Adds a field to the record schema. */
    method DefineField(name: string)
      requires Valid()
      modifies this`fields
      ensures Valid() && fields == old(fields) + {name}
    {
      fields := fields + {name};
    }

    /** Fetches the one settings document (an empty one when none exists),
      as a snapshot. */
    method FetchOrCreate() returns (snapshot: Snapshot)
      ensures snapshot == doc
    {
      snapshot := doc;
    }

    /** Durably stores an override: a value present under `name`, nil and
      false included. */
    method Persist(name: string, v: Value)
      requires Valid() && name in fields
      modifies this`doc
      ensures Valid() && doc == old(doc)[name := v]
    {
      doc := doc[name := v];
    }

    /** Durably removes the override key, which is not the same as storing nil. */
    method Remove(name: string)
      requires Valid()
      modifies this`doc
      ensures Valid() && doc == old(doc) - {name}
    {
      doc := doc - {name};
    }
  }

  /** The record a host works on: its cached one once loaded, otherwise the
      store's current document, which the host fetches first. */
  function Loaded(cache: Option<Snapshot>, doc: Snapshot): (r: Snapshot)
  {
    match cache
    case Some(c) => c
    case None => doc
  }

  /** A class that includes the settings DSL. Its registry and its cache are
      its own; the store is shared with every other host. */
  class Host {
    const store: Store
    var registry: Registry
    var cache: Option<Snapshot>

    ghost predicate Valid()
      reads this, store
    {
      store.Valid() && registry.Valid() &&
      registry.decls.Keys <= store.fields &&
      (cache.Some? ==> cache.value.Keys <= store.fields)
    }

    /** A new host has declared nothing and has not loaded the record. */
    constructor (store: Store)
      requires store.Valid()
      ensures Valid() && this.store == store
      ensures registry == Empty() && cache == None
    {
      this.store := store;
      registry := Empty();
      cache := None;
    }

    /** `setting name, :default => default, :type => kind`. A default that
      reads other settings is computed by the caller, with Get, before the
      call: it is captured once, here, and never re-evaluated. The record is
      neither loaded nor changed; the name becomes a field of its schema. */
    method Declare(name: string, default: Value, kind: SettingType)
      requires Valid()
      modifies this`registry, store`fields
      ensures Valid()
      ensures registry == SettingsRegistry.Declare(old(registry), name, Descriptor(default, kind))
      ensures store.fields == old(store.fields) + {name}
    {
      registry := SettingsRegistry.Declare(registry, name, Descriptor(default, kind));
      store.DefineField(name);
    }

    /** Loads the record on first use; a loaded record is kept as it is. */
    method Load()
      requires Valid()
      modifies this`cache
      ensures Valid()
      ensures cache == Some(Loaded(old(cache), store.doc))
    {
      if cache.None? {
        var snapshot := store.FetchOrCreate();
        cache := Some(snapshot);
      }
    }

    /** The getter of a setting: its override in the (possibly stale) cached
      record if there is one, otherwise its declared default. An undeclared
      name is an error and loads nothing. */
    method Get(name: string) returns (r: Result<Value>)
      requires Valid()
      modifies this`cache
      ensures Valid()
      ensures name !in registry.decls ==> r == Err(UnknownSetting(name)) && cache == old(cache)
      ensures name in registry.decls ==>
        cache == Some(Loaded(old(cache), store.doc)) &&
        r == Ok(Resolve(registry, cache.value, name))
    {
      if name !in registry.decls {
        return Err(UnknownSetting(name));
      }
      Load();
      r := Ok(Resolve(registry, cache.value, name));
    }

    /** The setter of a setting: coerces the value to the declared type, writes
      it into the cached record as an override and through to the store at
      once. An undeclared name or a value that does not coerce changes
      nothing. On success the result is the value stored. */
    method Set(name: string, raw: Value) returns (r: Result<Value>)
      requires Valid()
      modifies this`cache, store`doc
      ensures Valid()
      ensures r == if name in registry.decls then Coerce(registry.decls[name].kind, raw)
                   else Err(UnknownSetting(name))
      ensures r.Err? ==> cache == old(cache) && store.doc == old(store.doc)
      ensures r.Ok? ==>
        cache == Some(Loaded(old(cache), old(store.doc))[name := r.value]) &&
        store.doc == old(store.doc)[name := r.value]
    {
      if name !in registry.decls {
        return Err(UnknownSetting(name));
      }
      r := Coerce(registry.decls[name].kind, raw);
      if r.Ok? {
        Load();
        cache := Some(cache.value[name := r.value]);
        store.Persist(name, r.value);
      }
    }

    /** `delete(name)`: removes the override from the cached record and from
      the store, so that the setting reads as its default again. Removing a
      key that holds no override changes nothing. */
    method Delete(name: string)
      requires Valid()
      modifies this`cache, store`doc
      ensures Valid()
      ensures cache == Some(Loaded(old(cache), old(store.doc)) - {name})
      ensures store.doc == old(store.doc) - {name}
    {
      Load();
      cache := Some(cache.value - {name});
      store.Remove(name);
    }

    /** `reload`: fetches the record again, whatever was cached, and returns
      the host itself so that lookups can be chained. */
    method Reload() returns (self: Host)
      requires Valid()
      modifies this`cache
      ensures Valid()
      ensures self == this && cache == Some(store.doc)
    {
      var snapshot := store.FetchOrCreate();
      cache := Some(snapshot);
      self := this;
    }

    /** `all`: every declared setting with the value its getter returns, in
      declaration order. */
    method All() returns (r: seq<(string, Value)>)
      requires Valid()
      modifies this`cache
      ensures Valid()
      ensures cache == Some(Loaded(old(cache), store.doc))
      ensures r == AllOf(registry, cache.value)
    {
      Load();
      var rec := cache.value;
      r := [];
      var i := 0;
      while i < |registry.order|
        invariant 0 <= i <= |registry.order|
        invariant |r| == i
        invariant forall k :: 0 <= k < i ==>
          r[k] == (registry.order[k], Resolve(registry, rec, registry.order[k]))
      {
        var name := registry.order[i];
        r := r + [(name, Resolve(registry, rec, name))];
        i := i + 1;
      }
    }

    /** `defaults`: every declared setting with its declared default, in
      declaration order. Reads neither the cache nor the store. */
    method Defaults() returns (r: seq<(string, Value)>)
      requires registry.Valid()
      ensures r == DefaultsOf(registry)
    {
      r := [];
      var i := 0;
      while i < |registry.order|
        invariant 0 <= i <= |registry.order|
        invariant |r| == i
        invariant forall k :: 0 <= k < i ==>
          r[k] == (registry.order[k], registry.decls[registry.order[k]].default)
      {
        var name := registry.order[i];
        r := r + [(name, registry.decls[name].default)];
        i := i + 1;
      }
    }
  }
}
