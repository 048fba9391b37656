/** The behaviour the settings DSL promises, stated on the model: one method per
    example of the behavioural suite, each running the same steps on fresh hosts
    over a fresh store and promising the observed outcome, and then the same
    properties for arbitrary hosts, names and values. */
module AppSettingsSpec {
  import opened Values
  import opened Decimal
  import opened Coercion
  import opened SettingsRegistry
  import opened AppSettings

  // ---- defining settings ----

  /** A setting declared without a default reads as nil. */
  method DefineSetting() returns (v: Result<Value>)
    ensures v == Ok(Nil)
  {
    var store := new Store();
    var settings := new Host(store);
    settings.Declare("something", Nil, Untyped);
    v := settings.Get("something");
  }

  /** A setting declared with a default reads as that default. */
  method DefaultValue() returns (v: Result<Value>)
    ensures v == Ok(S("bar"))
  {
    var store := new Store();
    var settings := new Host(store);
    settings.Declare("foo", S("bar"), Untyped);
    v := settings.Get("foo");
  }

  /** A default written in terms of another setting still at its default
      captures that default. */
  method DefaultFromSiblingDefault() returns (v: Result<Value>)
    ensures v == Ok(S("bar quux"))
  {
    var store := new Store();
    var settings := new Host(store);
    settings.Declare("foo", S("bar"), Untyped);
    var foo := settings.Get("foo");
    assert ToS(foo.value) + " quux" == "bar quux";
    settings.Declare("baz", S(ToS(foo.value) + " quux"), Untyped);
    v := settings.Get("baz");
  }

  /** A default written in terms of another setting that was already
      overridden captures the override. */
  method DefaultFromSiblingValue() returns (v: Result<Value>)
    ensures v == Ok(S("baz quux"))
  {
    var store := new Store();
    var settings := new Host(store);
    settings.Declare("foo", S("bar"), Untyped);
    var _ := settings.Set("foo", S("baz"));
    var foo := settings.Get("foo");
    assert ToS(foo.value) + " quux" == "baz quux";
    settings.Declare("qux", S(ToS(foo.value) + " quux"), Untyped);
    v := settings.Get("qux");
  }

  /** A captured default is a fixed value: changing the setting it was
      computed from afterwards does not change it. */
  method DefaultCapturedOnce() returns (before: Result<Value>, after: Result<Value>)
    ensures before == after == Ok(S("bar quux"))
  {
    var store := new Store();
    var settings := new Host(store);
    settings.Declare("foo", S("bar"), Untyped);
    var foo := settings.Get("foo");
    assert ToS(foo.value) + " quux" == "bar quux";
    settings.Declare("baz", S(ToS(foo.value) + " quux"), Untyped);
    before := settings.Get("baz");
    var _ := settings.Set("foo", S("baz"));
    after := settings.Get("baz");
  }

  /** Declaring a setting makes its name a field of the shared record. */
  method DefinesFieldOnRecord() returns (known: bool)
    ensures known
  {
    var store := new Store();
    var settings := new Host(store);
    settings.Declare("something", Nil, Untyped);
    known := "something" in store.fields;
  }

  // ---- setting values ----

  /** A value assigned to a setting is what it reads as afterwards. */
  method SaveSetting() returns (v: Result<Value>)
    ensures v == Ok(S("some nice value"))
  {
    var store := new Store();
    var settings := new Host(store);
    settings.Declare("something", Nil, Untyped);
    var _ := settings.Set("something", S("some nice value"));
    v := settings.Get("something");
  }

  /** A write goes through to the store: another host that has not loaded the
      record yet reads the new value. */
  method SaveToStore() returns (v: Result<Value>, doc: Snapshot)
    ensures v == Ok(S("some nice value"))
    ensures doc == map["something" := S("some nice value")]
  {
    var store := new Store();
    var settings := new Host(store);
    var otherSettings := new Host(store);
    settings.Declare("something", Nil, Untyped);
    otherSettings.Declare("something", Nil, Untyped);
    var _ := settings.Set("something", S("some nice value"));
    doc := store.doc;
    v := otherSettings.Get("something");
  }

  /** An assigned value replaces the default. */
  method OverwriteDefault() returns (v: Result<Value>)
    ensures v == Ok(S("baz"))
  {
    var store := new Store();
    var settings := new Host(store);
    settings.Declare("foo", S("bar"), Untyped);
    var _ := settings.Set("foo", S("baz"));
    v := settings.Get("foo");
  }

  /** The last assignment wins. */
  method OverwriteValue() returns (v: Result<Value>)
    ensures v == Ok(S("quux"))
  {
    var store := new Store();
    var settings := new Host(store);
    settings.Declare("foo", S("bar"), Untyped);
    var _ := settings.Set("foo", S("baz"));
    var _ := settings.Set("foo", S("quux"));
    v := settings.Get("foo");
  }

  /** Deleting an override makes the setting read as its default again. */
  method UnsetRevertsToDefault() returns (v: Result<Value>)
    ensures v == Ok(S("bar"))
  {
    var store := new Store();
    var settings := new Host(store);
    settings.Declare("foo", S("bar"), Untyped);
    var _ := settings.Set("foo", S("baz"));
    settings.Delete("foo");
    v := settings.Get("foo");
  }

  /** `all` gives every setting with its current value, in declaration order;
      an explicit nil replaces a default. */
  method AllSettings() returns (all: seq<(string, Value)>)
    ensures all == [("one", S("One")), ("two", S("My value")), ("three", Nil)]
  {
    var store := new Store();
    var settings := new Host(store);
    settings.Declare("one", S("One"), Untyped);
    settings.Declare("two", S("Two"), Untyped);
    settings.Declare("three", S("Three"), Untyped);
    assert settings.registry.order == ["one", "two", "three"];
    var _ := settings.Set("two", S("My value"));
    var _ := settings.Set("three", Nil);
    all := settings.All();
  }

  /** `defaults` gives every setting with its declared default, in
      declaration order, whatever has been assigned. */
  method AllDefaults() returns (defaults: seq<(string, Value)>)
    ensures defaults == [("one", S("One")), ("two", S("Two")), ("three", Nil)]
  {
    var store := new Store();
    var settings := new Host(store);
    settings.Declare("one", S("One"), Untyped);
    settings.Declare("two", S("Two"), Untyped);
    settings.Declare("three", Nil, Untyped);
    var reg := settings.registry;
    assert reg.order == ["one", "two", "three"];
    assert reg.decls["one"].default == S("One") && reg.decls["two"].default == S("Two");
    assert reg.decls["three"].default == Nil;
    var _ := settings.Set("two", S("My value"));
    var _ := settings.Set("three", Nil);
    defaults := settings.Defaults();
    assert settings.registry == reg;
  }

  /** false is an override, not a missing value. */
  method OverwriteWithFalse() returns (v: Result<Value>)
    ensures v == Ok(B(false))
  {
    var store := new Store();
    var settings := new Host(store);
    settings.Declare("foo", S("bar"), Untyped);
    var _ := settings.Set("foo", S("baz"));
    var _ := settings.Set("foo", B(false));
    v := settings.Get("foo");
  }

  /** nil is an override, not a missing value. */
  method OverwriteWithNil() returns (v: Result<Value>)
    ensures v == Ok(Nil)
  {
    var store := new Store();
    var settings := new Host(store);
    settings.Declare("foo", S("bar"), Untyped);
    var _ := settings.Set("foo", S("baz"));
    var _ := settings.Set("foo", Nil);
    v := settings.Get("foo");
  }

  /** An `Integer` setting assigned "37" reads as the integer 37. */
  method ConvertsTypes() returns (v: Result<Value>)
    ensures v == Ok(I(37))
  {
    var store := new Store();
    var settings := new Host(store);
    settings.Declare("foo", I(42), IntegerType);
    assert "37" == ShowInt(37) by {
      assert ShowNat(3) == "3";
    }
    CoerceDecimalString(37);
    var _ := settings.Set("foo", S("37"));
    v := settings.Get("foo");
  }

  // ---- reload behaviour ----

  /** A host that has loaded the record keeps reading its copy: another
      host's write is not seen. */
  method NoReloadForEveryCall() returns (v: Result<Value>)
    ensures v == Ok(Nil)
  {
    var store := new Store();
    var settings := new Host(store);
    var otherSettings := new Host(store);
    settings.Declare("foo", Nil, Untyped);
    otherSettings.Declare("foo", Nil, Untyped);
    var _ := otherSettings.Get("foo");
    var _ := settings.Set("foo", S("bar"));
    v := otherSettings.Get("foo");
  }

  /** After `reload` a host sees the writes made through another host. */
  method ReloadSeesWrites() returns (v: Result<Value>)
    ensures v == Ok(S("bar"))
  {
    var store := new Store();
    var settings := new Host(store);
    var otherSettings := new Host(store);
    settings.Declare("foo", Nil, Untyped);
    otherSettings.Declare("foo", Nil, Untyped);
    var _ := otherSettings.Get("foo");
    var _ := settings.Set("foo", S("bar"));
    var _ := otherSettings.Reload();
    v := otherSettings.Get("foo");
  }

  /** `reload` returns the host, so a lookup can be chained onto it. */
  method ReloadChains() returns (same: bool, v: Result<Value>)
    ensures same
    ensures v == Ok(S("bar"))
  {
    var store := new Store();
    var settings := new Host(store);
    var otherSettings := new Host(store);
    settings.Declare("foo", Nil, Untyped);
    otherSettings.Declare("foo", Nil, Untyped);
    var _ := otherSettings.Get("foo");
    var _ := settings.Set("foo", S("bar"));
    var reloaded := otherSettings.Reload();
    same := reloaded == otherSettings;
    v := reloaded.Get("foo");
  }

  // ---- the same properties for any host, setting and value ----

  /** After a successful assignment a setting reads as the coerced value; for
      an untyped setting that is the value assigned, nil and false included. */
  method SetThenGet(h: Host, name: string, raw: Value) returns (w: Result<Value>, r: Result<Value>)
    requires h.Valid()
    modifies h`cache, h.store`doc
    ensures w.Ok? ==> r == w
    ensures name in h.registry.decls && h.registry.decls[name].kind.Untyped? ==> r == Ok(raw)
  {
    w := h.Set(name, raw);
    r := h.Get(name);
  }

  /** Of two successful assignments, the second is what the setting reads as. */
  method LastWriteWins(h: Host, name: string, first: Value, second: Value)
    returns (w: Result<Value>, r: Result<Value>)
    requires h.Valid()
    modifies h`cache, h.store`doc
    ensures w.Ok? ==> r == w
  {
    var _ := h.Set(name, first);
    w := h.Set(name, second);
    r := h.Get(name);
  }

  /** Assigning and then deleting leaves the setting at its declared default,
      on this host and in the store. */
  method DeleteRevertsToDefault(h: Host, name: string, raw: Value) returns (r: Result<Value>)
    requires h.Valid() && name in h.registry.decls
    modifies h`cache, h.store`doc
    ensures r == Ok(h.registry.decls[name].default)
    ensures name !in h.store.doc
  {
    var _ := h.Set(name, raw);
    h.Delete(name);
    r := h.Get(name);
  }

  /** `defaults` does not change under assignments and deletions. */
  method DefaultsIgnoreOverrides(h: Host, name: string, raw: Value, other: string)
    returns (before: seq<(string, Value)>, after: seq<(string, Value)>)
    requires h.Valid()
    modifies h`cache, h.store`doc
    ensures before == after
  {
    before := h.Defaults();
    var _ := h.Set(name, raw);
    h.Delete(other);
    after := h.Defaults();
  }

  /** A host that has not loaded the record yet sees a write made through
      another host. */
  method UnloadedHostSeesWrite(writer: Host, reader: Host, name: string, raw: Value)
    returns (w: Result<Value>, r: Result<Value>)
    requires writer != reader && writer.store == reader.store
    requires writer.Valid() && reader.Valid() && reader.cache.None?
    requires name in reader.registry.decls
    modifies writer`cache, reader`cache, writer.store`doc
    ensures w.Ok? ==> r == w
  {
    w := writer.Set(name, raw);
    r := reader.Get(name);
  }

  /** A host that has loaded the record keeps reading its copy after another
      host's write, and sees the write once it reloads. */
  method StaleUntilReload(writer: Host, reader: Host, name: string, raw: Value)
    returns (w: Result<Value>, stale: Result<Value>, reloaded: Result<Value>)
    requires writer != reader && writer.store == reader.store
    requires writer.Valid() && reader.Valid() && reader.cache.Some?
    requires name in reader.registry.decls
    modifies writer`cache, reader`cache, writer.store`doc
    ensures stale == Ok(Resolve(reader.registry, old(reader.cache).value, name))
    ensures w.Ok? ==> reloaded == w
  {
    w := writer.Set(name, raw);
    stale := reader.Get(name);
    var self := reader.Reload();
    reloaded := self.Get(name);
  }
}
