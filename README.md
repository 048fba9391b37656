# Mongoid::AppSettings, modelled in Dafny

`Mongoid::AppSettings` is a mixin for Ruby classes. A class that includes it can
declare named settings with `setting name, :default => d, :type => t`. It then
gets a getter and a setter for each setting, plus `delete`, `all`, `defaults`
and `reload`. Every host class works on one shared settings document in
MongoDB. Each host class keeps its own cached copy of that document: it loads
the copy on first use and fetches it again only on `reload`.

The repository's implementation is a thin layer over Mongoid and is not part of
this model. The model follows the behavioural suite
`spec/mongoid-app_settings_spec.rb`, example by example.

Modules:

- `Values`: the values a setting holds (`Nil`, `B`, `S`, `I`), the optional
  type tag (`Untyped`, `IntegerType`), the errors `UnknownSetting` and
  `Coercion`, and `Option`/`Result`.
- `Decimal`: decimal notation of integers. `ParseInt` is this model's own
  rule for a string assigned to an `Integer` setting: an optional sign, then
  one or more ASCII digits. `ShowInt` is the `to_s` used when a default is
  written as an interpolated string. Printing then parsing is proved to
  return the same integer.
- `Coercion`: how the setter converts a raw value to the declared type.
- `SettingsRegistry`: a host's declarations as an insertion-ordered hash. It
  defines how a declared setting resolves against a record (the override if the
  key is present, else the default). It also defines `all` and `defaults` as
  functions of the registry and the record.
- `AppSettings`: two classes. `Store` is the shared document. It holds the
  stored overrides and the record's fields; a key that is present may hold nil
  or false. `Host` is one class including the mixin: its registry, its cache
  (`None` until loaded, then a snapshot) and the accessor methods. `Set` and
  `Delete` write to the cache and through to the store. `Get`, `Set`,
  `Delete` and `All` load the cache on first use. `Reload` re-fetches it and
  returns the host.
- `AppSettingsSpec`: one method per example of the suite. Each runs the
  example's steps on fresh hosts over a fresh store and promises its outcome
  in its `ensures`. `DefaultCapturedOnce` extends the example of lines 27-31
  with a later assignment to the sibling setting, to show that the default
  is captured once. Then come the same properties for any host, name and
  value.

A default that reads other settings (`:default => "#{foo} quux"`) is modelled
the way Ruby evaluates it. The caller reads `foo` with `Get`, builds the
string with `ToS`, and passes the concrete value to `Declare`. The default is
captured once, at declaration.

## Model

| member | source | states |
|---|---|---|
| `Decimal.DigitsValueShowNat` | spec/mongoid-app_settings_spec.rb:121-125 | reading back the decimal digits of a natural number gives that number |
| `Decimal.ParseShowInt` | spec/mongoid-app_settings_spec.rb:121-125 | parsing the decimal notation of any integer, sign included, gives that integer |
| `Decimal.ParseIntNeedsDigit` | spec/mongoid-app_settings_spec.rb:121-125 | a string containing no digit is never read as an integer |
| `Coercion.Coerce` | spec/mongoid-app_settings_spec.rb:121-125 | conversion on write; a failure names the raw value and the declared type |
| `Coercion.CoerceConforms` | spec/mongoid-app_settings_spec.rb:121-125 | a successful coercion yields a value of the declared type (nil or an integer for `Integer`) |
| `Coercion.CoerceConformingIsIdentity` | spec/mongoid-app_settings_spec.rb:103-125 | a value already of the declared type, nil and false included, is stored unchanged |
| `Coercion.CoerceIdempotent` | spec/mongoid-app_settings_spec.rb:121-125 | coercing a stored value again changes nothing, so reads never need to re-coerce |
| `Coercion.CoerceDecimalString` | spec/mongoid-app_settings_spec.rb:121-125 | an `Integer` setting assigned the decimal string of n stores the integer n |
| `Coercion.CoerceRefusesNonNumeric` | spec/mongoid-app_settings_spec.rb:121-125 | an `Integer` setting refuses a string with no digit, with a `Coercion` error |
| `Coercion.ToS` | spec/mongoid-app_settings_spec.rb:27-38 | the text an interpolated integer produces reads back as that integer |
| `Coercion.CoerceToSInteger` | spec/mongoid-app_settings_spec.rb:121-125 | an integer interpolated into a string and assigned to an `Integer` setting comes back unchanged |
| `SettingsRegistry.Empty` | spec/mongoid-app_settings_spec.rb:4-14 | a fresh host has a valid registry with no declarations |
| `SettingsRegistry.Declare` | spec/mongoid-app_settings_spec.rb:16-25 | declaring keeps the registry valid and gives the name its descriptor; other descriptors are unchanged; a new name goes last and a re-declared name keeps its place |
| `SettingsRegistry.ResolveWithoutOverride` | spec/mongoid-app_settings_spec.rb:17-25 | with no override a setting reads as its declared default |
| `SettingsRegistry.ResolveAfterWrite` | spec/mongoid-app_settings_spec.rb:49-74 | after an override is written, the setting reads as it, whatever the value, nil and false included |
| `SettingsRegistry.ResolveAfterRemove` | spec/mongoid-app_settings_spec.rb:76-81 | once the override is removed, the setting reads as its default |
| `SettingsRegistry.ResolveOtherKey` | spec/mongoid-app_settings_spec.rb:83-91 | writing or removing one key leaves every other setting's value as it was |
| `SettingsRegistry.ResolvedPairs` | spec/mongoid-app_settings_spec.rb:83-91 | one (name, resolved value) pair per given name, in the given order |
| `SettingsRegistry.DefaultPairs` | spec/mongoid-app_settings_spec.rb:93-101 | one (name, declared default) pair per given name, in the given order |
| `SettingsRegistry.AllWithoutOverridesIsDefaults` | spec/mongoid-app_settings_spec.rb:83-101 | with no override for any declared setting, `all` equals `defaults` |
| `SettingsRegistry.AllAfterWrite` | spec/mongoid-app_settings_spec.rb:83-91 | writing one override changes exactly that setting's entry of `all`, to the value written |
| `SettingsRegistry.DefaultsAfterDeclareNew` | spec/mongoid-app_settings_spec.rb:93-101 | declaring a new setting appends its default to `defaults` and keeps the earlier entries |
| `AppSettings.Store.constructor` | spec/mongoid-app_settings_spec.rb:55-61 | the shared document starts with no overrides and no fields |
| `AppSettings.Store.DefineField` | spec/mongoid-app_settings_spec.rb:40-45 | adds one name to the record's fields and keeps every stored key a field |
| `AppSettings.Store.FetchOrCreate` | spec/mongoid-app_settings_spec.rb:129-146 | yields a snapshot equal to the document as it is now |
| `AppSettings.Store.Persist` | spec/mongoid-app_settings_spec.rb:55-61 | stores exactly one override, nil and false included, and leaves the other keys alone |
| `AppSettings.Store.Remove` | spec/mongoid-app_settings_spec.rb:76-81 | removes exactly one key, which is different from storing nil |
| `AppSettings.Host.constructor` | spec/mongoid-app_settings_spec.rb:4-14 | a new host over a given store has no declarations and no cached record |
| `AppSettings.Host.Declare` | spec/mongoid-app_settings_spec.rb:16-45 | the registry gains the descriptor and the name becomes a record field; neither the cache nor the stored overrides change |
| `AppSettings.Host.Load` | spec/mongoid-app_settings_spec.rb:129-136 | the first use fetches the document; a cached record is kept as it is |
| `AppSettings.Host.Get` | spec/mongoid-app_settings_spec.rb:17-25 | an undeclared name is an error and loads nothing; otherwise the cache is loaded and the result is the cached override if present, else the default |
| `AppSettings.Host.Set` | spec/mongoid-app_settings_spec.rb:49-125 | the result is the coerced value or the error; on error nothing changes; on success both the cache and the store hold the value and nothing else changes |
| `AppSettings.Host.Delete` | spec/mongoid-app_settings_spec.rb:76-81 | removes the key from the loaded cache and from the store and changes nothing else |
| `AppSettings.Host.Reload` | spec/mongoid-app_settings_spec.rb:138-155 | the cache becomes the store's current document and the result is the host itself |
| `AppSettings.Host.All` | spec/mongoid-app_settings_spec.rb:83-91 | loads the cache and returns `all` of the registry over that record |
| `AppSettings.Host.Defaults` | spec/mongoid-app_settings_spec.rb:93-101 | returns `defaults` of the registry without touching cache or store |
| `AppSettingsSpec.DefineSetting` | spec/mongoid-app_settings_spec.rb:17-20 | a setting declared without a default reads as nil |
| `AppSettingsSpec.DefaultValue` | spec/mongoid-app_settings_spec.rb:22-25 | a setting declared with default "bar" reads as "bar" |
| `AppSettingsSpec.DefaultFromSiblingDefault` | spec/mongoid-app_settings_spec.rb:27-31 | a default built from a setting still at its default reads "bar quux" |
| `AppSettingsSpec.DefaultFromSiblingValue` | spec/mongoid-app_settings_spec.rb:33-38 | a default built from an already overridden setting reads "baz quux" |
| `AppSettingsSpec.DefaultCapturedOnce` | spec/mongoid-app_settings_spec.rb:27-31 | extends that example: assigning to the sibling after the declaration leaves the captured default "bar quux" |
| `AppSettingsSpec.DefinesFieldOnRecord` | spec/mongoid-app_settings_spec.rb:40-45 | a declared name is a field of the shared record |
| `AppSettingsSpec.SaveSetting` | spec/mongoid-app_settings_spec.rb:49-53 | an assigned value is read back |
| `AppSettingsSpec.SaveToStore` | spec/mongoid-app_settings_spec.rb:55-61 | the write reaches the store and a second host that has not loaded reads it |
| `AppSettingsSpec.OverwriteDefault` | spec/mongoid-app_settings_spec.rb:63-67 | an assignment replaces the default |
| `AppSettingsSpec.OverwriteValue` | spec/mongoid-app_settings_spec.rb:69-74 | the last of two assignments wins |
| `AppSettingsSpec.UnsetRevertsToDefault` | spec/mongoid-app_settings_spec.rb:76-81 | after `delete` the setting reads as its default |
| `AppSettingsSpec.AllSettings` | spec/mongoid-app_settings_spec.rb:83-91 | `all` is one "One", two "My value", three nil, in that order |
| `AppSettingsSpec.AllDefaults` | spec/mongoid-app_settings_spec.rb:93-101 | `defaults` is one "One", two "Two", three nil, in that order, despite the assignments |
| `AppSettingsSpec.OverwriteWithFalse` | spec/mongoid-app_settings_spec.rb:103-110 | false overrides a default and an earlier value |
| `AppSettingsSpec.OverwriteWithNil` | spec/mongoid-app_settings_spec.rb:112-119 | nil overrides a default and an earlier value |
| `AppSettingsSpec.ConvertsTypes` | spec/mongoid-app_settings_spec.rb:121-125 | an `Integer` setting assigned "37" reads as 37 |
| `AppSettingsSpec.NoReloadForEveryCall` | spec/mongoid-app_settings_spec.rb:129-136 | a host that has loaded does not see another host's write |
| `AppSettingsSpec.ReloadSeesWrites` | spec/mongoid-app_settings_spec.rb:138-146 | after `reload` the other host's write is seen |
| `AppSettingsSpec.ReloadChains` | spec/mongoid-app_settings_spec.rb:148-155 | `reload` returns the host itself and the chained getter sees the write |
| `AppSettingsSpec.SetThenGet` | spec/mongoid-app_settings_spec.rb:49-53 | for any host, name and value: after a successful set the getter returns the coerced value; untyped settings return the value as assigned |
| `AppSettingsSpec.LastWriteWins` | spec/mongoid-app_settings_spec.rb:69-74 | for any host and values: the second successful set is what is read |
| `AppSettingsSpec.DeleteRevertsToDefault` | spec/mongoid-app_settings_spec.rb:76-81 | for any declared setting: set then delete reads the default and the store holds no key |
| `AppSettingsSpec.DefaultsIgnoreOverrides` | spec/mongoid-app_settings_spec.rb:93-101 | `defaults` is the same before and after a set and a delete |
| `AppSettingsSpec.UnloadedHostSeesWrite` | spec/mongoid-app_settings_spec.rb:55-61 | for any two hosts over one store: a host that has not loaded reads the other's write |
| `AppSettingsSpec.StaleUntilReload` | spec/mongoid-app_settings_spec.rb:129-155 | for any two hosts over one store: a loaded host reads its old copy after the other's write and reads the write after `reload` |

## Left out

- MongoDB and Mongoid: connections, the `find_or_create` query, and the
  persistence calls. The store is an in-memory document in a `Store` object
  and never fails, so the store-unavailable error is not modelled.
- Ruby metaprogramming (the mixin, `instance_eval`, generated accessors,
  `send(:record)`): every setting is reached through the name-keyed `Get`
  and `Set` of `Host`. "Defines fields on the record" is modelled as the
  record's `fields` set.
- String interpolation in defaults: the caller computes the value with `Get`
  and `ToS` before `Declare`. A lazily evaluated default is not modelled.
- Mongoid's type system: only untyped and `Integer` settings exist. String to
  boolean coercion and other types are not modelled. The suite fixes only
  "37" to 37. The model accepts only an optional sign followed by ASCII
  digits. Strings such as " 37", "37.0" or "" are refused with `Coercion`,
  and so is a boolean assigned to an `Integer` setting; nothing then
  changes. Mongoid's own conversion of those inputs is not part of this
  model. Nil and integers are accepted as they are.
- `defaults` neither loads nor reads the record. Its result is the same
  either way, but later reads are not. A host whose first call is
  `defaults` stays unloaded, so its next `Get` sees writes made through
  other hosts in between. A `defaults` that loaded the record would instead
  keep the snapshot taken at that call.
- `reload` re-fetches the document at once. An implementation that only
  clears the cache and fetches on the next use would see writes made between
  the `reload` and that use. The suite does not tell the two apart.
- `delete` of a name the host never declared is not an error. It removes the
  key, if any, from the cache and the store.
- Two hosts declaring the same name with different types or defaults: each
  host coerces with its own declaration. Nothing is claimed about the combination.
- Concurrency and locking.
