/** A host's declarations: an insertion-ordered hash from setting name to its
    descriptor, and how a declared setting resolves against a record. */
module SettingsRegistry {
  import opened Values

  /** What `setting name, :default => d, :type => t` records. The default is a
      concrete value, fixed when the setting is declared. */
  datatype Descriptor = Descriptor(default: Value, kind: SettingType)

  /** `order` lists the declared names in declaration order; `decls` gives each
      its descriptor. */
  datatype Registry = Registry(order: seq<string>, decls: map<string, Descriptor>) {
    ghost predicate Valid() {
      (forall i, j :: 0 <= i < j < |order| ==> order[i] != order[j]) &&
      (forall n :: n in decls <==> n in order)
    }
  }

  /** The registry of a host that has declared nothing yet. */
  function Empty(): (r: Registry)
    ensures r.Valid() && r.decls == map[]
  {
    Registry([], map[])
  }

  /** Declaring a setting gives `name` the descriptor `d`. A new name goes
      after every earlier one; re-declaring a name replaces its descriptor and
      keeps its place, as assigning to an existing key of a Ruby hash does. */
  function Declare(reg: Registry, name: string, d: Descriptor): (r: Registry)
    requires reg.Valid()
    ensures r.Valid()
    ensures name in r.decls && r.decls[name] == d
    ensures forall n :: n != name ==> (n in r.decls <==> n in reg.decls)
    ensures forall n :: n in reg.decls && n != name ==> r.decls[n] == reg.decls[n]
    ensures name in reg.decls ==> r.order == reg.order
    ensures name !in reg.decls ==> r.order == reg.order + [name]
  {
    Registry(if name in reg.decls then reg.order else reg.order + [name], reg.decls[name := d])
  }

  /** The value a declared setting reads as: the record's override when the
      record holds the key (whatever it holds, nil and false included),
      otherwise the declared default. */
  function Resolve(reg: Registry, rec: Snapshot, name: string): (v: Value)
    requires name in reg.decls
  {
    if name in rec then rec[name] else reg.decls[name].default
  }

  /** With no override for it, a setting reads as its declared default. */
  lemma ResolveWithoutOverride(reg: Registry, rec: Snapshot, name: string)
    requires name in reg.decls && name !in rec
    ensures Resolve(reg, rec, name) == reg.decls[name].default
  {
  }

  /** Writing an override makes the setting read as that value, whatever it
      is: nil and false are overrides like any other. */
  lemma ResolveAfterWrite(reg: Registry, rec: Snapshot, name: string, v: Value)
    requires name in reg.decls
    ensures Resolve(reg, rec[name := v], name) == v
  {
  }

  /** Removing the override makes the setting read as its default again. */
  lemma ResolveAfterRemove(reg: Registry, rec: Snapshot, name: string)
    requires name in reg.decls
    ensures Resolve(reg, rec - {name}, name) == reg.decls[name].default
  {
  }

  /** Writing or removing one key does not change how another setting reads. */
  lemma ResolveOtherKey(reg: Registry, rec: Snapshot, name: string, other: string, v: Value)
    requires other in reg.decls && other != name
    ensures Resolve(reg, rec[name := v], other) == Resolve(reg, rec, other)
    ensures Resolve(reg, rec - {name}, other) == Resolve(reg, rec, other)
  {
  }

  /** The pairs (name, resolved value) for the given declared names, in order. */
  function ResolvedPairs(reg: Registry, rec: Snapshot, names: seq<string>): (r: seq<(string, Value)>)
    requires forall n :: n in names ==> n in reg.decls
    ensures |r| == |names|
    ensures forall i :: 0 <= i < |names| ==> r[i] == (names[i], Resolve(reg, rec, names[i]))
  {
    if names == [] then [] else [(names[0], Resolve(reg, rec, names[0]))] + ResolvedPairs(reg, rec, names[1..])
  }

  /** The pairs (name, declared default) for the given declared names, in order. */
  function DefaultPairs(reg: Registry, names: seq<string>): (r: seq<(string, Value)>)
    requires forall n :: n in names ==> n in reg.decls
    ensures |r| == |names|
    ensures forall i :: 0 <= i < |names| ==> r[i] == (names[i], reg.decls[names[i]].default)
  {
    if names == [] then [] else [(names[0], reg.decls[names[0]].default)] + DefaultPairs(reg, names[1..])
  }

  /** `all`: every declared setting with the value it reads as, in declaration order. */
  function AllOf(reg: Registry, rec: Snapshot): (r: seq<(string, Value)>)
    requires reg.Valid()
  {
    ResolvedPairs(reg, rec, reg.order)
  }

  /** `defaults`: every declared setting with its declared default, in
      declaration order; the record plays no part. */
  function DefaultsOf(reg: Registry): (r: seq<(string, Value)>)
    requires reg.Valid()
  {
    DefaultPairs(reg, reg.order)
  }

  /** With no override for any declared setting, `all` equals `defaults`. */
  lemma AllWithoutOverridesIsDefaults(reg: Registry, rec: Snapshot)
    requires reg.Valid()
    requires forall n :: n in reg.decls ==> n !in rec
    ensures AllOf(reg, rec) == DefaultsOf(reg)
  {
  }

  /** Writing one override changes exactly one entry of `all`: that of the
      setting written, which now carries the value written. */
  lemma AllAfterWrite(reg: Registry, rec: Snapshot, name: string, v: Value)
    requires reg.Valid() && name in reg.decls
    ensures |AllOf(reg, rec[name := v])| == |AllOf(reg, rec)|
    ensures forall i :: 0 <= i < |reg.order| ==>
      AllOf(reg, rec[name := v])[i] ==
        if reg.order[i] == name then (name, v) else AllOf(reg, rec)[i]
  {
  }

  /** Declaring a new setting appends it to `defaults`, leaving the earlier
      entries as they were. */
  lemma DefaultsAfterDeclareNew(reg: Registry, name: string, d: Descriptor)
    requires reg.Valid() && name !in reg.decls
    ensures DefaultsOf(Declare(reg, name, d)) == DefaultsOf(reg) + [(name, d.default)]
  {
  }
}
