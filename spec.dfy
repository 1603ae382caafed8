/** Cluster specifications for roachtest and the functional options that build them.

    A spec is seeded from a cloud and a node count with every other field at its
    default, then each option is applied in the order given. Each option owns exactly
    one field and leaves every other field as it found it.
 */
module Spec {

  /** Cloud providers a registry can be bound to. */
  datatype Cloud = AWS | GCE | Azure | Local

  /** CPU architectures, kept opaque: no cloud/architecture table is part of this model. */
  datatype CPUArch = ArchAMD64 | ArchARM64

  /** The local-SSD policy of a spec: exactly one of three values. */
  datatype LocalSSDSetting = LocalSSDDefault | LocalSSDDisable | LocalSSDPreferOn

  /** A field that is either left to the provider's default or set explicitly. */
  datatype Setting<T> = Unset | Set(value: T)

  /** A requested cluster. `nodeCount` and the CPU count are Go `int`s, hence `int`. */
  datatype ClusterSpec = ClusterSpec(
    cloud: Cloud,
    nodeCount: int,
    cpus: Setting<int>,
    geo: bool,
    localSSD: LocalSSDSetting,
    terminateOnMigration: bool,
    arch: Setting<CPUArch>)

  /** The option constructors: `Geo()`, `CPU(n)`, `PreferLocalSSD()`, `DisableLocalSSD()`,
      `TerminateOnMigration()` and `Arch(a)`. */
  datatype Option =
    | Geo
    | CPU(n: int)
    | PreferLocalSSD
    | DisableLocalSSD
    | TerminateOnMigration
    | Arch(a: CPUArch)

  /** The fields of a spec, named so that options can say which one they own. */
  datatype Field =
    | CloudField
    | NodeCountField
    | CPUsField
    | GeoField
    | LocalSSDField
    | TerminateOnMigrationField
    | ArchField

  /** The value held in one field, whatever that field's type. */
  datatype FieldValue =
    | CloudIs(cloud: Cloud)
    | CountIs(count: int)
    | CPUsIs(cpus: Setting<int>)
    | FlagIs(flag: bool)
    | SSDIs(ssd: LocalSSDSetting)
    | ArchIs(arch: Setting<CPUArch>)

  /** Reads one field of a spec. */
  function Read(s: ClusterSpec, f: Field): FieldValue
  {
    match f
    case CloudField => CloudIs(s.cloud)
    case NodeCountField => CountIs(s.nodeCount)
    case CPUsField => CPUsIs(s.cpus)
    case GeoField => FlagIs(s.geo)
    case LocalSSDField => SSDIs(s.localSSD)
    case TerminateOnMigrationField => FlagIs(s.terminateOnMigration)
    case ArchField => ArchIs(s.arch)
  }

  /** Two specs that agree on every field are the same spec: `Read` loses nothing. */
  lemma ReadDetermines(s: ClusterSpec, t: ClusterSpec)
    requires forall f :: Read(s, f) == Read(t, f)
    ensures s == t
  {
    assert Read(s, CloudField) == Read(t, CloudField);
    assert Read(s, NodeCountField) == Read(t, NodeCountField);
    assert Read(s, CPUsField) == Read(t, CPUsField);
    assert Read(s, GeoField) == Read(t, GeoField);
    assert Read(s, LocalSSDField) == Read(t, LocalSSDField);
    assert Read(s, TerminateOnMigrationField) == Read(t, TerminateOnMigrationField);
    assert Read(s, ArchField) == Read(t, ArchField);
  }

  /** The one field an option owns. */
  function Owner(o: Option): Field
  {
    match o
    case Geo => GeoField
    case CPU(_) => CPUsField
    case PreferLocalSSD => LocalSSDField
    case DisableLocalSSD => LocalSSDField
    case TerminateOnMigration => TerminateOnMigrationField
    case Arch(_) => ArchField
  }

  /** The value an option writes into the field it owns. */
  function Written(o: Option): FieldValue
  {
    match o
    case Geo => FlagIs(true)
    case CPU(n) => CPUsIs(Set(n))
    case PreferLocalSSD => SSDIs(LocalSSDPreferOn)
    case DisableLocalSSD => SSDIs(LocalSSDDisable)
    case TerminateOnMigration => FlagIs(true)
    case Arch(a) => ArchIs(Set(a))
  }

  /** No option owns the cloud or the node count: those come from the seed alone. */
  lemma SeedFieldsUnowned(o: Option)
    ensures Owner(o) != CloudField && Owner(o) != NodeCountField
  {
  }

  /** Applies one option: its own field takes the option's value, every other field is kept. */
  function Apply(s: ClusterSpec, o: Option): (r: ClusterSpec)
    ensures Read(r, Owner(o)) == Written(o)
    ensures forall f :: f != Owner(o) ==> Read(r, f) == Read(s, f)
  {
    match o
    case Geo => s.(geo := true)
    case CPU(n) => s.(cpus := Set(n))
    case PreferLocalSSD => s.(localSSD := LocalSSDPreferOn)
    case DisableLocalSSD => s.(localSSD := LocalSSDDisable)
    case TerminateOnMigration => s.(terminateOnMigration := true)
    case Arch(a) => s.(arch := Set(a))
  }

  /** Applying the same option twice is the same as applying it once. */
  lemma ApplyIdempotent(s: ClusterSpec, o: Option)
    ensures Apply(Apply(s, o), o) == Apply(s, o)
  {
  }

  /** Options that own different fields can be applied in either order. */
  lemma ApplyCommutes(s: ClusterSpec, a: Option, b: Option)
    requires Owner(a) != Owner(b)
    ensures Apply(Apply(s, a), b) == Apply(Apply(s, b), a)
  {
  }

  /** Some option in `opts` owns field `f`. */
  predicate Touches(opts: seq<Option>, f: Field)
  {
    exists i :: 0 <= i < |opts| && Owner(opts[i]) == f
  }

  /** Every option in `opts` that owns `f` writes the same value `v`: the options
      never disagree about `f`, so no order between them has to be decided. */
  predicate Unanimous(opts: seq<Option>, f: Field, v: FieldValue)
  {
    forall i :: 0 <= i < |opts| && Owner(opts[i]) == f ==> Written(opts[i]) == v
  }

  /** Folds the options over a spec, first option first. Fields that no option owns
      come through unchanged. */
  function ApplyAll(s: ClusterSpec, opts: seq<Option>): (r: ClusterSpec)
    ensures forall f :: !Touches(opts, f) ==> Read(r, f) == Read(s, f)
    decreases |opts|
  {
    if |opts| == 0 then s
    else
      var rest := opts[1..];
      assert forall f :: !Touches(opts, f) ==> !Touches(rest, f) && f != Owner(opts[0]);
      ApplyAll(Apply(s, opts[0]), rest)
  }

  /** A field that the options touch, and on which they agree, ends up with the agreed
      value, whatever else the options set and in whatever order they come. */
  lemma {:induction false} ApplyAllUnanimous(s: ClusterSpec, opts: seq<Option>, f: Field, v: FieldValue)
    requires Touches(opts, f)
    requires Unanimous(opts, f, v)
    ensures Read(ApplyAll(s, opts), f) == v
    decreases |opts|
  {
    var rest := opts[1..];
    var next := Apply(s, opts[0]);
    assert ApplyAll(s, opts) == ApplyAll(next, rest);
    assert Unanimous(rest, f, v) by {
      forall i | 0 <= i < |rest| && Owner(rest[i]) == f ensures Written(rest[i]) == v {
        assert rest[i] == opts[i + 1];
      }
    }
    if Owner(opts[0]) == f {
      assert Read(next, f) == v;
      if Touches(rest, f) {
        ApplyAllUnanimous(next, rest, f, v);
      }
    } else {
      var i :| 0 <= i < |opts| && Owner(opts[i]) == f;
      assert i != 0 && rest[i - 1] == opts[i];
      ApplyAllUnanimous(next, rest, f, v);
    }
  }

  /** The staging spec every build starts from: the cloud and node count given, every
      other field at its default (CPUs and architecture left to the provider). */
  function Seed(cloud: Cloud, nodeCount: int): ClusterSpec
  {
    ClusterSpec(cloud, nodeCount, Unset, false, LocalSSDDefault, false, Unset)
  }

  /** Builds a spec for `cloud` with `nodeCount` nodes from a fresh seed and the options.
      Nothing but the arguments goes in, so nothing carries over from one call to the next. */
  function MakeClusterSpec(cloud: Cloud, nodeCount: int, opts: seq<Option>): (s: ClusterSpec)
    ensures s.cloud == cloud && s.nodeCount == nodeCount
    ensures !Touches(opts, CPUsField) ==> s.cpus == Unset
    ensures !Touches(opts, GeoField) ==> !s.geo
    ensures !Touches(opts, LocalSSDField) ==> s.localSSD == LocalSSDDefault
    ensures !Touches(opts, TerminateOnMigrationField) ==> !s.terminateOnMigration
    ensures !Touches(opts, ArchField) ==> s.arch == Unset
  {
    assert !Touches(opts, CloudField) && !Touches(opts, NodeCountField) by {
      forall i | 0 <= i < |opts| ensures Owner(opts[i]) != CloudField && Owner(opts[i]) != NodeCountField {
        SeedFieldsUnowned(opts[i]);
      }
    }
    ApplyAll(Seed(cloud, nodeCount), opts)
  }

  /** Every option in a call takes effect, provided no other option in that call
      writes a different value into the same field. */
  lemma OptionTakesEffect(cloud: Cloud, nodeCount: int, opts: seq<Option>, i: int)
    requires 0 <= i < |opts|
    requires Unanimous(opts, Owner(opts[i]), Written(opts[i]))
    ensures Read(MakeClusterSpec(cloud, nodeCount, opts), Owner(opts[i])) == Written(opts[i])
  {
    ApplyAllUnanimous(Seed(cloud, nodeCount), opts, Owner(opts[i]), Written(opts[i]));
  }
}
