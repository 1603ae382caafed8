/** The roachtest test registry, bound to one cloud, and the behaviour that
    pkg/cmd/roachtest/test_registry_test.go asserts of it and of `PromSub`.
 */
module Roachtest {
  import opened Spec
  import Registry

  /** A registry holds the cloud its cluster specs are made for. */
  datatype TestRegistry = TestRegistry(cloud: Cloud) {

    /** Makes a cluster spec for this registry's cloud. Each call starts from a fresh
        default spec, so the cloud and node count always come from the registry and
        the call, a field no option owns is at its default, and every option takes
        effect unless another option in the call writes a different value into its field. */
    function MakeClusterSpec(nodeCount: int, opts: seq<Option>): (s: ClusterSpec)
      ensures s.cloud == cloud && s.nodeCount == nodeCount
      ensures !Touches(opts, LocalSSDField) ==> s.localSSD == LocalSSDDefault
      ensures !Touches(opts, GeoField) ==> !s.geo
      ensures !Touches(opts, TerminateOnMigrationField) ==> !s.terminateOnMigration
      ensures !Touches(opts, CPUsField) ==> s.cpus == Unset
      ensures !Touches(opts, ArchField) ==> s.arch == Unset
      ensures forall i :: 0 <= i < |opts| && Unanimous(opts, Owner(opts[i]), Written(opts[i])) ==>
        Read(s, Owner(opts[i])) == Written(opts[i])
    {
      assert forall i :: 0 <= i < |opts| && Unanimous(opts, Owner(opts[i]), Written(opts[i])) ==>
        Read(Spec.MakeClusterSpec(cloud, nodeCount, opts), Owner(opts[i])) == Written(opts[i]) by {
        forall i | 0 <= i < |opts| && Unanimous(opts, Owner(opts[i]), Written(opts[i])) {
          OptionTakesEffect(cloud, nodeCount, opts, i);
        }
      }
      Spec.MakeClusterSpec(cloud, nodeCount, opts)
    }
  }

  /** A registry made for `cloud` reports `cloud`. */
  function MakeTestRegistry(cloud: Cloud): (r: TestRegistry)
    ensures r.cloud == cloud
  {
    TestRegistry(cloud)
  }

  /** `MakeClusterSpec(100, Geo(), CPU(12), PreferLocalSSD())`. */
  lemma GeoCPUPreferLocalSSD()
    ensures var s := MakeTestRegistry(AWS).MakeClusterSpec(100, [Geo, CPU(12), PreferLocalSSD]);
      s.nodeCount == 100 && s.geo && s.cpus == Set(12) && s.localSSD == LocalSSDPreferOn
  {
  }

  /** `MakeClusterSpec(100, Geo(), CPU(12), DisableLocalSSD())`. */
  lemma GeoCPUDisableLocalSSD()
    ensures MakeTestRegistry(AWS).MakeClusterSpec(100, [Geo, CPU(12), DisableLocalSSD]).localSSD
      == LocalSSDDisable
  {
  }

  /** `MakeClusterSpec(100, Geo(), CPU(12))` after the two calls above on the same
      registry: no SSD option, so the default, whatever earlier calls asked for. */
  lemma GeoCPUDefaultLocalSSD()
    ensures var r := MakeTestRegistry(AWS);
      r.MakeClusterSpec(100, [Geo, CPU(12), PreferLocalSSD]).localSSD == LocalSSDPreferOn &&
      r.MakeClusterSpec(100, [Geo, CPU(12), DisableLocalSSD]).localSSD == LocalSSDDisable &&
      r.MakeClusterSpec(100, [Geo, CPU(12)]).localSSD == LocalSSDDefault
  {
    GeoCPUPreferLocalSSD();
    GeoCPUDisableLocalSSD();
    var opts := [Geo, CPU(12)];
    assert !Touches(opts, LocalSSDField) by {
      assert Owner(opts[0]) == GeoField && Owner(opts[1]) == CPUsField;
    }
  }

  /** `MakeClusterSpec(100, CPU(4), TerminateOnMigration())`. */
  lemma CPUTerminateOnMigration()
    ensures var s := MakeTestRegistry(AWS).MakeClusterSpec(100, [CPU(4), TerminateOnMigration]);
      s.nodeCount == 100 && s.cpus == Set(4) && s.terminateOnMigration
  {
  }

  /** `MakeClusterSpec(10, CPU(16), Arch(ARM64))`. */
  lemma CPUArchARM64()
    ensures var s := MakeTestRegistry(AWS).MakeClusterSpec(10, [CPU(16), Arch(ArchARM64)]);
      s.nodeCount == 10 && s.cpus == Set(16) && s.arch == Set(ArchARM64)
  {
  }

  /** The sanitised form of `restore/nodes=4/duration`. */
  lemma PromSubRestoreName()
    ensures Registry.PromSub("restore/nodes=4/duration") == "restore_nodes_4_duration"
  {
  }

  /** Sanitising loses information: different test names can give the same metric name. */
  lemma PromSubCollides()
    ensures "restore/nodes" != "restore=nodes"
    ensures Registry.PromSub("restore/nodes") == Registry.PromSub("restore=nodes")
  {
  }

  /** Legality is per character only: a leading digit is kept, although a Prometheus
      metric name may not start with one. */
  lemma PromSubKeepsLeadingDigit()
    ensures Registry.PromSub("4nodes") == "4nodes"
  {
  }
}
