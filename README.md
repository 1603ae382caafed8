# roachtest test registry: cluster specs and metric names

This project models two small, pure behaviours of CockroachDB's roachtest test registry.

1. **Cluster-spec construction through functional options.** A test registry is bound to
   one cloud. `r.MakeClusterSpec(nodeCount, opts...)` starts from a fresh default spec for
   that cloud and node count. It then applies the options in the order given: `Geo()`,
   `CPU(n)`, `PreferLocalSSD()`, `DisableLocalSSD()`, `TerminateOnMigration()` and
   `Arch(a)`. Each option owns exactly one field (`Geo`, `CPUs`, `LocalSSD`,
   `TerminateOnMigration`, `Arch`) and leaves every other field alone. The cloud and the
   node count come only from the registry and the call.
2. **Metric-name sanitisation (`registry.PromSub`).** This is a total map from a test name
   to a Prometheus metric name. Each character outside `[a-zA-Z0-9_]` becomes one `_`, and
   every other character stays where it was.

Files:
- `spec.dfy`: module `Spec`. It holds the spec and option datatypes, one option's effect
  (`Apply`), the fold (`ApplyAll`) and the builder (`MakeClusterSpec`), with their lemmas.
- `registry.dfy`: module `Registry`. It holds `PromSub` and its lemmas.
- `roachtest.dfy`: module `Roachtest`. It holds the registry value, `makeTestRegistry`, and
  one lemma for each group of assertions in `test_registry_test.go`.

A field is described generically by `Field`, `Read`, `Owner` and `Written`. "Only this
field changes" can then be stated once for every option. `ReadDetermines` shows that `Read`
loses nothing, so two specs that agree on every field are equal.

`r.MakeClusterSpec(nodeCount, opts…)` (test_registry_test.go:27) takes no CPU count and
returns a bare spec with no error, so the model has no CPU seed and no error path.

## Model

| member | source | states |
|---|---|---|
| Spec.Apply | pkg/cmd/roachtest/test_registry_test.go:27-49 | applying an option sets the one field it owns to the option's value; every other field is unchanged |
| Spec.ApplyIdempotent | pkg/cmd/roachtest/test_registry_test.go:27-35 | applying the same option twice gives the same spec as applying it once |
| Spec.ApplyCommutes | pkg/cmd/roachtest/test_registry_test.go:41-49 | two options that own different fields give the same spec in either order, so a flag option does not disturb the CPU count |
| Spec.ApplyAll | pkg/cmd/roachtest/test_registry_test.go:27-49 | folding a list of options leaves every field that no option in the list owns as it was in the starting spec |
| Spec.ApplyAllUnanimous | pkg/cmd/roachtest/test_registry_test.go:27-49 | a field that some option in the list owns, where all such options write the same value, ends with that value, whatever else is in the list and in any order |
| Spec.MakeClusterSpec | pkg/cmd/roachtest/test_registry_test.go:27-39 | the built spec has the given cloud and node count; each field that no option owns is at its default (CPUs and arch unset, geo false, LocalSSD Default, TerminateOnMigration false) |
| Spec.OptionTakesEffect | pkg/cmd/roachtest/test_registry_test.go:27-49 | every option in a call shows up in the built spec, unless another option in the same call writes a different value into the same field |
| Roachtest.MakeTestRegistry | pkg/cmd/roachtest/test_registry_test.go:24-25 | a registry made for a cloud reports that cloud |
| Roachtest.TestRegistry.MakeClusterSpec | pkg/cmd/roachtest/test_registry_test.go:27-49 | a registry's spec has the registry's cloud and the requested node count; fields no option owns are at their defaults; every option takes effect unless another option in the call writes a different value into the same field |
| Roachtest.GeoCPUPreferLocalSSD | pkg/cmd/roachtest/test_registry_test.go:27-32 | `(100, Geo, CPU(12), PreferLocalSSD)` gives NodeCount 100, Geo true, CPUs 12 and LocalSSD PreferOn |
| Roachtest.GeoCPUDisableLocalSSD | pkg/cmd/roachtest/test_registry_test.go:34-36 | `(100, Geo, CPU(12), DisableLocalSSD)` gives LocalSSD Disable |
| Roachtest.GeoCPUDefaultLocalSSD | pkg/cmd/roachtest/test_registry_test.go:27-39 | on the same registry, after calls that gave PreferOn and Disable, `(100, Geo, CPU(12))` gives LocalSSD Default: nothing carries over between calls |
| Roachtest.CPUTerminateOnMigration | pkg/cmd/roachtest/test_registry_test.go:41-44 | `(100, CPU(4), TerminateOnMigration)` gives NodeCount 100, CPUs 4 and TerminateOnMigration true |
| Roachtest.CPUArchARM64 | pkg/cmd/roachtest/test_registry_test.go:46-49 | `(10, CPU(16), Arch(ARM64))` gives NodeCount 10, CPUs 16 and Arch ARM64 |
| Registry.PromChar | pkg/cmd/roachtest/test_registry_test.go:52-53 | each character maps to a legal metric-name character; a character is kept exactly when it is already legal, and any other becomes `_` |
| Registry.PromSub | pkg/cmd/roachtest/test_registry_test.go:52-60 | output has the input's length; a legal character is kept at its position and any other becomes one `_`; the output holds only legal metric-name characters |
| Registry.PromSubConcat | pkg/cmd/roachtest/test_registry_test.go:58-60 | sanitising a concatenation gives the concatenation of the sanitised parts (a single left-to-right, character-by-character pass) |
| Registry.PromSubFixedPoints | pkg/cmd/roachtest/test_registry_test.go:52-53 | sanitising leaves a string unchanged if and only if the string is already a legal name |
| Registry.PromSubIdempotent | pkg/cmd/roachtest/test_registry_test.go:52-53 | sanitising an already sanitised name changes nothing |
| Roachtest.PromSubRestoreName | pkg/cmd/roachtest/test_registry_test.go:58-60 | `PromSub("restore/nodes=4/duration") == "restore_nodes_4_duration"` |
| Roachtest.PromSubCollides | pkg/cmd/roachtest/test_registry_test.go:58-61 | two different raw names (`restore/nodes`, `restore=nodes`) sanitise to the same metric name, so sanitising loses information |
| Roachtest.PromSubKeepsLeadingDigit | pkg/cmd/roachtest/test_registry_test.go:52-53 | a name that starts with a digit is kept as it is: legality is checked one character at a time, not for the name as a whole |

## Left out

- `PromFactory()` and `NewGauge(...)`: they register metrics with the Prometheus client library, an outside collaborator with side effects. Name conflicts between registered metrics are left out with them.
- Validation when a spec is built (node count and CPU count must be positive; the architecture, SSD mode and migration policy must suit the cloud): the code returns a spec with no error path, and no cloud/architecture table is part of this model. `Cloud` and `CPUArch` are opaque enums.
- Default values for CPUs and architecture: they are not fixed anywhere in this model, so they stay `Unset` (left to the provider).
- Spec.ApplyAllUnanimous: it says nothing about any two options in one call that write different values into the same field (`PreferLocalSSD` with `DisableLocalSSD`, `CPU(4)` with `CPU(16)`, `Arch(ArchAMD64)` with `Arch(ArchARM64)`), and neither does `Spec.OptionTakesEffect`. The fold applies options first to last, but no test combines such options, so no resolution rule is stated as a property.
- Other option constructors and spec fields of the roachtest `spec` package (lifetimes, reuse policies, zones, …): they do not appear in this model.
- Registry.PromSub: characters are Dafny `char`s (Unicode scalar values), so a multi-byte UTF-8 character becomes one `_`. Invalid UTF-8 byte sequences in a Go string are not modelled.
- Registry.PromSub: it does not promise a full Prometheus metric name. Prometheus also allows `:`, which the sanitiser replaces, and it forbids a leading digit, which the sanitiser keeps (see `Roachtest.PromSubKeepsLeadingDigit`).
- Go `int` width: node and CPU counts are stored but never computed with, so they are unbounded `int`s.
- The `testing`/`testify` harness itself.
