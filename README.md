# Partitioned search phase configuration, modelled in Dafny

This project models the configuration layer of OptaPlanner's partitioned search phase,
`PartitionedSearchPhaseConfig`. That class turns a configuration into a
`DefaultPartitionedSearchPhase`. Building a phase does five things:

- It resolves the runnable-thread limit (`runnablePartThreadLimit`) into a cap, or into no cap.
  The limit is `"AUTO"` or null, `"UNLIMITED"`, or a script.
- It builds the solution partitioner from its configured class. The build fails when no class is given.
- It chooses the thread factory for the per-phase thread pool.
- It defaults the nested phase list to a construction heuristic followed by a local search.
- It switches on assertion flags according to the environment mode.

A configuration also inherits unset (null) fields from a parent configuration.

Files:

- `wrappers.dfy`: `Option` (a Java reference that may be null) and `Result` (a value, or the exception thrown instead).
- `partitioned_search_phase.dfy`: the values the builder hands to the phase (partitioner, thread pool arguments, cap,
  nested phase list, child-thread policy, assertion flags), and the phase class whose fields receive them.
- `partitioned_search_config.dfy`: the configuration class, the pure resolution and assembly functions, and inheritance.

`PartitionedSearchPhaseConfig` reads some values from its environment. Here they are parameters:

- the available processor count;
- the integer that the limit script evaluates to;
- the two assertion predicates of the environment mode (`isNonIntrusiveFullAsserted`, `isIntrusiveFastAsserted`);
- the merge rules of the two mergeable fields.

With these as parameters, every operation is deterministic.
The pure parts (`ResolveActiveThreadCount`, `BuildSolutionPartitioner`, `BuildThreadPoolExecutor`,
`EffectivePhaseConfigList`) are functions. `AssembledPhase` is a function that specifies what `buildPhase` produces.
`BuildPhase` and `Inherit` are methods of the configuration class:

- `BuildPhase` allocates a phase and sets its fields one after another, as the Java code's setters do.
- `Inherit` reassigns the configuration's own fields in place.

Without a partitioner class, building throws `IllegalStateException` when custom properties are set and
`UnsupportedOperationException` otherwise (`PartitionedSearchPhaseConfig.java`, lines 175-180). The model has
these two exceptions.

## Model

| member | source | states |
|---|---|---|
| `PartitionedSearchConfig.ResolveActiveThreadCount` | optaplanner-core/src/main/java/org/optaplanner/core/config/partitionedsearch/PartitionedSearchPhaseConfig.java:198-221 | A null or `"AUTO"` limit gives the cap max(1, processors - 2), which lies between 1 and max(1, processors). The result is "no cap" exactly when the limit is `"UNLIMITED"`. The build fails with `IllegalArgumentException` (carrying the limit and the value) exactly when the limit is a script whose value is below 1. A script value of 1 or more is returned unchanged, even above the processor count. Every cap returned is at least 1. The oversubscription debug log is written exactly when a script value exceeds the processor count. |
| `PartitionedSearchConfig.BuildSolutionPartitioner` | optaplanner-core/src/main/java/org/optaplanner/core/config/partitionedsearch/PartitionedSearchPhaseConfig.java:167-182 | A partitioner is returned exactly when a class is configured; it is made from that class with the custom properties. Without a class, the exception is `IllegalStateException` if custom properties are set and `UnsupportedOperationException` if they are not. |
| `PartitionedSearchConfig.BuildThreadPoolExecutor` | optaplanner-core/src/main/java/org/optaplanner/core/config/partitionedsearch/PartitionedSearchPhaseConfig.java:184-196 | The pool uses the configured factory class exactly when one is set, and otherwise the default factory with the `"PartThread"` prefix. It has 0 core threads, at most Integer.MAX_VALUE threads and a 60-second keep-alive. |
| `PartitionedSearchConfig.EffectivePhaseConfigList` | optaplanner-core/src/main/java/org/optaplanner/core/config/partitionedsearch/PartitionedSearchPhaseConfig.java:148-154 | A null or empty list becomes exactly [default construction heuristic, default local search]. A non-empty list is passed on unchanged. The result is never empty. |
| `PartitionedSearchConfig.AssembledPhase` | optaplanner-core/src/main/java/org/optaplanner/core/config/partitionedsearch/PartitionedSearchPhaseConfig.java:139-165 | Without a partitioner class, building fails with the partitioner's exception, whatever the limit. Building succeeds exactly when a class is set and the limit resolves. Otherwise the exception is `IllegalArgumentException`. On success the phase has the given index, the partitioner, the thread pool, the resolved cap, the effective nested list and a part-thread policy. `assertStepScoreFromScratch` is on when the mode is non-intrusive-full-asserted. `assertExpectedStepScore` and `assertShadowVariablesAreNotStaleAfterStep` are on when the mode is intrusive-fast-asserted. A flag whose predicate is false keeps the new phase's value. The cap is absent or at least 1, and the nested list is non-empty. |
| `PartitionedSearchConfig.PartitionedSearchPhaseConfig.BuildPhase` | optaplanner-core/src/main/java/org/optaplanner/core/config/partitionedsearch/PartitionedSearchPhaseConfig.java:139-165 | The setter sequence on a freshly allocated phase ends in exactly the settings that `AssembledPhase` gives for the configuration's current fields. It fails exactly when that function fails, with the same exception. |
| `PartitionedSearchConfig.PartitionedSearchPhaseConfig.constructor` | optaplanner-core/src/main/java/org/optaplanner/core/config/partitionedsearch/PartitionedSearchPhaseConfig.java:57-68 | Every field of a new configuration is unset (null), so that it can be inherited. |
| `PartitionedSearchConfig.InheritOverwritableProperty` | optaplanner-core/src/main/java/org/optaplanner/core/config/partitionedsearch/PartitionedSearchPhaseConfig.java:226-233 | The result is either the own value or the inherited one, and the own value wins when it is set. The result is set exactly when either value is set. |
| `PartitionedSearchConfig.Inherited` | optaplanner-core/src/main/java/org/optaplanner/core/config/partitionedsearch/PartitionedSearchPhaseConfig.java:224-236 | `solutionPartitionerClass`, `threadFactoryClass` and `runnablePartThreadLimit` keep the child's value when it is set, and otherwise take the parent's. The custom properties and the nested phase list are the results of their merge rules. |
| `PartitionedSearchConfig.PartitionedSearchPhaseConfig.Inherit` | optaplanner-core/src/main/java/org/optaplanner/core/config/partitionedsearch/PartitionedSearchPhaseConfig.java:224-236 | After the call, the configuration's fields are `Inherited(old fields, parent's old fields)`. The parent is unchanged when it is another object. |
| `PartitionedSearchConfig.NearestSet` | optaplanner-core/src/main/java/org/optaplanner/core/config/partitionedsearch/PartitionedSearchPhaseConfig.java:57-58 | The result is unset exactly when every value is unset. Otherwise it is the value at the first set position. |
| `PartitionedSearchConfig.HierarchyTakesNearestSetValue` | optaplanner-core/src/main/java/org/optaplanner/core/config/partitionedsearch/PartitionedSearchPhaseConfig.java:224-236 | Suppose each configuration in a chain inherits from the next one. Then each overwritable field of the first configuration is the value of the nearest configuration in the chain that sets it. |
| `PartitionedSearchConfig.HierarchyWithoutLimitResolvesAuto` | optaplanner-core/src/main/java/org/optaplanner/core/config/partitionedsearch/PartitionedSearchPhaseConfig.java:201-203 | When no configuration in an inheritance chain sets the limit, the inherited limit resolves as AUTO: the cap max(1, processors - 2), with no log. |
| `PartitionedSearchConfig.InheritTwiceFromSameParent` | optaplanner-core/src/main/java/org/optaplanner/core/config/partitionedsearch/PartitionedSearchPhaseConfig.java:226-233 | Inheriting again from the same parent leaves the three overwritable fields as the first inheritance left them. |
| `PartitionedSearchPhase.DefaultPartitionedSearchPhase.constructor` | optaplanner-core/src/main/java/org/optaplanner/core/config/partitionedsearch/PartitionedSearchPhaseConfig.java:142-144 | A new phase has its index and nothing else set, and every assertion flag is off. |

## Left out

- `IncrementalScoreDirectorFactory.java`: it only instantiates the calculator class reflectively and passes it to a constructor. There is nothing to state about it.
- Reflection (`ConfigUtils.newInstance`, `ConfigUtils.applyCustomProperties`): a partitioner is recorded as its class plus its custom properties. Failures to instantiate a class are not modelled.
- `ConfigUtils.resolveThreadPoolSizeScript` (JavaScript evaluation): it is replaced by the integer parameter `scriptValue`. Script evaluation errors are not modelled.
- `Runtime.availableProcessors()`: it is the parameter `availableProcessorCount`.
- `EnvironmentMode` is not part of this model. Its two predicates are the booleans of `EnvironmentModeChecks`.
- `ConfigUtils.inheritMergeableMapProperty` and `ConfigUtils.inheritMergeableListConfig` are not part of this model. Their merge rules are function parameters of `Inherit` and `Inherited`.
- InheritTwiceFromSameParent: covers the three overwritable fields only, because idempotence of the two mergeable fields depends on merge rules that are not part of this model.
- `super.inherit`, `buildPhaseTermination`, the log indentation, the best-solution recaller and the solver termination come from `PhaseConfig` and the solver, which are not part of this model.
- Configuration policies (`createPhaseConfigPolicy`, `createChildThreadConfigPolicy`): only the child-thread type handed to the phase (`PART_THREAD`) is recorded.
- `DefaultPartitionedSearchPhase` is not part of this model beyond its fields. Its constructor is taken to leave the assertion flags off (the Java default for boolean fields).
- Runtime behaviour of the phase and the thread pool (worker threads, runnable-thread throttling, termination, merging of partition results) is concurrency code that is not part of this model.
- Logging: only whether the oversubscription debug message is written is recorded, as a boolean of the resolution.
- Shared list reference: when a non-empty nested phase list is configured, the Java code hands the configuration's own `List` object to the phase, so both share one mutable list. The model passes the list as a value, so that sharing is not modelled.
- Getters and setters (lines 74-132) are direct field access in the model.
- Java `int` width: the script value is an unbounded integer. No arithmetic in the core can overflow: the only subtraction, processors - 2, happens only when there are more than 2 processors.
