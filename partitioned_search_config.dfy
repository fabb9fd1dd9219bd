/**
 * The configuration of a partitioned search phase and how it is turned into a phase:
 * resolving the runnable-thread limit, choosing the partitioner and the thread factory,
 * defaulting the nested phase list, switching on assertion flags, and inheriting unset
 * fields from a parent configuration.
 *
 * What the Java code takes from its environment is a parameter here: the available processor
 * count, the value the limit script evaluates to, the two assertion predicates of the
 * environment mode, and the merge rules for the two mergeable fields.
 */
module PartitionedSearchConfig {
  import opened Wrappers
  import opened PartitionedSearchPhase

  const ACTIVE_THREAD_COUNT_AUTO: string := "AUTO"
  const ACTIVE_THREAD_COUNT_UNLIMITED: string := "UNLIMITED"

  /** Name prefix of the threads made by the default thread factory. */
  const PART_THREAD_PREFIX: string := "PartThread"

  /** Java's Integer.MAX_VALUE, the thread pool's maximum size. */
  const INTEGER_MAX_VALUE: int := 0x7fff_ffff

  /** Idle worker threads are kept alive this many seconds. */
  const KEEP_ALIVE_SECONDS: int := 60

  /** The exceptions that building a phase can throw. */
  datatype ConfigError =
    | IllegalStateException
    | UnsupportedOperationException
    | IllegalArgumentException(runnablePartThreadLimit: string, resolvedActiveThreadCount: int)

  /** The two predicates of the environment mode that decide which assertions the phase runs. */
  datatype EnvironmentModeChecks = EnvironmentModeChecks(nonIntrusiveFullAsserted: bool, intrusiveFastAsserted: bool)

  /**
   * A resolved runnable-thread limit: a cap, or `None` for unlimited; and whether the
   * resolution logged that the cap exceeds the available processors.
   */
  datatype ThreadCountResolution = ThreadCountResolution(cap: Option<int>, oversubscriptionLogged: bool)

  /** The fields of a configuration, each `None` while unset (null), so that it can be inherited. */
  datatype ConfigValues = ConfigValues(
    solutionPartitionerClass: Option<ClassName>,
    solutionPartitionerCustomProperties: Option<Properties>,
    threadFactoryClass: Option<ClassName>,
    runnablePartThreadLimit: Option<string>,
    phaseConfigList: Option<seq<PhaseConfig>>)

  /** How a mergeable field combines its own value with the inherited one. */
  type PropertiesMerge = (Option<Properties>, Option<Properties>) -> Option<Properties>
  type PhaseConfigListMerge = (Option<seq<PhaseConfig>>, Option<seq<PhaseConfig>>) -> Option<seq<PhaseConfig>>

  function Max(a: int, b: int): int
  {
    if a < b then b else a
  }

  // ---------------------------------------------------------------------------
  // Runnable-thread limit
  // ---------------------------------------------------------------------------

  /** An unset limit means AUTO. */
  predicate IsAutoLimit(limit: Option<string>)
  {
    limit.None? || limit.value == ACTIVE_THREAD_COUNT_AUTO
  }

  /** A limit that is neither AUTO nor UNLIMITED is a script to evaluate. */
  predicate IsScriptLimit(limit: Option<string>)
  {
    limit.Some? && limit.value != ACTIVE_THREAD_COUNT_AUTO && limit.value != ACTIVE_THREAD_COUNT_UNLIMITED
  }

  /**
   * Resolves the runnable-thread limit. AUTO keeps two processors free (one for the
   * operating system, one for the solver thread) but never goes below one; UNLIMITED
   * means no cap; any other limit takes the value its script evaluates to, which must be
   * at least one and may exceed the processor count (that is only logged).
   */
  function ResolveActiveThreadCount(limit: Option<string>, availableProcessorCount: int, scriptValue: int)
    : (r: Result<ThreadCountResolution, ConfigError>)
    ensures IsAutoLimit(limit) ==>
              r.Success? && r.value.cap == Some(Max(1, availableProcessorCount - 2))
              && 1 <= r.value.cap.value <= Max(1, availableProcessorCount)
    ensures (r.Success? && r.value.cap.None?) <==> limit == Some(ACTIVE_THREAD_COUNT_UNLIMITED)
    ensures r.Success? && r.value.cap.Some? ==> r.value.cap.value >= 1
    ensures r.Failure? <==> IsScriptLimit(limit) && scriptValue < 1
    ensures r.Failure? ==> r.error == IllegalArgumentException(limit.value, scriptValue)
    ensures IsScriptLimit(limit) && scriptValue >= 1 ==> r.Success? && r.value.cap == Some(scriptValue)
    ensures r.Success? ==>
              (r.value.oversubscriptionLogged <==> IsScriptLimit(limit) && scriptValue > availableProcessorCount)
  {
    if limit.None? || limit.value == ACTIVE_THREAD_COUNT_AUTO then
      Success(ThreadCountResolution(Some(if availableProcessorCount <= 2 then 1 else availableProcessorCount - 2), false))
    else if limit.value == ACTIVE_THREAD_COUNT_UNLIMITED then
      Success(ThreadCountResolution(None, false))
    else if scriptValue < 1 then
      Failure(IllegalArgumentException(limit.value, scriptValue))
    else
      Success(ThreadCountResolution(Some(scriptValue), scriptValue > availableProcessorCount))
  }

  // ---------------------------------------------------------------------------
  // Partitioner, thread pool and nested phases
  // ---------------------------------------------------------------------------

  /**
   * The partitioner is made only from a configured class. Without one, building fails,
   * and custom properties given without a class are reported as a distinct error.
   */
  function BuildSolutionPartitioner(partitionerClass: Option<ClassName>, customProperties: Option<Properties>)
    : (r: Result<SolutionPartitioner, ConfigError>)
    ensures r.Success? <==> partitionerClass.Some?
    ensures r.Success? ==> r.value.partitionerClass == partitionerClass.value
                           && r.value.customProperties == customProperties
    ensures r.Failure? ==> (r.error.IllegalStateException? <==> customProperties.Some?)
    ensures r.Failure? ==> (r.error.UnsupportedOperationException? <==> customProperties.None?)
  {
    if partitionerClass.Some? then
      Success(SolutionPartitioner(partitionerClass.value, customProperties))
    else if customProperties.Some? then
      Failure(IllegalStateException)
    else
      Failure(UnsupportedOperationException)
  }

  /**
   * The per-phase thread pool: no core threads, no bound on the number of threads, idle
   * threads dropped after a minute; threads come from the configured factory class if
   * there is one and otherwise from the default factory naming them "PartThread".
   */
  function BuildThreadPoolExecutor(threadFactoryClass: Option<ClassName>): (r: ThreadPoolExecutor)
    ensures r.threadFactory.CustomThreadFactory? <==> threadFactoryClass.Some?
    ensures r.threadFactory.CustomThreadFactory? ==> r.threadFactory.factoryClass == threadFactoryClass.value
    ensures r.threadFactory.DefaultSolverThreadFactory? ==> r.threadFactory.threadPrefix == PART_THREAD_PREFIX
    ensures r.corePoolSize == 0 && r.maximumPoolSize == INTEGER_MAX_VALUE && r.keepAliveSeconds == KEEP_ALIVE_SECONDS
  {
    var factory := if threadFactoryClass.Some? then CustomThreadFactory(threadFactoryClass.value)
                   else DefaultSolverThreadFactory(PART_THREAD_PREFIX);
    ThreadPoolExecutor(0, INTEGER_MAX_VALUE, KEEP_ALIVE_SECONDS, factory)
  }

  /** A null list and an empty list are both an empty collection. */
  predicate IsEmptyCollection<T>(list: Option<seq<T>>)
  {
    list.None? || list.value == []
  }

  /** The nested phases run on each partition when none are configured. */
  function DefaultPhaseConfigList(): seq<PhaseConfig>
  {
    [ConstructionHeuristicPhaseConfig(map[]), LocalSearchPhaseConfig(map[])]
  }

  /**
   * The nested phase list handed to the phase: the configured one when it has an element,
   * otherwise a construction heuristic followed by a local search.
   */
  function EffectivePhaseConfigList(phaseConfigList: Option<seq<PhaseConfig>>): (r: seq<PhaseConfig>)
    ensures |r| > 0
    ensures IsEmptyCollection(phaseConfigList) ==>
              |r| == 2 && r[0].ConstructionHeuristicPhaseConfig? && r[1].LocalSearchPhaseConfig?
              && r[0].settings == map[] && r[1].settings == map[]
    ensures !IsEmptyCollection(phaseConfigList) ==> r == phaseConfigList.value
  {
    if IsEmptyCollection(phaseConfigList) then DefaultPhaseConfigList() else phaseConfigList.value
  }

  /**
   * What building a phase from `config` yields: the settings of the phase, or the exception.
   * The partitioner is built before the limit is resolved, so a missing partitioner class is
   * reported whatever the limit. Each assertion flag is switched on by its predicate and
   * otherwise keeps the value the new phase started with.
   */
  function AssembledPhase(config: ConfigValues, phaseIndex: int, environment: EnvironmentModeChecks,
                          availableProcessorCount: int, scriptValue: int): (r: Result<PhaseSettings, ConfigError>)
    ensures config.solutionPartitionerClass.None? ==>
              r == Failure(if config.solutionPartitionerCustomProperties.Some? then IllegalStateException
                           else UnsupportedOperationException)
    ensures r.Success? <==>
              config.solutionPartitionerClass.Some?
              && ResolveActiveThreadCount(config.runnablePartThreadLimit, availableProcessorCount, scriptValue).Success?
    ensures r.Failure? && config.solutionPartitionerClass.Some? ==> r.error.IllegalArgumentException?
    ensures r.Success? ==>
              var s := r.value;
              var initial := InitialPhaseSettings(phaseIndex);
              s.phaseIndex == phaseIndex
              && s.solutionPartitioner ==
                 Some(SolutionPartitioner(config.solutionPartitionerClass.value, config.solutionPartitionerCustomProperties))
              && s.threadPoolExecutor == Some(BuildThreadPoolExecutor(config.threadFactoryClass))
              && s.runnablePartThreadLimit ==
                 ResolveActiveThreadCount(config.runnablePartThreadLimit, availableProcessorCount, scriptValue).value.cap
              && s.phaseConfigList == Some(EffectivePhaseConfigList(config.phaseConfigList))
              && s.childThreadType == Some(PartThread)
              && s.assertStepScoreFromScratch == (environment.nonIntrusiveFullAsserted || initial.assertStepScoreFromScratch)
              && s.assertExpectedStepScore == (environment.intrusiveFastAsserted || initial.assertExpectedStepScore)
              && s.assertShadowVariablesAreNotStaleAfterStep ==
                 (environment.intrusiveFastAsserted || initial.assertShadowVariablesAreNotStaleAfterStep)
    ensures r.Success? ==>
              (r.value.runnablePartThreadLimit.None? || r.value.runnablePartThreadLimit.value >= 1)
              && r.value.phaseConfigList.Some? && |r.value.phaseConfigList.value| > 0
  {
    var partitioner := BuildSolutionPartitioner(config.solutionPartitionerClass, config.solutionPartitionerCustomProperties);
    if partitioner.Failure? then Failure(partitioner.error)
    else
      var resolved := ResolveActiveThreadCount(config.runnablePartThreadLimit, availableProcessorCount, scriptValue);
      if resolved.Failure? then Failure(resolved.error)
      else
        var built := InitialPhaseSettings(phaseIndex).(
          solutionPartitioner := Some(partitioner.value),
          threadPoolExecutor := Some(BuildThreadPoolExecutor(config.threadFactoryClass)),
          runnablePartThreadLimit := resolved.value.cap,
          phaseConfigList := Some(EffectivePhaseConfigList(config.phaseConfigList)),
          childThreadType := Some(PartThread));
        var fullAsserted := if environment.nonIntrusiveFullAsserted then built.(assertStepScoreFromScratch := true) else built;
        var fastAsserted := if environment.intrusiveFastAsserted
                            then fullAsserted.(assertExpectedStepScore := true, assertShadowVariablesAreNotStaleAfterStep := true)
                            else fullAsserted;
        Success(fastAsserted)
  }

  // ---------------------------------------------------------------------------
  // Inheritance
  // ---------------------------------------------------------------------------

  /** An overwritable property: the own value wins when set; an unset one takes the inherited value. */
  function InheritOverwritableProperty<T>(original: Option<T>, inherited: Option<T>): (r: Option<T>)
    ensures r == original || r == inherited
    ensures original.Some? ==> r == original
    ensures r.Some? <==> original.Some? || inherited.Some?
  {
    if original.Some? then original else inherited
  }

  /**
   * The values of `child` after it inherits from `parent`: each overwritable field as
   * `InheritOverwritableProperty` says, each mergeable field by its merge rule.
   */
  function Inherited(child: ConfigValues, parent: ConfigValues,
                     mergeProperties: PropertiesMerge, mergePhaseConfigLists: PhaseConfigListMerge): (r: ConfigValues)
    ensures child.solutionPartitionerClass.Some? ==> r.solutionPartitionerClass == child.solutionPartitionerClass
    ensures child.solutionPartitionerClass.None? ==> r.solutionPartitionerClass == parent.solutionPartitionerClass
    ensures child.threadFactoryClass.Some? ==> r.threadFactoryClass == child.threadFactoryClass
    ensures child.threadFactoryClass.None? ==> r.threadFactoryClass == parent.threadFactoryClass
    ensures child.runnablePartThreadLimit.Some? ==> r.runnablePartThreadLimit == child.runnablePartThreadLimit
    ensures child.runnablePartThreadLimit.None? ==> r.runnablePartThreadLimit == parent.runnablePartThreadLimit
    ensures r.solutionPartitionerCustomProperties ==
              mergeProperties(child.solutionPartitionerCustomProperties, parent.solutionPartitionerCustomProperties)
    ensures r.phaseConfigList == mergePhaseConfigLists(child.phaseConfigList, parent.phaseConfigList)
  {
    ConfigValues(
      InheritOverwritableProperty(child.solutionPartitionerClass, parent.solutionPartitionerClass),
      mergeProperties(child.solutionPartitionerCustomProperties, parent.solutionPartitionerCustomProperties),
      InheritOverwritableProperty(child.threadFactoryClass, parent.threadFactoryClass),
      InheritOverwritableProperty(child.runnablePartThreadLimit, parent.runnablePartThreadLimit),
      mergePhaseConfigLists(child.phaseConfigList, parent.phaseConfigList))
  }

  /**
   * The values the first configuration of `chain` ends up with when each configuration
   * inherits from the next one, which has already inherited from those after it.
   */
  function InheritedFromHierarchy(chain: seq<ConfigValues>,
                                  mergeProperties: PropertiesMerge, mergePhaseConfigLists: PhaseConfigListMerge): ConfigValues
    requires |chain| > 0
    decreases |chain|
  {
    if |chain| == 1 then chain[0]
    else Inherited(chain[0], InheritedFromHierarchy(chain[1..], mergeProperties, mergePhaseConfigLists),
                   mergeProperties, mergePhaseConfigLists)
  }

  /** The first set value of `values`, or `None` when none is set. */
  function NearestSet<T>(values: seq<Option<T>>): (r: Option<T>)
    ensures r.None? <==> forall i :: 0 <= i < |values| ==> values[i].None?
    ensures r.Some? ==> exists i :: 0 <= i < |values| && values[i] == r
                                    && forall j :: 0 <= j < i ==> values[j].None?
  {
    if values == [] then None
    else if values[0].Some? then values[0]
    else NearestSet(values[1..])
  }

  function PartitionerClasses(chain: seq<ConfigValues>): seq<Option<ClassName>>
  {
    seq(|chain|, i requires 0 <= i < |chain| => chain[i].solutionPartitionerClass)
  }

  function ThreadFactoryClasses(chain: seq<ConfigValues>): seq<Option<ClassName>>
  {
    seq(|chain|, i requires 0 <= i < |chain| => chain[i].threadFactoryClass)
  }

  function RunnablePartThreadLimits(chain: seq<ConfigValues>): seq<Option<string>>
  {
    seq(|chain|, i requires 0 <= i < |chain| => chain[i].runnablePartThreadLimit)
  }

  /**
   * Along an inheritance hierarchy, every overwritable field takes the value of the nearest
   * configuration that sets it, starting from the child itself; it stays unset only when no
   * configuration sets it.
   */
  lemma {:induction false} HierarchyTakesNearestSetValue(chain: seq<ConfigValues>,
                                                         mergeProperties: PropertiesMerge,
                                                         mergePhaseConfigLists: PhaseConfigListMerge)
    requires |chain| > 0
    ensures InheritedFromHierarchy(chain, mergeProperties, mergePhaseConfigLists).solutionPartitionerClass
            == NearestSet(PartitionerClasses(chain))
    ensures InheritedFromHierarchy(chain, mergeProperties, mergePhaseConfigLists).threadFactoryClass
            == NearestSet(ThreadFactoryClasses(chain))
    ensures InheritedFromHierarchy(chain, mergeProperties, mergePhaseConfigLists).runnablePartThreadLimit
            == NearestSet(RunnablePartThreadLimits(chain))
    decreases |chain|
  {
    if |chain| == 1 {
      assert PartitionerClasses(chain)[1..] == [];
      assert ThreadFactoryClasses(chain)[1..] == [];
      assert RunnablePartThreadLimits(chain)[1..] == [];
    } else {
      HierarchyTakesNearestSetValue(chain[1..], mergeProperties, mergePhaseConfigLists);
      assert PartitionerClasses(chain)[1..] == PartitionerClasses(chain[1..]);
      assert ThreadFactoryClasses(chain)[1..] == ThreadFactoryClasses(chain[1..]);
      assert RunnablePartThreadLimits(chain)[1..] == RunnablePartThreadLimits(chain[1..]);
    }
  }

  /**
   * When no configuration of a hierarchy sets the runnable-thread limit, the inherited
   * limit resolves as AUTO: a cap of one, or the processor count less two.
   */
  lemma {:induction false} HierarchyWithoutLimitResolvesAuto(chain: seq<ConfigValues>,
                                          mergeProperties: PropertiesMerge, mergePhaseConfigLists: PhaseConfigListMerge,
                                          availableProcessorCount: int, scriptValue: int)
    requires |chain| > 0
    requires forall i :: 0 <= i < |chain| ==> chain[i].runnablePartThreadLimit.None?
    ensures ResolveActiveThreadCount(
              InheritedFromHierarchy(chain, mergeProperties, mergePhaseConfigLists).runnablePartThreadLimit,
              availableProcessorCount, scriptValue)
            == Success(ThreadCountResolution(Some(Max(1, availableProcessorCount - 2)), false))
  {
    HierarchyTakesNearestSetValue(chain, mergeProperties, mergePhaseConfigLists);
  }

  /**
   * Inheriting twice from the same parent changes nothing more than inheriting once, for
   * the overwritable fields; the mergeable fields are as idempotent as their merge rules.
   */
  lemma InheritTwiceFromSameParent(child: ConfigValues, parent: ConfigValues,
                                   mergeProperties: PropertiesMerge, mergePhaseConfigLists: PhaseConfigListMerge)
    ensures var once := Inherited(child, parent, mergeProperties, mergePhaseConfigLists);
            var twice := Inherited(once, parent, mergeProperties, mergePhaseConfigLists);
            twice.solutionPartitionerClass == once.solutionPartitionerClass
            && twice.threadFactoryClass == once.threadFactoryClass
            && twice.runnablePartThreadLimit == once.runnablePartThreadLimit
  {
  }

  // ---------------------------------------------------------------------------
  // The configuration object
  // ---------------------------------------------------------------------------

  class PartitionedSearchPhaseConfig {
    var solutionPartitionerClass: Option<ClassName>
    var solutionPartitionerCustomProperties: Option<Properties>
    var threadFactoryClass: Option<ClassName>
    var runnablePartThreadLimit: Option<string>
    var phaseConfigList: Option<seq<PhaseConfig>>

    function Values(): ConfigValues
      reads this
    {
      ConfigValues(solutionPartitionerClass, solutionPartitionerCustomProperties, threadFactoryClass,
                   runnablePartThreadLimit, phaseConfigList)
    }

    /** Every field starts unset, so that it can be inherited. */
    constructor ()
      ensures Values() == ConfigValues(None, None, None, None, None)
    {
      solutionPartitionerClass := None;
      solutionPartitionerCustomProperties := None;
      threadFactoryClass := None;
      runnablePartThreadLimit := None;
      phaseConfigList := None;
    }

    /**
     * Builds the phase: a new phase object receives the partitioner, the thread pool, the
     * resolved cap, the nested phase list, a part-thread configuration policy and the
     * assertion flags, in that order; an exception leaves no phase.
     */
    method BuildPhase(phaseIndex: int, environment: EnvironmentModeChecks,
                      availableProcessorCount: int, scriptValue: int)
      returns (r: Result<DefaultPartitionedSearchPhase, ConfigError>)
      ensures r.Success? <==> AssembledPhase(Values(), phaseIndex, environment, availableProcessorCount, scriptValue).Success?
      ensures r.Failure? ==>
                r.error == AssembledPhase(Values(), phaseIndex, environment, availableProcessorCount, scriptValue).error
      ensures r.Success? ==>
                fresh(r.value)
                && r.value.Settings() ==
                   AssembledPhase(Values(), phaseIndex, environment, availableProcessorCount, scriptValue).value
    {
      var phase := new DefaultPartitionedSearchPhase(phaseIndex);
      var partitioner := BuildSolutionPartitioner(solutionPartitionerClass, solutionPartitionerCustomProperties);
      if partitioner.Failure? {
        return Failure(partitioner.error);
      }
      phase.solutionPartitioner := Some(partitioner.value);
      phase.threadPoolExecutor := Some(BuildThreadPoolExecutor(threadFactoryClass));
      var resolved := ResolveActiveThreadCount(runnablePartThreadLimit, availableProcessorCount, scriptValue);
      if resolved.Failure? {
        return Failure(resolved.error);
      }
      phase.runnablePartThreadLimit := resolved.value.cap;
      phase.phaseConfigList := Some(EffectivePhaseConfigList(phaseConfigList));
      phase.childThreadType := Some(PartThread);
      if environment.nonIntrusiveFullAsserted {
        phase.assertStepScoreFromScratch := true;
      }
      if environment.intrusiveFastAsserted {
        phase.assertExpectedStepScore := true;
        phase.assertShadowVariablesAreNotStaleAfterStep := true;
      }
      r := Success(phase);
    }

    /**
     * Inherits from `inherited`: the overwritable fields keep their own value when set and
     * take the inherited one otherwise; the two mergeable fields follow their merge rules.
     * Only this configuration changes.
     */
    method Inherit(inherited: PartitionedSearchPhaseConfig,
                   mergeProperties: PropertiesMerge, mergePhaseConfigLists: PhaseConfigListMerge)
      modifies this
      ensures Values() == Inherited(old(Values()), old(inherited.Values()), mergeProperties, mergePhaseConfigLists)
      ensures inherited != this ==> inherited.Values() == old(inherited.Values())
    {
      solutionPartitionerClass :=
        InheritOverwritableProperty(solutionPartitionerClass, inherited.solutionPartitionerClass);
      solutionPartitionerCustomProperties :=
        mergeProperties(solutionPartitionerCustomProperties, inherited.solutionPartitionerCustomProperties);
      threadFactoryClass := InheritOverwritableProperty(threadFactoryClass, inherited.threadFactoryClass);
      runnablePartThreadLimit :=
        InheritOverwritableProperty(runnablePartThreadLimit, inherited.runnablePartThreadLimit);
      phaseConfigList := mergePhaseConfigLists(phaseConfigList, inherited.phaseConfigList);
    }
  }
}
