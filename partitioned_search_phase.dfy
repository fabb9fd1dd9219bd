/**
 * The partitioned search phase as its configuration builds it: the values that the builder
 * hands to the phase through its setters. How the phase later runs (worker threads,
 * termination, merging of partition results) is not part of this module.
 */
module PartitionedSearchPhase {
  import opened Wrappers

  /** A Java class named in the configuration, instantiated reflectively by the builder. */
  type ClassName = string

  /** A string-to-string property map, as in `solutionPartitionerCustomProperties`. */
  type Properties = map<string, string>

  /**
   * A nested phase descriptor. `settings` stands for the descriptor's own options,
   * which this model does not interpret; a default-constructed descriptor has none.
   */
  datatype PhaseConfig =
    | ConstructionHeuristicPhaseConfig(settings: Properties)
    | LocalSearchPhaseConfig(settings: Properties)
    | OtherPhaseConfig(kind: string, settings: Properties)

  /** A partitioner instantiated from its class, with the custom properties (if any) applied to it. */
  datatype SolutionPartitioner = SolutionPartitioner(partitionerClass: ClassName, customProperties: Option<Properties>)

  /** Where worker threads come from: a configured factory class, or the solver's default factory with a name prefix. */
  datatype ThreadFactory =
    | CustomThreadFactory(factoryClass: ClassName)
    | DefaultSolverThreadFactory(threadPrefix: string)

  /**
   * The constructor arguments of the per-phase thread pool. The work queue is always a direct
   * hand-off queue (no buffering), so it carries no parameter here.
   */
  datatype ThreadPoolExecutor = ThreadPoolExecutor(
    corePoolSize: int,
    maximumPoolSize: int,
    keepAliveSeconds: int,
    threadFactory: ThreadFactory)

  /** The kind of child thread a derived configuration policy is made for. */
  datatype ChildThreadType = PartThread | MoveThread

  /** Everything the builder sets on a phase; `None` is a property that was never set (null). */
  datatype PhaseSettings = PhaseSettings(
    phaseIndex: int,
    solutionPartitioner: Option<SolutionPartitioner>,
    threadPoolExecutor: Option<ThreadPoolExecutor>,
    runnablePartThreadLimit: Option<int>,
    phaseConfigList: Option<seq<PhaseConfig>>,
    childThreadType: Option<ChildThreadType>,
    assertStepScoreFromScratch: bool,
    assertExpectedStepScore: bool,
    assertShadowVariablesAreNotStaleAfterStep: bool)

  /** The settings of a phase just constructed for the given index, before any setter ran. */
  function InitialPhaseSettings(phaseIndex: int): PhaseSettings
  {
    PhaseSettings(phaseIndex, None, None, None, None, None, false, false, false)
  }

  /** The phase object; the builder fills its fields one setter at a time. */
  class DefaultPartitionedSearchPhase {
    const phaseIndex: int
    var solutionPartitioner: Option<SolutionPartitioner>
    var threadPoolExecutor: Option<ThreadPoolExecutor>
    var runnablePartThreadLimit: Option<int>
    var phaseConfigList: Option<seq<PhaseConfig>>
    var childThreadType: Option<ChildThreadType>
    var assertStepScoreFromScratch: bool
    var assertExpectedStepScore: bool
    var assertShadowVariablesAreNotStaleAfterStep: bool

    /** The phase's current settings as a value. */
    function Settings(): PhaseSettings
      reads this
    {
      PhaseSettings(phaseIndex, solutionPartitioner, threadPoolExecutor, runnablePartThreadLimit,
                    phaseConfigList, childThreadType, assertStepScoreFromScratch,
                    assertExpectedStepScore, assertShadowVariablesAreNotStaleAfterStep)
    }

    /** A new phase has its index and nothing else set; every assertion flag is off. */
    constructor (phaseIndex: int)
      ensures Settings() == InitialPhaseSettings(phaseIndex)
    {
      this.phaseIndex := phaseIndex;
      solutionPartitioner := None;
      threadPoolExecutor := None;
      runnablePartThreadLimit := None;
      phaseConfigList := None;
      childThreadType := None;
      assertStepScoreFromScratch := false;
      assertExpectedStepScore := false;
      assertShadowVariablesAreNotStaleAfterStep := false;
    }
  }
}
