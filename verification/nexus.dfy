/**
 * The staged pipeline of ex2/nexus_pipeline.py: three built-in stages, a pipeline
 * that threads a value through its stages (giving None once a stage raises), the
 * three adapters that differ only in what `process` returns, and the manager that
 * registers pipelines by name and chains them.
 */
module Nexus {
  import opened Values
  import opened Seqs

  /** What a stage's `process` does with a value: return a value, or raise. */
  datatype StageOutcome = Returned(value: Value) | Raised(message: string)

  /**
   * A stage: one of the three built-ins, or any other object with a `process`
   * method, whose behaviour is given as a function.
   */
  datatype Stage =
    | InputStage
    | TransformStage
    | OutputStage
    | CustomStage(name: string, behaviour: Value -> StageOutcome)

  /** The key TransformStage writes into every dict it is given. */
  const ValidatedKey: string := "validated"

  /** A dict with `validated` set to True; any other value as it is. */
  function Validated(v: Value): (r: Value)
    ensures r.Dict? <==> v.Dict?
    ensures !v.Dict? ==> r == v
    ensures v.Dict? ==> r.entries.Keys == v.entries.Keys + {ValidatedKey}
    ensures v.Dict? ==> r.entries[ValidatedKey] == Bool(true)
    ensures v.Dict? ==> forall key :: key in v.entries && key != ValidatedKey ==> r.entries[key] == v.entries[key]
  {
    if v.Dict? then Dict(v.entries[ValidatedKey := Bool(true)]) else v
  }

  /** One call of `stage.process(v)`. */
  function Apply(stage: Stage, v: Value): (r: StageOutcome)
    ensures !stage.CustomStage? ==> r.Returned?
    ensures stage.InputStage? || stage.OutputStage? ==> r == Returned(v)
    ensures stage.TransformStage? ==> r == Returned(Validated(v))
  {
    match stage
    case InputStage => if v.Null? then Returned(Null) else Returned(v)
    case TransformStage => if v.Null? then Returned(Null) else Returned(Validated(v))
    case OutputStage => Returned(v)
    case CustomStage(_, behaviour) => behaviour(v)
  }

  /** InputStage and OutputStage give back what they are given, None included; neither raises. */
  lemma PassThroughStages(v: Value)
    ensures Apply(InputStage, v) == Returned(v)
    ensures Apply(OutputStage, v) == Returned(v)
  {
  }

  /**
   * TransformStage never raises; it gives None for None, a non-dict as it is, and a
   * dict with `validated` set to True and every other entry kept; applying it to its
   * own output changes nothing.
   */
  lemma TransformStageSpec(v: Value)
    ensures Apply(TransformStage, v).Returned?
    ensures v.Null? ==> Apply(TransformStage, v).value == Null
    ensures !v.Dict? ==> Apply(TransformStage, v).value == v
    ensures v.Dict? ==> Apply(TransformStage, v).value == Dict(v.entries[ValidatedKey := Bool(true)])
    ensures Apply(TransformStage, Apply(TransformStage, v).value) == Apply(TransformStage, v)
  {
    if v.Dict? {
      var m := v.entries[ValidatedKey := Bool(true)];
      assert m[ValidatedKey := Bool(true)] == m;
    }
  }

  // ---------------------------------------------------------------------------
  // Running stages
  // ---------------------------------------------------------------------------

  /** Threads `v` through the stages in order; the first stage that raises ends the run. */
  function Exec(stages: seq<Stage>, v: Value): StageOutcome
    decreases |stages|
  {
    if stages == [] then Returned(v)
    else
      match Apply(stages[0], v)
      case Raised(m) => Raised(m)
      case Returned(w) => Exec(stages[1..], w)
  }

  /** What `ProcessingPipeline.run` returns: the last stage's output, or None once a stage raised. */
  function RunResult(stages: seq<Stage>, v: Value): Value {
    match Exec(stages, v)
    case Raised(_) => Null
    case Returned(w) => w
  }

  /** How many stages `run` invokes: all of them, or up to and including the first that raises. */
  function Invoked(stages: seq<Stage>, v: Value): (n: nat)
    ensures n <= |stages|
    decreases |stages|
  {
    if stages == [] then 0
    else
      match Apply(stages[0], v)
      case Raised(_) => 1
      case Returned(w) => 1 + Invoked(stages[1..], w)
  }

  /** With no stages, `run` returns its input. */
  lemma RunWithoutStages(v: Value)
    ensures RunResult([], v) == v && Invoked([], v) == 0
  {
  }

  /**
   * Running `a + b` is running `a` and then, unless a stage of `a` raised, running
   * `b` on its output: the stages are applied in list order, each fed the previous
   * one's output.
   */
  lemma {:induction false} ExecAppend(a: seq<Stage>, b: seq<Stage>, v: Value)
    ensures Exec(a + b, v) == match Exec(a, v) case Raised(m) => Raised(m) case Returned(w) => Exec(b, w)
    decreases |a|
  {
    if a == [] {
      assert a + b == b;
    } else {
      assert (a + b)[1..] == a[1..] + b;
      match Apply(a[0], v)
      case Raised(_) =>
      case Returned(w) => ExecAppend(a[1..], b, w);
    }
  }

  /**
   * Fail-fast: if the stages before `k` return normally and stage `k` raises, `run`
   * gives None and exactly `k + 1` stages are invoked, so no later stage runs.
   */
  lemma {:induction false} RaisingStageEndsRun(stages: seq<Stage>, v: Value, k: nat, w: Value)
    requires k < |stages|
    requires Exec(stages[..k], v) == Returned(w)
    requires Apply(stages[k], w).Raised?
    ensures RunResult(stages, v) == Null
    ensures Invoked(stages, v) == k + 1
    decreases k
  {
    if k > 0 {
      assert stages[..k][1..] == stages[1..][..k - 1];
      match Apply(stages[0], v)
      case Raised(_) =>
      case Returned(u) => RaisingStageEndsRun(stages[1..], u, k - 1, w);
    }
  }

  /** When no stage raises, every stage is invoked. */
  lemma {:induction false} NoRaiseRunsAll(stages: seq<Stage>, v: Value)
    requires Exec(stages, v).Returned?
    ensures Invoked(stages, v) == |stages|
    decreases |stages|
  {
    if stages != [] {
      match Apply(stages[0], v)
      case Raised(_) =>
      case Returned(w) => NoRaiseRunsAll(stages[1..], w);
    }
  }

  /** The stage list every adapter is given in the demonstration. */
  const StandardStages: seq<Stage> := [InputStage, TransformStage, OutputStage]

  /** Input, transform, output: None stays None, a dict gains `validated`, anything else passes through. */
  lemma StandardRun(v: Value)
    ensures RunResult(StandardStages, v) == Validated(v)
    ensures Invoked(StandardStages, v) == 3
  {
    assert StandardStages[1..] == [TransformStage, OutputStage];
    assert StandardStages[1..][1..] == [OutputStage];
  }

  // ---------------------------------------------------------------------------
  // The caller's value after a run, and the adapters
  // ---------------------------------------------------------------------------

  /**
   * The caller's own value once `run` is over. TransformStage writes `validated`
   * into the very dict it receives, and the built-in stages hand on the object they
   * were given, so the caller's dict is changed as soon as a TransformStage receives
   * it. A custom stage is taken to return a different object.
   */
  function CallerView(stages: seq<Stage>, v: Value): (r: Value)
    ensures r == v || r == Validated(v)
    decreases |stages|
  {
    if stages == [] || !v.Dict? then v
    else
      match stages[0]
      case TransformStage => Validated(v)
      case InputStage => CallerView(stages[1..], v)
      case OutputStage => CallerView(stages[1..], v)
      case CustomStage(_, _) => v
  }

  /** Only a dict can be changed by a run, and only by a TransformStage. */
  lemma {:induction false} CallerViewUnchanged(stages: seq<Stage>, v: Value)
    requires !v.Dict? || forall k :: 0 <= k < |stages| ==> !stages[k].TransformStage?
    ensures CallerView(stages, v) == v
    decreases |stages|
  {
    if stages != [] && v.Dict? && !stages[0].CustomStage? {
      CallerViewUnchanged(stages[1..], v);
    }
  }

  /** The three `ProcessingPipeline` subclasses. */
  datatype Format = JSON | CSV | Stream

  /** What the adapter's `process` returns for `data`. */
  function AdapterResult(format: Format, stages: seq<Stage>, data: Value): Value {
    match format
    case JSON => RunResult(stages, data)
    case CSV => CallerView(stages, data)
    case Stream => CallerView(stages, data)
  }

  /**
   * JSONAdapter returns what `run` returns; CSVAdapter and StreamAdapter return the
   * input they were given whatever `run` produced, which differs from it only where
   * a TransformStage set `validated` in the caller's dict.
   */
  lemma AdapterResults(stages: seq<Stage>, data: Value)
    ensures AdapterResult(JSON, stages, data) == RunResult(stages, data)
    ensures AdapterResult(CSV, stages, data) == AdapterResult(Stream, stages, data)
    ensures AdapterResult(CSV, stages, data) == data || AdapterResult(CSV, stages, data) == Validated(data)
    ensures !data.Dict? ==> AdapterResult(CSV, stages, data) == data
  {
    if !data.Dict? {
      CallerViewUnchanged(stages, data);
    }
  }

  /** A pipeline as plain data: its adapter kind and its stage list. */
  datatype PipelineView = PipelineView(format: Format, stages: seq<Stage>)

  /** A pipeline (ProcessingPipeline and its three adapter subclasses). */
  class Pipeline {
    const format: Format
    var stages: seq<Stage>

    constructor (format: Format)
      ensures this.format == format && stages == []
    {
      this.format := format;
      stages := [];
    }

    function View(): PipelineView
      reads this
    {
      PipelineView(format, stages)
    }

    /** `add_stage`: the new stage runs after all existing ones. */
    method AddStage(stage: Stage)
      modifies this
      ensures stages == old(stages) + [stage]
      ensures forall v :: Exec(stages, v) == match Exec(old(stages), v) case Raised(m) => Raised(m) case Returned(w) => Apply(stage, w)
    {
      stages := stages + [stage];
      forall v ensures Exec(stages, v) == match Exec(old(stages), v) case Raised(m) => Raised(m) case Returned(w) => Apply(stage, w) {
        ExecAppend(old(stages), [stage], v);
      }
    }

    /** `run`: every stage in order, returning None as soon as one raises. */
    method Run(data: Value) returns (r: Value, ghost calls: nat)
      ensures r == RunResult(stages, data)
      ensures calls == Invoked(stages, data)
    {
      var current := data;
      calls := 0;
      for i := 0 to |stages|
        invariant Exec(stages, data) == Exec(stages[i..], current)
        invariant Invoked(stages, data) == calls + Invoked(stages[i..], current)
      {
        assert stages[i..][1..] == stages[i + 1..];
        calls := calls + 1;
        match Apply(stages[i], current)
        case Raised(_) =>
          return Null, calls;
        case Returned(w) =>
          current := w;
      }
      assert stages[|stages|..] == [];
      r := current;
    }

    /** The adapter's `process`. */
    method Process(data: Value) returns (r: Value)
      ensures r == AdapterResult(format, stages, data)
    {
      var result, _ := Run(data);
      match format
      case JSON =>
        r := result;
      case CSV =>
        r := CallerView(stages, data);
      case Stream =>
        r := CallerView(stages, data);
    }
  }

  // ---------------------------------------------------------------------------
  // The manager
  // ---------------------------------------------------------------------------

  /** Feeds `data` through each registered pipeline named in `names`, in order, skipping unknown names. */
  function ChainResult(registry: map<string, PipelineView>, names: seq<string>, data: Value): Value
    decreases |names|
  {
    if names == [] then data
    else
      var next := if names[0] in registry
                  then AdapterResult(registry[names[0]].format, registry[names[0]].stages, data)
                  else data;
      ChainResult(registry, names[1..], next)
  }

  /** Chaining `a + b` is chaining `a` and then chaining `b` on its result. */
  lemma {:induction false} ChainAppend(registry: map<string, PipelineView>, a: seq<string>, b: seq<string>, data: Value)
    ensures ChainResult(registry, a + b, data) == ChainResult(registry, b, ChainResult(registry, a, data))
    decreases |a|
  {
    if a == [] {
      assert a + b == b;
    } else {
      assert (a + b)[1..] == a[1..] + b;
      var next := if a[0] in registry
                  then AdapterResult(registry[a[0]].format, registry[a[0]].stages, data)
                  else data;
      ChainAppend(registry, a[1..], b, next);
    }
  }

  /** The name is that of a registered pipeline. */
  function IsRegistered(registry: map<string, PipelineView>): string -> bool {
    name => name in registry
  }

  /** Chaining through any list of names is chaining through its registered names alone. */
  lemma {:induction false} ChainSkipsUnregistered(registry: map<string, PipelineView>, names: seq<string>, data: Value)
    ensures ChainResult(registry, names, data) == ChainResult(registry, Keep(names, IsRegistered(registry)), data)
    decreases |names|
  {
    if names != [] {
      var init, last := names[..|names| - 1], names[|names| - 1];
      var kept := Keep(init, IsRegistered(registry));
      assert names == init + [last];
      ChainSkipsUnregistered(registry, init, data);
      ChainAppend(registry, init, [last], data);
      KeepSnoc(init, last, IsRegistered(registry));
      assert [last][1..] == [];
      if last in registry {
        assert Keep(names, IsRegistered(registry)) == kept + [last];
        ChainAppend(registry, kept, [last], data);
      } else {
        assert Keep(names, IsRegistered(registry)) == kept;
      }
    }
  }

  /** An unregistered name anywhere in the list changes nothing; an empty chain returns its input. */
  lemma MissingNameIsSkipped(registry: map<string, PipelineView>, a: seq<string>, missing: string, b: seq<string>, data: Value)
    requires missing !in registry
    ensures ChainResult(registry, a + [missing] + b, data) == ChainResult(registry, a + b, data)
    ensures ChainResult(registry, [], data) == data
  {
    ChainAppend(registry, a + [missing], b, data);
    ChainAppend(registry, a, [missing], data);
    ChainAppend(registry, a, b, data);
  }

  /** The NexusManager: a registry of pipelines by name. */
  class Manager {
    var pipelines: map<string, Pipeline>

    constructor ()
      ensures pipelines == map[]
    {
      pipelines := map[];
    }

    /** The registered pipelines as plain data. */
    function Registry(): map<string, PipelineView>
      reads this, pipelines.Values
    {
      map name | name in pipelines :: pipelines[name].View()
    }

    /** `register`: last write wins, and only the entry for `name` changes. */
    method Register(name: string, pipeline: Pipeline)
      modifies this
      ensures pipelines == old(pipelines)[name := pipeline]
      ensures Registry() == old(Registry())[name := pipeline.View()]
    {
      pipelines := pipelines[name := pipeline];
    }

    /** `chain`: each registered pipeline named, in order, processes the previous one's result. */
    method Chain(data: Value, names: seq<string>) returns (r: Value)
      ensures r == ChainResult(Registry(), names, data)
    {
      r := data;
      for i := 0 to |names|
        invariant ChainResult(Registry(), names, data) == ChainResult(Registry(), names[i..], r)
      {
        assert names[i..][1..] == names[i + 1..];
        if names[i] !in pipelines {
          continue;
        }
        r := pipelines[names[i]].Process(r);
      }
      assert names[|names|..] == [];
    }
  }
}
