// The emulation provider of the MCP evaluation harness: instead of asking a
// language model it replays the tool calls a JSON script lists for each task
// and returns the script's canned response, recording per-tool metrics.
module Emulation {
  import opened Wrappers
  import opened Seqs

  /** The metrics kept per tool name: the number of calls and one duration per
      call. */
  datatype Metric = Metric(count: nat, durations: seq<real>)

  type Metrics = map<Json, Metric>

  /** The tasks of a loaded script.  `script` is None when the path is not an
      existing file; otherwise it is the parsed JSON document. */
  function LoadTasks(script: Option<Json>): (r: Result<seq<Json>>)
    ensures r.Ok? <==> script.Some? && script.value.JObj? && Get(script.value.fields, "tasks").JList?
    ensures r.Ok? ==> r.value == script.value.fields["tasks"].items
  {
    if script.None? then Err("Emulation script not found or not a file")
    else if !script.value.JObj? then Err("Emulation script is not a JSON object")
    else
      var tasks := Get(script.value.fields, "tasks");
      if !tasks.JList? then Err("Emulation script must have a 'tasks' array")
      else Ok(tasks.items)
  }

  /** `steps` of a task, with anything that is not a list read as no steps. */
  function StepsOf(task: map<string, Json>): (r: seq<Json>)
    ensures Get(task, "steps").JList? ==> r == task["steps"].items
    ensures !Get(task, "steps").JList? ==> r == []
  {
    var s := Get(task, "steps");
    if s.JList? then s.items else []
  }

  /** `task.get("response_text", "")`. */
  function ResponseOf(task: map<string, Json>): (r: Json)
    ensures "response_text" in task ==> r == task["response_text"]
    ensures "response_text" !in task ==> r == JStr("")
  {
    if "response_text" in task then task["response_text"] else JStr("")
  }

  /** What a step asks for: the tool and its arguments (None standing for
      `{}`), or the ValueError a malformed step raises. */
  function ParseStep(step: Json): (r: Result<(Json, map<string, Json>)>)
    ensures r.Ok? <==> step.JObj? && Truthy(Get(step.fields, "tool"))
                       && (Get(step.fields, "arguments") == JNull || Get(step.fields, "arguments").JObj?)
    ensures r.Ok? ==> r.value.0 == step.fields["tool"]
    ensures r.Ok? && Get(step.fields, "arguments") == JNull ==> r.value.1 == map[]
    ensures r.Ok? && Get(step.fields, "arguments").JObj? ==> r.value.1 == step.fields["arguments"].fields
  {
    if !step.JObj? then Err("Emulation step must be a dict")
    else
      var tool := Get(step.fields, "tool");
      var args := Get(step.fields, "arguments");
      if !Truthy(tool) then Err("Emulation step must have 'tool'")
      else if args == JNull then Ok((tool, map[]))
      else if !args.JObj? then Err("Emulation step 'arguments' must be a dict")
      else Ok((tool, args.fields))
  }

  /** One more call of `tool` taking `d` seconds. */
  function Record(m: Metrics, tool: Json, d: real): (r: Metrics)
    ensures r.Keys == m.Keys + {tool}
    ensures forall t :: t in m && t != tool ==> r[t] == m[t]
    ensures r[tool].count == (if tool in m then m[tool].count else 0) + 1
    ensures r[tool].durations == (if tool in m then m[tool].durations else []) + [d]
  {
    if tool in m then m[tool := Metric(m[tool].count + 1, m[tool].durations + [d])]
    else m[tool := Metric(1, [d])]
  }

  /** Step `i`: validated, called through the connection (`callOk` says whether
      the call succeeds, `duration` how long step `i` took), then recorded. */
  function Step(m: Metrics, step: Json, i: nat, callOk: (Json, map<string, Json>) -> bool, duration: nat -> real)
    : (r: Result<Metrics>)
  {
    match ParseStep(step)
    case Err(e) => Err(e)
    case Ok((tool, args)) =>
      if !callOk(tool, args) then Err("Emulation tool call failed")
      else Ok(Record(m, tool, duration(i)))
  }

  /** The steps replayed in order from no metrics; the first error ends the run. */
  function Replay(steps: seq<Json>, callOk: (Json, map<string, Json>) -> bool, duration: nat -> real)
    : (r: Result<Metrics>)
    decreases |steps|
  {
    if steps == [] then Ok(map[])
    else
      match Replay(steps[..|steps| - 1], callOk, duration)
      case Err(e) => Err(e)
      case Ok(m) => Step(m, steps[|steps| - 1], |steps| - 1, callOk, duration)
  }

  /** A step that parses and whose call succeeds. */
  predicate StepSucceeds(step: Json, callOk: (Json, map<string, Json>) -> bool)
  {
    ParseStep(step).Ok? && callOk(ParseStep(step).value.0, ParseStep(step).value.1)
  }

  function ToolOf(step: Json): Json
  {
    if step.JObj? then Get(step.fields, "tool") else JNull
  }

  lemma ReplayStep(steps: seq<Json>, callOk: (Json, map<string, Json>) -> bool, duration: nat -> real, k: nat)
    requires k < |steps|
    ensures Replay(steps[..k + 1], callOk, duration) ==
      match Replay(steps[..k], callOk, duration)
      case Err(e) => Err(e)
      case Ok(m) => Step(m, steps[k], k, callOk, duration)
  {
    assert steps[..k + 1][..k] == steps[..k];
  }

  /** Once a step fails nothing after it runs: the outcome of the whole script
      is that of its failing prefix. */
  lemma {:induction false} ReplayStopsAtError(steps: seq<Json>, callOk: (Json, map<string, Json>) -> bool,
                                              duration: nat -> real, k: nat)
    requires k <= |steps| && Replay(steps[..k], callOk, duration).Err?
    ensures Replay(steps, callOk, duration) == Replay(steps[..k], callOk, duration)
    decreases |steps| - k
  {
    if k < |steps| {
      ReplayStep(steps, callOk, duration, k);
      ReplayStopsAtError(steps, callOk, duration, k + 1);
    } else {
      assert steps[..k] == steps;
    }
  }

  /** The run succeeds exactly when every step is well-formed and its call
      succeeds. */
  lemma {:induction false} ReplayOkIff(steps: seq<Json>, callOk: (Json, map<string, Json>) -> bool, duration: nat -> real)
    ensures Replay(steps, callOk, duration).Ok? <==> forall k :: 0 <= k < |steps| ==> StepSucceeds(steps[k], callOk)
    decreases |steps|
  {
    if steps != [] {
      var init := steps[..|steps| - 1];
      ReplayOkIff(init, callOk, duration);
      assert forall k :: 0 <= k < |init| ==> init[k] == steps[k];
    }
  }

  /** The steps that name tool `t`. */
  function Names(t: Json): Json -> bool
  {
    s => ToolOf(s) == t
  }

  /** On success a tool appears in the metrics exactly when some step names
      it, its count is the number of steps naming it, and it has one duration
      per call. */
  lemma {:induction false} ReplayCountOf(steps: seq<Json>, callOk: (Json, map<string, Json>) -> bool,
                                         duration: nat -> real, t: Json)
    requires Replay(steps, callOk, duration).Ok?
    ensures var m := Replay(steps, callOk, duration).value;
      (t in m <==> CountIf(steps, Names(t)) > 0)
      && (t in m ==> m[t].count == CountIf(steps, Names(t)) && |m[t].durations| == m[t].count)
    decreases |steps|
  {
    if steps != [] {
      var init := steps[..|steps| - 1];
      var last := steps[|steps| - 1];
      ReplayLast(steps, callOk, duration);
      ReplayCountOf(init, callOk, duration, t);
      RecordCount(Replay(init, callOk, duration).value, ToolOf(last), duration(|steps| - 1), t, CountIf(init, Names(t)));
      assert CountIf(steps, Names(t)) == CountIf(init, Names(t)) + (if ToolOf(last) == t then 1 else 0);
    }
  }

  /** One recorded call keeps a tool's count equal to the number of its calls. */
  lemma RecordCount(m0: Metrics, tool: Json, d: real, t: Json, c0: nat)
    requires (t in m0 <==> c0 > 0) && (t in m0 ==> m0[t].count == c0 && |m0[t].durations| == m0[t].count)
    ensures var m := Record(m0, tool, d);
      var c := c0 + (if tool == t then 1 else 0);
      (t in m <==> c > 0) && (t in m ==> m[t].count == c && |m[t].durations| == m[t].count)
  {
  }

  /** A successful run is a successful run of all but the last step followed
      by the record of the last step's tool. */
  lemma ReplayLast(steps: seq<Json>, callOk: (Json, map<string, Json>) -> bool, duration: nat -> real)
    requires steps != [] && Replay(steps, callOk, duration).Ok?
    ensures Replay(steps[..|steps| - 1], callOk, duration).Ok?
    ensures Replay(steps, callOk, duration).value ==
      Record(Replay(steps[..|steps| - 1], callOk, duration).value, ToolOf(steps[|steps| - 1]), duration(|steps| - 1))
  {
    var prior := Replay(steps[..|steps| - 1], callOk, duration);
    assert prior.Ok?;
    assert Replay(steps, callOk, duration) == Step(prior.value, steps[|steps| - 1], |steps| - 1, callOk, duration);
    StepOk(prior.value, steps[|steps| - 1], |steps| - 1, callOk, duration);
  }

  /** A step that succeeds records a call of the tool it names. */
  lemma StepOk(m: Metrics, step: Json, i: nat, callOk: (Json, map<string, Json>) -> bool, duration: nat -> real)
    requires Step(m, step, i, callOk, duration).Ok?
    ensures Step(m, step, i, callOk, duration).value == Record(m, ToolOf(step), duration(i))
  {
    assert ParseStep(step).Ok?;
  }

  /** The same for every tool at once. */
  lemma ReplayCounts(steps: seq<Json>, callOk: (Json, map<string, Json>) -> bool, duration: nat -> real)
    requires Replay(steps, callOk, duration).Ok?
    ensures forall t :: t in Replay(steps, callOk, duration).value <==> CountIf(steps, Names(t)) > 0
    ensures forall t :: t in Replay(steps, callOk, duration).value ==>
      Replay(steps, callOk, duration).value[t].count == CountIf(steps, Names(t))
      && |Replay(steps, callOk, duration).value[t].durations| == Replay(steps, callOk, duration).value[t].count
  {
    forall t {
      ReplayCountOf(steps, callOk, duration, t);
    }
  }

  /** The provider: the task list of its script. */
  class EmulationProvider {
    var tasks: seq<Json>

    constructor (tasks: seq<Json>)
      ensures this.tasks == tasks
    {
      this.tasks := tasks;
    }

    /** `_get_task`: IndexError exactly when the index is out of range. */
    function GetTask(i: int): (r: Result<Json>)
      reads this
      ensures r.Ok? <==> 0 <= i < |tasks|
      ensures r.Ok? ==> r.value == tasks[i]
    {
      if i < 0 || i >= |tasks| then Err("Emulation task_index out of range")
      else Ok(tasks[i])
    }

    /** What `run_agent_loop` returns for a task: the response text and the
        metrics, or the first error. */
    function Outcome(i: int, callOk: (Json, map<string, Json>) -> bool, duration: nat -> real)
      : (r: Result<(Json, Metrics)>)
      reads this
      ensures GetTask(i).Err? ==> r.Err?
      ensures r.Ok? ==> GetTask(i).Ok? && GetTask(i).value.JObj?
                        && r.value.0 == ResponseOf(GetTask(i).value.fields)
                        && Replay(StepsOf(GetTask(i).value.fields), callOk, duration) == Ok(r.value.1)
      ensures GetTask(i).Ok? && GetTask(i).value.JObj? ==>
                (r.Ok? <==> Replay(StepsOf(GetTask(i).value.fields), callOk, duration).Ok?)
    {
      match GetTask(i)
      case Err(e) => Err(e)
      case Ok(task) =>
        if !task.JObj? then Err("Emulation task is not a dict")
        else
          match Replay(StepsOf(task.fields), callOk, duration)
          case Err(e) => Err(e)
          case Ok(m) => Ok((ResponseOf(task.fields), m))
    }

    /** `run_agent_loop`: the step loop, stopping at the first failure. */
    method RunAgentLoop(i: int, callOk: (Json, map<string, Json>) -> bool, duration: nat -> real)
      returns (r: Result<(Json, Metrics)>)
      ensures r == Outcome(i, callOk, duration)
    {
      var t := GetTask(i);
      if t.Err? {
        return Err(t.error);
      }
      var task := t.value;
      if !task.JObj? {
        return Err("Emulation task is not a dict");
      }
      var steps := StepsOf(task.fields);
      var response := ResponseOf(task.fields);
      var metrics: Metrics := map[];
      for k := 0 to |steps|
        invariant Replay(steps[..k], callOk, duration) == Ok(metrics)
      {
        ReplayStep(steps, callOk, duration, k);
        var parsed := ParseStep(steps[k]);
        if parsed.Err? {
          ReplayStopsAtError(steps, callOk, duration, k + 1);
          return Err(parsed.error);
        }
        var (tool, args) := parsed.value;
        if !callOk(tool, args) {
          ReplayStopsAtError(steps, callOk, duration, k + 1);
          return Err("Emulation tool call failed");
        }
        metrics := Record(metrics, tool, duration(k));
      }
      assert steps[..|steps|] == steps;
      r := Ok((response, metrics));
    }
  }

  /** Building a provider: the constructor's ValueErrors become `Err`. */
  method Open(script: Option<Json>) returns (r: Result<EmulationProvider>)
    ensures r.Ok? <==> LoadTasks(script).Ok?
    ensures r.Ok? ==> fresh(r.value) && r.value.tasks == LoadTasks(script).value
  {
    var tasks := LoadTasks(script);
    if tasks.Err? {
      return Err(tasks.error);
    }
    var p := new EmulationProvider(tasks.value);
    r := Ok(p);
  }
}
