/**
 * The message protocol between the host page and the sandboxed worker
 * (src/proto.ts): two closed tagged unions, one per direction.
 * Each constructor carries exactly the fields its interface declares.
 */
module Protocol {
  import opened Wrappers

  /** One `[time, value]` pair of a signal's waveform. */
  datatype Sample = Sample(time: nat, value: string)

  /**
   * The waveform tree carried by `showWaveforms`: a scope node
   * (`{name, type: {name: "struct"}, children}`) or a signal leaf
   * (`{name, type: {name, width}, data}`).
   */
  datatype WaveNode =
    | Struct(name: string, children: seq<WaveNode>)
    | Signal(name: string, varType: string, width: nat, data: seq<Sample>)

  /** Messages the host posts to the worker. */
  datatype HostToWorkerMessage =
    | LoadPackages(pkgs: seq<string>)
    | RunPython(code: string)

  /** Messages the worker posts to the host. */
  datatype WorkerToHostMessage =
    | StdoutWrite(text: string)
    | StderrWrite(text: string)
    | ShowRtlil(code: string)
    | ShowVerilog(code: string)
    | ShowWaveforms(data: WaveNode)
    | PythonDone(error: Option<string>)

  /**
   * What a receiver finds on the wire: a member of the union, or an object
   * whose `type` tag is outside it (the receivers' fallback branches).
   */
  datatype Wire<M> = Known(msg: M) | Unknown(tag: string)

  /** The `type` tag of a host-to-worker message. */
  function HostTag(m: HostToWorkerMessage): (t: string)
    ensures t == "loadPackages" <==> m.LoadPackages?
    ensures t == "runPython" <==> m.RunPython?
  {
    match m
    case LoadPackages(_) => "loadPackages"
    case RunPython(_) => "runPython"
  }

  /** The `type` tag of a worker-to-host message. */
  function WorkerTag(m: WorkerToHostMessage): (t: string)
    ensures t in WorkerTags()
    ensures t == "stdoutWrite" <==> m.StdoutWrite?
    ensures t == "stderrWrite" <==> m.StderrWrite?
    ensures t == "showRtlil" <==> m.ShowRtlil?
    ensures t == "showVerilog" <==> m.ShowVerilog?
    ensures t == "showWaveforms" <==> m.ShowWaveforms?
    ensures t == "pythonDone" <==> m.PythonDone?
  {
    match m
    case StdoutWrite(_) => "stdoutWrite"
    case StderrWrite(_) => "stderrWrite"
    case ShowRtlil(_) => "showRtlil"
    case ShowVerilog(_) => "showVerilog"
    case ShowWaveforms(_) => "showWaveforms"
    case PythonDone(_) => "pythonDone"
  }

  /** The six tags of the worker-to-host union. */
  function WorkerTags(): set<string>
  {
    {"stdoutWrite", "stderrWrite", "showRtlil", "showVerilog", "showWaveforms", "pythonDone"}
  }

  /** A worker-to-host wire value as a receiver can see it: an unknown tag is none of the six. */
  predicate WorkerWire(w: Wire<WorkerToHostMessage>)
  {
    w.Unknown? ==> w.tag !in WorkerTags()
  }

  /** Messages of the same kind carry the same tag and messages of different kinds different tags. */
  lemma WorkerTagDeterminesKind(a: WorkerToHostMessage, b: WorkerToHostMessage)
    ensures WorkerTag(a) == WorkerTag(b) <==>
      (a.StdoutWrite? && b.StdoutWrite?) || (a.StderrWrite? && b.StderrWrite?) ||
      (a.ShowRtlil? && b.ShowRtlil?) || (a.ShowVerilog? && b.ShowVerilog?) ||
      (a.ShowWaveforms? && b.ShowWaveforms?) || (a.PythonDone? && b.PythonDone?)
  {
  }
}
