/** The conventional optional value, used for empty text fields and for
    lookups that can fail. */
module Optional {

  datatype Option<+T> = None | Some(value: T)
}

/** The vocabulary shared by the run queue: what a run is, what the engine
    hands back, and the events a run emits towards the window. */
module Runs {
  import opened Optional

  /** One replay handed to the engine's loader; its content is opaque here. */
  datatype Replay = Replay(replayId: nat)

  /** One comparison produced by the engine. `similarity` is a float in the
      program; `isCheat` is decided by the engine against the run's threshold. */
  datatype Comparison = Comparison(replay1: Replay, replay2: Replay, similarity: real, isCheat: bool)

  /** The four kinds of run, one per tab of the main tab, each carrying the
      parameters read from its tab (text fields already parsed; an empty
      field is `None`). */
  datatype RunKind =
    | MapRun(mapId: Option<int>, userId: Option<int>, num: int, thresh: int)
    | ScreenRun(userId: Option<int>, numTop: int, numUsers: int, thresh: int)
    | LocalRun(path: string, mapId: Option<int>, userId: Option<int>, num: int, thresh: int)
    | VerifyRun(mapId: Option<int>, userId1: Option<int>, userId2: Option<int>, thresh: int)

  /** A submitted run. Its cancellation latch lives in the registry, keyed
      by `runId`, because the latch object is shared between the run list
      and the queue. */
  datatype Run = Run(runId: nat, kind: RunKind)

  /** The texts of the activity label and of the per-run status. */
  const LOADING := "Loading Replays"
  const COMPARING := "Comparing Replays"
  const FINISHED := "Finished"
  const CANCELED := "Canceled"
  const IDLE := "Idle"

  /** What a run emits towards the window, in emission order:
      the activity label, a run's status, the two progress-bar signals,
      a completed load and a comparison pushed on the result queue. */
  datatype Event =
    | Label(text: string)
    | Status(runId: nat, status: string)
    | ProgressReset(maximum: int)
    | ProgressInc(increment: int)
    | Load(replay: Replay)
    | Push(result: Comparison)

  function Ids(q: seq<Run>): (ids: seq<nat>)
    ensures |ids| == |q|
    ensures forall i :: 0 <= i < |q| ==> ids[i] == q[i].runId
  {
    seq(|q|, i requires 0 <= i < |q| => q[i].runId)
  }

  /** Concatenation of a list of lists, outer order first. */
  function Flatten<T>(xss: seq<seq<T>>): seq<T>
  {
    if |xss| == 0 then [] else xss[0] + Flatten(xss[1..])
  }
}
