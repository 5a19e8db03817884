/**
 * The controller link (`pipython.GCS2Device`), seen from the servers: what
 * they send and what the controller answers. Nothing here talks to a
 * controller; a `Link` value is the controller's answers during one access.
 */
module Gcs {
  import opened Python

  /** One command sent over the link, named by its GCS mnemonic. */
  datatype Call =
    | ConnectTCPIP(host: string, port: int)
    | qIDN
    | qSAI                          // the `allaxes` property
    | qPOS
    | qLIM
    | IsMoving(axes: seq<string>)
    | qFRF
    | qSPI
    | qVLS
    | qVMO(axis: string, target: int)
    | MOV(axis: string, target: int)
    | qERR
    | SPI(pivotAxes: seq<string>, values: seq<int>)
    | FRF
    | HLT
    | STP
    | qTMN
    | qTMX

  /**
   * The controller's answer to each query during one access. A `Raise` is a
   * failed exchange (`GCSError` or a lost connection). The moving flags are
   * those of every axis the controller knows; `IsMoving` answers for the
   * axes it is asked about.
   */
  datatype Link = Link(
    connect: Outcome,
    identity: Result<string>,
    allAxes: Result<seq<string>>,
    positions: Result<map<string, int>>,
    limits: Result<map<string, bool>>,
    motion: Result<map<string, bool>>,
    referenced: Result<map<string, bool>>,
    pivot: Result<map<string, int>>,
    velocity: Result<int>,
    reachable: (string, int) -> Result<bool>,
    move: (string, int) -> Outcome,
    errorCode: Result<int>,
    referenceSearch: Outcome,
    setPivot: seq<int> -> Outcome,
    travelMin: Result<map<string, int>>,
    travelMax: Result<map<string, int>>)

  /**
   * `IsMoving(axes)`: the moving flag of exactly the axes asked about; a
   * query naming an axis the controller does not know fails.
   */
  function IsMovingReply(link: Link, axes: seq<string>): (r: Result<map<string, bool>>)
    ensures r.Ok? <==> link.motion.Ok? && forall a :: a in axes ==> a in link.motion.value
    ensures r.Ok? ==> r.value.Keys == set a | a in axes
    ensures r.Ok? ==> forall a :: a in r.value ==> r.value[a] == link.motion.value[a]
  {
    match link.motion
    case Raise(e) => Raise(e)
    case Ok(m) =>
      if forall a :: a in axes ==> a in m then Ok(map a | a in axes :: m[a])
      else Raise(GCSError)
  }

  /** A move request parsed from a command string: the axis and its target. */
  datatype Move = Move(axis: string, target: int)

  /** The calls one command sent, and what it returned or raised. */
  datatype Exchange<T> = Exchange(calls: seq<Call>, reply: Result<T>)

  /**
   * `MOV(axis, target)` followed by `qERR()`: the error register's code once
   * the move is sent. A MOV that raises sends nothing further.
   */
  function MoveAndCheck(link: Link, axis: string, target: int): (x: Exchange<int>)
    ensures x.reply.Ok? <==> link.move(axis, target).Pass? && link.errorCode.Ok?
    ensures x.calls == if link.move(axis, target).Pass? then [MOV(axis, target), qERR] else [MOV(axis, target)]
    ensures link.move(axis, target).Pass? ==> x.reply == link.errorCode
    ensures link.move(axis, target).Fail? ==> x.reply == Raise(link.move(axis, target).error)
  {
    match link.move(axis, target)
    case Fail(e) => Exchange([MOV(axis, target)], Raise(e))
    case Pass => Exchange([MOV(axis, target), qERR], link.errorCode)
  }
}
