/** The embedded session: the harness state kept around one in-process
    backend (the initialised flag, the saved working directory, the
    pre-initialisation settings, the error buffer, the exit handlers) and
    the guards and transaction handling of its public entry points.

    The backend itself is an oracle.  Each engine call either returns or
    raises an ERROR, which unwinds to the entry point's catch block; which
    call raises, and with what message, is a parameter.  A call that raises
    has no effect on the state tracked here, and `log` records, in order,
    the engine calls that returned. */
module Embedded {
  import opened Common
  import opened AtExit
  import opened QueryResult
  import Reset
  import Notifications
  import Initdb

  /** The engine entry points the harness calls. */
  datatype EngineCall =
    | StartTransactionCommand | CommitTransactionCommand | AbortCurrentTransaction
    | PushActiveSnapshot | PopActiveSnapshot
    | SpiConnect | SpiExecute(query: string) | SpiFinish
    | AsyncListen(channel: string) | AsyncUnlisten(channel: string) | AsyncUnlistenAll
    | AsyncNotify(channel: string, payload: string)
    | MemoryContextInit | SetDataDir(dir: string) | InitStandaloneProcess | InitializeGucOptions
    | SetConfigOption(name: string, value: string) | SelectConfigFiles(dataDir: string, username: string)
    | CheckDataDir | ChangeToDataDir | CreateDataDirLockFile | LocalProcessControlFile
    | ProcessSharedPreloadLibraries | InitializeMaxBackends | InitPostmasterChildSlots
    | InitializeFastPathLocks | ProcessShmemRequests | InitializeShmemGucs
    | InitializeWalConsistencyChecking | CreateSharedMemoryAndSemaphores | GetCurrentTimestamp
    | InitProcess | BaseInit | InitPostgres(dbname: string, username: string)
    | CreateMessageContext
    | ShmemExit

  /** `preinit_config`: settings applied at the next initialisation. */
  datatype PreinitConfig = PreinitConfig(fsync: bool, synchronousCommit: bool, fullPageWrites: bool)

  const DefaultConfig: PreinitConfig := PreinitConfig(true, true, true)

  // ---------------------------------------------------------------------
  // Initialisation
  // ---------------------------------------------------------------------

  /** One step of the initialisation's try block: an engine call, or one
      of the harness's own actions. */
  datatype InitStep =
    | Call(call: EngineCall)
    | SaveCwd           // getcwd into original_cwd
    | EnterNormalMode   // SetProcessingMode(NormalProcessing)
    | DisableOutput     // whereToSendOutput = DestNone
    | InstallNotifyHook

  /** The step that fails: an engine call that raises, or `getcwd`
      returning NULL.  `at` indexes the step list. */
  datatype InitFault = InitFault(at: nat, message: string)

  function BoolSetting(b: bool): string { if b then "true" else "false" }
  function OnOffSetting(b: bool): string { if b then "on" else "off" }

  /** The steps `pg_embedded_init_internal` runs, in order. */
  function InitSteps(dataDir: string, dbname: string, username: string, allowMods: bool, config: PreinitConfig)
    : (steps: seq<InitStep>)
    ensures |steps| == (if allowMods then 30 else 29)
  {
    [Call(MemoryContextInit), SaveCwd, Call(SetDataDir(dataDir)), Call(InitStandaloneProcess),
     Call(InitializeGucOptions),
     Call(SetConfigOption("fsync", BoolSetting(config.fsync))),
     Call(SetConfigOption("synchronous_commit", OnOffSetting(config.synchronousCommit))),
     Call(SetConfigOption("full_page_writes", OnOffSetting(config.fullPageWrites)))] +
    (if allowMods then [Call(SetConfigOption("allow_system_table_mods", "true"))] else []) +
    [Call(SelectConfigFiles(dataDir, username)), Call(CheckDataDir), Call(ChangeToDataDir),
     Call(CreateDataDirLockFile), Call(LocalProcessControlFile), Call(ProcessSharedPreloadLibraries),
     Call(InitializeMaxBackends), Call(InitPostmasterChildSlots), Call(InitializeFastPathLocks),
     Call(ProcessShmemRequests), Call(InitializeShmemGucs), Call(InitializeWalConsistencyChecking),
     Call(CreateSharedMemoryAndSemaphores), Call(GetCurrentTimestamp), Call(InitProcess), Call(BaseInit),
     Call(InitPostgres(dbname, username)), EnterNormalMode, DisableOutput, InstallNotifyHook,
     Call(CreateMessageContext)]
  }

  /** Only engine calls and `getcwd` can fail. */
  predicate CanFail(s: InitStep) {
    s.Call? || s.SaveCwd?
  }

  /** How many steps complete: all of them, or those before the failing
      one. */
  function CompletedSteps(steps: seq<InitStep>, fault: Option<InitFault>): (k: nat)
    ensures k <= |steps|
    ensures k < |steps| <==> fault.Some? && fault.value.at < |steps| && CanFail(steps[fault.value.at])
    ensures k < |steps| ==> k == fault.value.at
  {
    if fault.Some? && fault.value.at < |steps| && CanFail(steps[fault.value.at]) then fault.value.at
    else |steps|
  }

  /** The engine calls among `steps`, in order. */
  function CallsOf(steps: seq<InitStep>): (calls: seq<EngineCall>)
    ensures forall c :: c in calls <==> Call(c) in steps
  {
    if |steps| == 0 then []
    else
      var k := |steps| - 1;
      var prefix := CallsOf(steps[..k]);
      assert steps == steps[..k] + [steps[k]];
      if steps[k].Call? then prefix + [steps[k].call] else prefix
  }

  /** What an initialisation attempt leaves behind. */
  datatype InitRun = InitRun(
    calls: seq<EngineCall>, ok: bool,
    savedCwd: bool, changedDir: bool, normalMode: bool, outputDisabled: bool, hookInstalled: bool,
    message: Option<string>)

  /** The try block runs the steps up to the failing one; the catch block
      only writes the message. */
  function RunInit(steps: seq<InitStep>, fault: Option<InitFault>): (e: InitRun)
    ensures e.ok <==> CompletedSteps(steps, fault) == |steps|
    ensures e.calls == CallsOf(steps[..CompletedSteps(steps, fault)])
    ensures !e.ok ==> e.message == Some("Initialization failed: " + fault.value.message)
    ensures e.ok ==> e.message.None?
  {
    var k := CompletedSteps(steps, fault);
    var done := steps[..k];
    InitRun(CallsOf(done), k == |steps|,
            SaveCwd in done, Call(ChangeToDataDir) in done, EnterNormalMode in done, DisableOutput in done, InstallNotifyHook in done,
            if k < |steps| then Some("Initialization failed: " + fault.value.message) else None)
  }

  /** The settings reach the engine before the configuration files are
      read: fsync as true/false, the other two as on/off. */
  lemma InitAppliesPreinitConfig(dataDir: string, dbname: string, username: string, allowMods: bool,
                                 config: PreinitConfig)
    ensures var steps := InitSteps(dataDir, dbname, username, allowMods, config);
      steps[5] == Call(SetConfigOption("fsync", if config.fsync then "true" else "false")) &&
      steps[6] == Call(SetConfigOption("synchronous_commit", if config.synchronousCommit then "on" else "off")) &&
      steps[7] == Call(SetConfigOption("full_page_writes", if config.fullPageWrites then "on" else "off")) &&
      steps[if allowMods then 9 else 8] == Call(SelectConfigFiles(dataDir, username))
  {
  }

  /** `allow_system_table_mods` is set exactly when asked for. */
  lemma {:induction false} SystemModsOnlyWhenAsked(dataDir: string, dbname: string, username: string,
                                                    allowMods: bool, config: PreinitConfig)
    ensures Call(SetConfigOption("allow_system_table_mods", "true")) in InitSteps(dataDir, dbname, username, allowMods, config)
            <==> allowMods
  {
    var steps := InitSteps(dataDir, dbname, username, allowMods, config);
    var mods := Call(SetConfigOption("allow_system_table_mods", "true"));
    if allowMods {
      assert steps[8] == mods;
    } else {
      assert forall i :: 0 <= i < |steps| ==> steps[i] != mods;
    }
  }

  /** A failure after the switch into the data directory leaves the
      process there, with the flag still false. */
  lemma LateInitFailureStaysInDataDir(dataDir: string, dbname: string, username: string, allowMods: bool,
                                      config: PreinitConfig, fault: InitFault)
    requires var steps := InitSteps(dataDir, dbname, username, allowMods, config);
      (if allowMods then 11 else 10) < fault.at < |steps| && CanFail(steps[fault.at])
    ensures var e := RunInit(InitSteps(dataDir, dbname, username, allowMods, config), Some(fault));
      !e.ok && e.changedDir && e.savedCwd
  {
    var steps := InitSteps(dataDir, dbname, username, allowMods, config);
    var i := if allowMods then 11 else 10;
    assert steps[..fault.at][i] == Call(ChangeToDataDir);
    assert steps[..fault.at][1] == SaveCwd;
  }

  // ---------------------------------------------------------------------
  // Statements in an implicit transaction
  // ---------------------------------------------------------------------

  /** Where a LISTEN/UNLISTEN/NOTIFY try block raises. */
  datatype TxStep = AtTxStart | AtTxCall | AtTxCommit
  datatype TxFault = TxFault(at: TxStep, message: string)

  datatype TxRun = TxRun(calls: seq<EngineCall>, ok: bool, inTxAfter: bool)

  /** The statements run this way. */
  predicate IsNotifyStatement(call: EngineCall) {
    call.AsyncListen? || call.AsyncUnlisten? || call.AsyncUnlistenAll? || call.AsyncNotify?
  }

  /** Run `call`, inside a transaction of its own when none is open.  An
      error aborts whatever transaction is current. */
  function RunInImplicitTx(inTx: bool, call: EngineCall, fault: Option<TxFault>): (e: TxRun)
    requires IsNotifyStatement(call)
    ensures e.ok ==> e.inTxAfter == inTx && call in e.calls
    ensures e.ok ==> (StartTransactionCommand in e.calls <==> !inTx) && (CommitTransactionCommand in e.calls <==> !inTx)
    ensures !e.ok ==> |e.calls| > 0 && e.calls[|e.calls| - 1] == AbortCurrentTransaction && !e.inTxAfter
    ensures e.ok <==> fault.None? || (inTx && fault.value.at != AtTxCall)
    ensures !inTx ==> !e.inTxAfter
  {
    var start := if inTx then [] else [StartTransactionCommand];
    match fault
    case None =>
      if inTx then TxRun([call], true, true)
      else TxRun([StartTransactionCommand, call, CommitTransactionCommand], true, false)
    case Some(TxFault(AtTxCall, _)) => TxRun(start + [AbortCurrentTransaction], false, false)
    case Some(TxFault(AtTxStart, _)) =>
      if inTx then TxRun([call], true, true) else TxRun([AbortCurrentTransaction], false, false)
    case Some(TxFault(AtTxCommit, _)) =>
      if inTx then TxRun([call], true, true)
      else TxRun([StartTransactionCommand, call, AbortCurrentTransaction], false, false)
  }

  // ---------------------------------------------------------------------
  // Query execution
  // ---------------------------------------------------------------------

  /** The engine calls of `pg_embedded_exec`'s try block that can raise. */
  datatype ExecStep = AtStart | AtPush | AtConnect | AtExecute | AtFinish | AtPop | AtCommit | AtAbort

  datatype ExecFault = ExecFault(at: ExecStep, message: string)

  /** What the engine does during one `pg_embedded_exec`. */
  datatype ExecOracle = ExecOracle(
    resultAllocOk: bool,
    fault: Option<ExecFault>,
    connectOk: bool,
    spiRet: int,
    processed: nat,
    tuptable: Option<TupleTable>,
    copyAlloc: CopyAlloc,
    copyRaise: Option<CellPos>,
    copyRaiseMessage: string)

  /** The engine's own guarantee: a tuple table holds `processed` rows of
      the descriptor's width. */
  predicate OracleWellFormed(o: ExecOracle) {
    o.tuptable.Some? ==> WellFormed(o.tuptable.value) && |o.tuptable.value.vals| == o.processed
  }

  /** One step of the try block's path; `CopyRows` is the copy of the
      tuple table, which raises when a cell conversion does. */
  datatype PathStep = Step(s: ExecStep) | CopyRows

  /** Rows are copied only for a positive status with a tuple table. */
  predicate Copies(o: ExecOracle) {
    o.connectOk && o.spiRet > 0 && o.tuptable.Some?
  }

  predicate CopyRaises(o: ExecOracle)
    requires o.tuptable.Some?
  {
    o.copyAlloc.colnamesOk && o.copyAlloc.valuesOk &&
    StopOf(o.tuptable.value, o.copyAlloc, o.copyRaise).RaisedAt?
  }

  predicate CopyOutOfMemory(o: ExecOracle)
    requires o.tuptable.Some?
  {
    !o.copyAlloc.colnamesOk || !o.copyAlloc.valuesOk ||
    StopOf(o.tuptable.value, o.copyAlloc, o.copyRaise).AllocFailedAt?
  }

  /** The statement's status when nothing raises. */
  function NormalStatus(o: ExecOracle): int {
    if o.connectOk then o.spiRet else -1
  }

  /** The result survives the normal path unless the copy ran out of
      memory. */
  predicate ResultKept(o: ExecOracle) {
    !(Copies(o) && CopyOutOfMemory(o))
  }

  /** The order of the steps in the try block. */
  function Ord(p: PathStep): nat {
    match p
    case Step(AtStart) => 0
    case Step(AtPush) => 1
    case Step(AtConnect) => 2
    case Step(AtExecute) => 3
    case CopyRows => 4
    case Step(AtFinish) => 5
    case Step(AtPop) => 6
    case Step(AtCommit) => 7
    case Step(AtAbort) => 7
  }

  /** Whether the try block comes to `p` when nothing before it raises:
      the start only outside a transaction, the statement only after a
      successful connect, the copy only for a positive status with a tuple
      table, and at the end a commit of a kept result with a non-negative
      status or else an abort, both only for an implicit transaction. */
  predicate OnPath(p: PathStep, inTx: bool, o: ExecOracle) {
    match p
    case Step(AtStart) => !inTx
    case Step(AtPush) => true
    case Step(AtConnect) => true
    case Step(AtExecute) => o.connectOk
    case CopyRows => Copies(o)
    case Step(AtFinish) => o.connectOk
    case Step(AtPop) => true
    case Step(AtCommit) => !inTx && ResultKept(o) && NormalStatus(o) >= 0
    case Step(AtAbort) => !inTx && !(ResultKept(o) && NormalStatus(o) >= 0)
  }

  /** The step that raises: the earlier of the faulty engine call, when
      the try block comes to it, and a failing cell conversion. */
  function RaisePoint(inTx: bool, o: ExecOracle): (r: Option<PathStep>)
    ensures r.Some? ==> OnPath(r.value, inTx, o)
    ensures r.Some? && r.value.CopyRows? ==> Copies(o) && CopyRaises(o)
    ensures r.Some? && r.value.Step? ==> o.fault.Some? && r.value.s == o.fault.value.at
    ensures r.None? ==> (o.fault.None? || !OnPath(Step(o.fault.value.at), inTx, o)) && !(Copies(o) && CopyRaises(o))
  {
    var faultAt := if o.fault.Some? && OnPath(Step(o.fault.value.at), inTx, o) then Some(Step(o.fault.value.at)) else None;
    var copyAt := if Copies(o) && CopyRaises(o) then Some(CopyRows) else None;
    if faultAt.Some? && (copyAt.None? || Ord(faultAt.value) < Ord(CopyRows)) then faultAt else copyAt
  }

  /** The error text the catch block reports. */
  function RaiseText(r: PathStep, o: ExecOracle): string
    requires r.Step? ==> o.fault.Some?
  {
    if r.CopyRows? then o.copyRaiseMessage else o.fault.value.message
  }

  /** How far the try block gets: the position of the raising step, or
      past the end. */
  function Bound(inTx: bool, o: ExecOracle): nat {
    match RaisePoint(inTx, o)
    case None => 8
    case Some(r) => Ord(r)
  }

  /** `p` ran and returned. */
  predicate Completed(p: PathStep, inTx: bool, o: ExecOracle) {
    OnPath(p, inTx, o) && Ord(p) < Bound(inTx, o)
  }

  /** The try block came to `p`: it returned or raised. */
  predicate Reached(p: PathStep, inTx: bool, o: ExecOracle) {
    OnPath(p, inTx, o) && Ord(p) <= Bound(inTx, o)
  }

  function Emit(p: PathStep, call: EngineCall, bound: nat, inTx: bool, o: ExecOracle): seq<EngineCall> {
    if OnPath(p, inTx, o) && Ord(p) < bound then [call] else []
  }

  /** The engine calls of the try block's steps before `bound`, in order. */
  function CallsBefore(bound: nat, inTx: bool, query: string, o: ExecOracle): seq<EngineCall> {
    Emit(Step(AtStart), StartTransactionCommand, bound, inTx, o) +
    Emit(Step(AtPush), PushActiveSnapshot, bound, inTx, o) +
    Emit(Step(AtConnect), SpiConnect, bound, inTx, o) +
    Emit(Step(AtExecute), SpiExecute(query), bound, inTx, o) +
    Emit(Step(AtFinish), SpiFinish, bound, inTx, o) +
    Emit(Step(AtPop), PopActiveSnapshot, bound, inTx, o) +
    Emit(Step(AtCommit), CommitTransactionCommand, bound, inTx, o) +
    Emit(Step(AtAbort), AbortCurrentTransaction, bound, inTx, o)
  }

  /** The engine call a step of the try block makes. */
  function StepCall(s: ExecStep, query: string): EngineCall {
    match s
    case AtStart => StartTransactionCommand
    case AtPush => PushActiveSnapshot
    case AtConnect => SpiConnect
    case AtExecute => SpiExecute(query)
    case AtFinish => SpiFinish
    case AtPop => PopActiveSnapshot
    case AtCommit => CommitTransactionCommand
    case AtAbort => AbortCurrentTransaction
  }

  /** Each step's call occurs in CallsBefore once if the step is on the
      path before `bound`, and not at all otherwise. */
  lemma CallsBeforeCount(bound: nat, inTx: bool, query: string, o: ExecOracle, s: ExecStep)
    requires s != AtExecute
    ensures Count(CallsBefore(bound, inTx, query, o), StepCall(s, query)) ==
      if OnPath(Step(s), inTx, o) && Ord(Step(s)) < bound then 1 else 0
  {
    var c := StepCall(s, query);
    var e0 := Emit(Step(AtStart), StartTransactionCommand, bound, inTx, o);
    var e1 := Emit(Step(AtPush), PushActiveSnapshot, bound, inTx, o);
    var e2 := Emit(Step(AtConnect), SpiConnect, bound, inTx, o);
    var e3 := Emit(Step(AtExecute), SpiExecute(query), bound, inTx, o);
    var e4 := Emit(Step(AtFinish), SpiFinish, bound, inTx, o);
    var e5 := Emit(Step(AtPop), PopActiveSnapshot, bound, inTx, o);
    var e6 := Emit(Step(AtCommit), CommitTransactionCommand, bound, inTx, o);
    var e7 := Emit(Step(AtAbort), AbortCurrentTransaction, bound, inTx, o);
    CountAppend(e0 + e1 + e2 + e3 + e4 + e5 + e6, e7, c);
    CountAppend(e0 + e1 + e2 + e3 + e4 + e5, e6, c);
    CountAppend(e0 + e1 + e2 + e3 + e4, e5, c);
    CountAppend(e0 + e1 + e2 + e3, e4, c);
    CountAppend(e0 + e1 + e2, e3, c);
    CountAppend(e0 + e1, e2, c);
    CountAppend(e0, e1, c);
    EmitCount(Step(AtStart), StartTransactionCommand, bound, inTx, o, c);
    EmitCount(Step(AtPush), PushActiveSnapshot, bound, inTx, o, c);
    EmitCount(Step(AtConnect), SpiConnect, bound, inTx, o, c);
    EmitCount(Step(AtExecute), SpiExecute(query), bound, inTx, o, c);
    EmitCount(Step(AtFinish), SpiFinish, bound, inTx, o, c);
    EmitCount(Step(AtPop), PopActiveSnapshot, bound, inTx, o, c);
    EmitCount(Step(AtCommit), CommitTransactionCommand, bound, inTx, o, c);
    EmitCount(Step(AtAbort), AbortCurrentTransaction, bound, inTx, o, c);
  }

  lemma EmitCount(p: PathStep, call: EngineCall, bound: nat, inTx: bool, o: ExecOracle, c: EngineCall)
    ensures Count(Emit(p, call, bound, inTx, o), c) == if call == c && OnPath(p, inTx, o) && Ord(p) < bound then 1 else 0
  {
    if OnPath(p, inTx, o) && Ord(p) < bound {
      assert [call][1..] == [];
    }
  }

  /** The engine calls of the try block that returned, in order. */
  function TryCalls(inTx: bool, query: string, o: ExecOracle): seq<EngineCall> {
    CallsBefore(Bound(inTx, o), inTx, query, o)
  }

  /** The catch block's view of `snapshot_pushed`: set once the push
      returned, cleared just before the normal-path pop is called. */
  predicate SnapshotPushedAtRaise(inTx: bool, o: ExecOracle) {
    Completed(Step(AtPush), inTx, o) && !Reached(Step(AtPop), inTx, o)
  }

  /** The catch block's view of `spi_connected`: set once the connect
      succeeded, cleared just after the normal-path finish returned. */
  predicate SpiConnectedAtRaise(inTx: bool, o: ExecOracle) {
    o.connectOk && Completed(Step(AtConnect), inTx, o) && !Completed(Step(AtFinish), inTx, o)
  }

  /** The result was freed and set to NULL: the copy ran out of memory. */
  predicate ResultFreed(inTx: bool, o: ExecOracle) {
    Completed(CopyRows, inTx, o) && CopyOutOfMemory(o)
  }

  datatype ExecReturn = ReturnsNull | ReturnsResult | WritesThroughNull

  /** What one `pg_embedded_exec` past its guards does. */
  datatype ExecRun = ExecRun(
    calls: seq<EngineCall>, inTxAfter: bool, ret: ExecReturn,
    status: int, rows: nat, cols: nat, copied: bool, message: Option<string>)

  /** The engine calls of the catch block, as its two flags say. */
  function CatchCalls(snapshotPushed: bool, spiConnected: bool): (calls: seq<EngineCall>)
    ensures |calls| > 0 && calls[|calls| - 1] == AbortCurrentTransaction
    ensures PopActiveSnapshot in calls <==> snapshotPushed
    ensures SpiFinish in calls <==> spiConnected
  {
    (if snapshotPushed then [PopActiveSnapshot] else []) +
    (if spiConnected then [SpiFinish] else []) +
    [AbortCurrentTransaction]
  }

  /** The try block runs until RaisePoint.  The catch block then pops the
      snapshot and finishes SPI as the two flags say, aborts the current
      transaction and marks the result failed. */
  function RunExec(inTx: bool, query: string, o: ExecOracle): (r: ExecRun)
    ensures RaisePoint(inTx, o).Some? ==> !r.inTxAfter && r.status == -1 && r.ret != ReturnsNull
    ensures RaisePoint(inTx, o).None? ==> r.inTxAfter == inTx && r.ret != WritesThroughNull
  {
    var rp := RaisePoint(inTx, o);
    var executed := Completed(Step(AtExecute), inTx, o);
    var rows := if executed then o.processed else 0;
    var cols := if executed && Copies(o) then |o.tuptable.value.attnames| else 0;
    var copied := Reached(CopyRows, inTx, o);
    var freed := ResultFreed(inTx, o);
    if rp.Some? then
      var catchCalls := CatchCalls(SnapshotPushedAtRaise(inTx, o), SpiConnectedAtRaise(inTx, o));
      ExecRun(TryCalls(inTx, query, o) + catchCalls, false, if freed then WritesThroughNull else ReturnsResult,
              -1, rows, cols, copied, Some("Query failed: " + RaiseText(rp.value, o)))
    else
      ExecRun(TryCalls(inTx, query, o), inTx, if freed then ReturnsNull else ReturnsResult,
              NormalStatus(o), rows, cols, copied,
              if !o.connectOk then Some("SPI_connect failed")
              else if freed then Some(QueryResult.OutOfMemoryMessage)
              else None)
  }

  /** `SPI_execute` and the copy of its rows, after a successful connect.
      `raised` is the error of the statement or of a cell conversion. */
  method ExecStatementOnce(query: string, o: ExecOracle, result: PgResult)
    returns (raised: Option<string>, kept: bool, message: Option<string>)
    requires OracleWellFormed(o) && o.connectOk
    requires result.Valid() && result.status == 0 && result.rows == 0 && result.cols == 0
    requires result.colnames == null && result.values == null
    modifies result
    ensures var executeRaises := o.fault.Some? && o.fault.value.at == AtExecute;
      raised == (if executeRaises then Some(o.fault.value.message)
                 else if Copies(o) && CopyRaises(o) then Some(o.copyRaiseMessage) else None) &&
      kept == !(!executeRaises && Copies(o) && CopyOutOfMemory(o)) &&
      message == (if kept then None else Some(QueryResult.OutOfMemoryMessage)) &&
      result.status == (if executeRaises then 0 else o.spiRet) &&
      result.rows == (if executeRaises then 0 else o.processed) &&
      result.cols == (if !executeRaises && Copies(o) then |o.tuptable.value.attnames| else 0) &&
      result.View() == (if !executeRaises && Copies(o) then CopiedView(o.tuptable.value, o.copyAlloc, o.copyRaise, true)
                        else ResultView(None, None))
    ensures result.Valid()
    ensures result.colnames != null ==> fresh(result.colnames)
    ensures result.values != null ==> fresh(result.values)
  {
    raised, kept, message := None, true, None;
    if o.fault.Some? && o.fault.value.at == AtExecute {
      return Some(o.fault.value.message), kept, message;
    }
    result.status := o.spiRet;
    result.rows := o.processed;
    if o.spiRet > 0 && o.tuptable.Some? {
      result.cols := |o.tuptable.value.attnames|;
      var outcome := result.CopyTuptable(o.tuptable.value, o.copyAlloc, o.copyRaise, true);
      if outcome.Raised? {
        return Some(o.copyRaiseMessage), kept, message;
      }
      if outcome.OutOfMemory? {
        message := Some(QueryResult.OutOfMemoryMessage);
        var _ := FreeResult(result);
        kept := false;
      }
    }
  }

  /** What the catch block (or the code after the try block) finds when
      the try block stops: whether and why it raised, the two volatile
      flags, whether the result still exists, the message written, and the
      engine calls that returned. */
  ghost predicate TryEnd(inTx: bool, query: string, o: ExecOracle, raised: Option<string>, kept: bool,
                         spiConnected: bool, snapshotPushed: bool, message: Option<string>, calls: seq<EngineCall>)
  {
    var rp := RaisePoint(inTx, o);
    (raised.Some? <==> rp.Some?) && (rp.Some? ==> raised.value == RaiseText(rp.value, o)) &&
    calls == TryCalls(inTx, query, o) &&
    snapshotPushed == SnapshotPushedAtRaise(inTx, o) &&
    spiConnected == SpiConnectedAtRaise(inTx, o) &&
    kept == !ResultFreed(inTx, o) &&
    (rp.None? ==> message == if !o.connectOk then Some("SPI_connect failed")
                             else if !kept then Some(QueryResult.OutOfMemoryMessage) else None)
  }

  /** The result header and arrays as the try block leaves them. */
  ghost predicate TryResult(inTx: bool, o: ExecOracle, result: PgResult)
    reads result, result.colnames, result.values
  {
    result.Valid() &&
    result.rows == (if Completed(Step(AtExecute), inTx, o) then o.processed else 0) &&
    result.cols == (if Completed(Step(AtExecute), inTx, o) && Copies(o) then |o.tuptable.value.attnames| else 0) &&
    result.View() == if Reached(CopyRows, inTx, o)
                     then CopiedView(o.tuptable.value, o.copyAlloc, o.copyRaise, true)
                     else ResultView(None, None)
  }

  /** The try block of `pg_embedded_exec`, on a zeroed result.  An ERROR
      is an early return with `raised` set; the volatile flags come back as
      they stood at that point, which is what the catch block reads.
      `calls` are the engine calls that returned. */
  method ExecTry(query: string, o: ExecOracle, inTx: bool, result: PgResult)
    returns (raised: Option<string>, kept: bool, spiConnected: bool, snapshotPushed: bool,
             message: Option<string>, ghost calls: seq<EngineCall>)
    requires OracleWellFormed(o)
    requires result.Valid() && result.status == 0 && result.rows == 0 && result.cols == 0
    requires result.colnames == null && result.values == null
    modifies result
    ensures TryEnd(inTx, query, o, raised, kept, spiConnected, snapshotPushed, message, calls)
    ensures TryResult(inTx, o, result)
    ensures RaisePoint(inTx, o).None? && kept ==> result.status == NormalStatus(o)
    ensures result.colnames != null ==> fresh(result.colnames)
    ensures result.values != null ==> fresh(result.values)
  {
    var implicitTx;
    raised, implicitTx, snapshotPushed, calls := ExecOpen(query, o, inTx);
    if raised.Some? {
      return raised, true, false, snapshotPushed, None, calls;
    }
    raised, kept, spiConnected, snapshotPushed, message, calls := ExecAfterConnect(query, o, inTx, implicitTx, result, calls);
  }

  /** The try block once `SPI_connect` has returned: the statement, then
      the pop and the end of an implicit transaction. */
  method ExecAfterConnect(query: string, o: ExecOracle, inTx: bool, implicitTx: bool, result: PgResult,
                          ghost calls0: seq<EngineCall>)
    returns (raised: Option<string>, kept: bool, spiConnected: bool, snapshotPushed: bool,
             message: Option<string>, ghost calls: seq<EngineCall>)
    requires OracleWellFormed(o) && Bound(inTx, o) > 2 && calls0 == CallsBefore(3, inTx, query, o)
    requires implicitTx == !inTx
    requires result.Valid() && result.status == 0 && result.rows == 0 && result.cols == 0
    requires result.colnames == null && result.values == null
    modifies result
    ensures TryEnd(inTx, query, o, raised, kept, spiConnected, snapshotPushed, message, calls)
    ensures TryResult(inTx, o, result)
    ensures RaisePoint(inTx, o).None? && kept ==> result.status == NormalStatus(o)
    ensures result.colnames != null ==> fresh(result.colnames)
    ensures result.values != null ==> fresh(result.values)
  {
    snapshotPushed := true;
    raised, kept, spiConnected, message, calls := ExecStatement(query, o, inTx, result, calls0);
    if raised.Some? {
      return;
    }
    snapshotPushed := false;
    raised, calls := ExecClose(query, o, inTx, implicitTx, kept && result.status >= 0, calls);
  }

  /** The start of the try block: an implicit transaction when none is
      open, the snapshot push, and `SPI_connect`. */
  method ExecOpen(query: string, o: ExecOracle, inTx: bool)
    returns (raised: Option<string>, implicitTx: bool, snapshotPushed: bool, ghost calls: seq<EngineCall>)
    ensures raised.Some? ==> TryEnd(inTx, query, o, raised, true, false, snapshotPushed, None, calls)
    ensures raised.Some? <==> Bound(inTx, o) <= 2
    ensures raised.None? ==> implicitTx == !inTx && snapshotPushed && calls == CallsBefore(3, inTx, query, o)
  {
    raised, implicitTx, snapshotPushed, calls := None, false, false, [];
    if !inTx {
      if o.fault.Some? && o.fault.value.at == AtStart {
        assert Bound(inTx, o) == 0;
        return Some(o.fault.value.message), implicitTx, snapshotPushed, calls;
      }
      calls := calls + [StartTransactionCommand];
      implicitTx := true;
    }
    if o.fault.Some? && o.fault.value.at == AtPush {
      assert Bound(inTx, o) == 1;
      assert calls == CallsBefore(1, inTx, query, o);
      return Some(o.fault.value.message), implicitTx, snapshotPushed, calls;
    }
    calls := calls + [PushActiveSnapshot];
    snapshotPushed := true;
    if o.fault.Some? && o.fault.value.at == AtConnect {
      assert Bound(inTx, o) == 2;
      assert calls == CallsBefore(2, inTx, query, o);
      return Some(o.fault.value.message), implicitTx, snapshotPushed, calls;
    }
    calls := calls + [SpiConnect];
    assert calls == CallsBefore(3, inTx, query, o);
  }

  /** The middle of the try block: after a failed connect only the status;
      otherwise the statement, the copy, and `SPI_finish`. */
  method ExecStatement(query: string, o: ExecOracle, inTx: bool, result: PgResult, ghost calls0: seq<EngineCall>)
    returns (raised: Option<string>, kept: bool, spiConnected: bool, message: Option<string>,
             ghost calls: seq<EngineCall>)
    requires OracleWellFormed(o) && Bound(inTx, o) > 2 && calls0 == CallsBefore(3, inTx, query, o)
    requires result.Valid() && result.status == 0 && result.rows == 0 && result.cols == 0
    requires result.colnames == null && result.values == null
    modifies result
    ensures raised.Some? ==> TryEnd(inTx, query, o, raised, kept, spiConnected, true, message, calls)
    ensures raised.None? ==>
      Bound(inTx, o) > 5 && calls == CallsBefore(6, inTx, query, o) && !spiConnected &&
      kept == !ResultFreed(inTx, o) &&
      message == (if !o.connectOk then Some("SPI_connect failed")
                  else if !kept then Some(QueryResult.OutOfMemoryMessage) else None) &&
      (kept ==> result.status == NormalStatus(o))
    ensures TryResult(inTx, o, result)
    ensures result.colnames != null ==> fresh(result.colnames)
    ensures result.values != null ==> fresh(result.values)
  {
    if !o.connectOk {
      result.status := -1;
      assert Bound(inTx, o) == 8 || Bound(inTx, o) > 5;
      assert calls0 == CallsBefore(6, inTx, query, o);
      return None, true, false, Some("SPI_connect failed"), calls0;
    }
    raised, kept, spiConnected, message, calls := ExecConnected(query, o, inTx, result, calls0);
  }

  /** After a successful `SPI_connect`: `spi_connected` is set, the
      statement runs and its rows are copied, then `SPI_finish` runs and
      the flag is cleared. */
  method ExecConnected(query: string, o: ExecOracle, inTx: bool, result: PgResult, ghost calls0: seq<EngineCall>)
    returns (raised: Option<string>, kept: bool, spiConnected: bool, message: Option<string>,
             ghost calls: seq<EngineCall>)
    requires OracleWellFormed(o) && o.connectOk && Bound(inTx, o) > 2 && calls0 == CallsBefore(3, inTx, query, o)
    requires result.Valid() && result.status == 0 && result.rows == 0 && result.cols == 0
    requires result.colnames == null && result.values == null
    modifies result
    ensures raised.Some? ==> TryEnd(inTx, query, o, raised, kept, spiConnected, true, message, calls)
    ensures raised.None? ==>
      Bound(inTx, o) > 5 && calls == CallsBefore(6, inTx, query, o) && !spiConnected &&
      kept == !ResultFreed(inTx, o) &&
      message == (if !kept then Some(QueryResult.OutOfMemoryMessage) else None) &&
      (kept ==> result.status == NormalStatus(o))
    ensures TryResult(inTx, o, result)
    ensures result.colnames != null ==> fresh(result.colnames)
    ensures result.values != null ==> fresh(result.values)
  {
    raised, kept, message := ExecStatementOnce(query, o, result);
    ConnectedBound(inTx, o);
    assert TryResult(inTx, o, result);
    raised, spiConnected, calls := ConnectedFlags(query, o, inTx, raised, kept, message, calls0);
  }

  /** The flag and the engine calls around the statement, given how the
      statement and its copy ended: `spi_connected` is set before
      `SPI_execute`, and `SPI_finish` runs when they did not raise. */
  method ConnectedFlags(query: string, o: ExecOracle, inTx: bool, raised0: Option<string>, kept: bool,
                        message: Option<string>, ghost calls0: seq<EngineCall>)
    returns (raised: Option<string>, spiConnected: bool, ghost calls: seq<EngineCall>)
    requires o.connectOk && Bound(inTx, o) > 2 && calls0 == CallsBefore(3, inTx, query, o)
    requires var executeRaises := o.fault.Some? && o.fault.value.at == AtExecute;
      raised0 == (if executeRaises then Some(o.fault.value.message)
                  else if Copies(o) && CopyRaises(o) then Some(o.copyRaiseMessage) else None) &&
      kept == !(!executeRaises && Copies(o) && CopyOutOfMemory(o)) &&
      message == (if kept then None else Some(QueryResult.OutOfMemoryMessage))
    ensures raised.Some? ==> TryEnd(inTx, query, o, raised, kept, spiConnected, true, message, calls)
    ensures raised.None? ==>
      Bound(inTx, o) > 5 && calls == CallsBefore(6, inTx, query, o) && !spiConnected &&
      kept == !ResultFreed(inTx, o)
  {
    calls := calls0;
    spiConnected := true;
    if !(o.fault.Some? && o.fault.value.at == AtExecute) {
      calls := calls + [SpiExecute(query)];
    }
    ConnectedBound(inTx, o);
    if raised0.Some? {
      StatementRaised(inTx, query, o, message);
      return raised0, spiConnected, calls;
    }
    raised, spiConnected, calls := ExecFinish(query, o, inTx, calls);
    if raised.Some? {
      FinishRaised(inTx, query, o, message);
    }
  }

  /** After a connect, the statement raises at position 3, a cell
      conversion at 4, and otherwise the try block gets past the copy,
      where the result is freed exactly when the copy ran out of memory. */
  lemma ConnectedBound(inTx: bool, o: ExecOracle)
    requires o.connectOk && Bound(inTx, o) > 2
    ensures var executeRaises := o.fault.Some? && o.fault.value.at == AtExecute;
      (Bound(inTx, o) == 3 <==> executeRaises) &&
      (Bound(inTx, o) == 4 <==> !executeRaises && Copies(o) && CopyRaises(o)) &&
      (Bound(inTx, o) > 4 ==> (ResultFreed(inTx, o) <==> Copies(o) && CopyOutOfMemory(o)))
  {
  }

  /** The catch block's view when the statement or the copy raises: both
      flags set and the result still there. */
  lemma StatementRaised(inTx: bool, query: string, o: ExecOracle, message: Option<string>)
    requires o.connectOk && 2 < Bound(inTx, o) <= 4
    ensures RaisePoint(inTx, o).Some?
    ensures TryEnd(inTx, query, o, Some(RaiseText(RaisePoint(inTx, o).value, o)), true, true, true, message,
                   CallsBefore(Bound(inTx, o), inTx, query, o))
  {
  }

  /** The catch block's view when `SPI_finish` raises. */
  lemma FinishRaised(inTx: bool, query: string, o: ExecOracle, message: Option<string>)
    requires o.connectOk && Bound(inTx, o) == 5
    ensures RaisePoint(inTx, o) == Some(Step(AtFinish))
    ensures TryEnd(inTx, query, o, Some(RaiseText(Step(AtFinish), o)), !ResultFreed(inTx, o), true, true, message,
                   CallsBefore(5, inTx, query, o))
  {
  }

  /** `SPI_finish` after the statement and its copy; `spi_connected` is
      cleared once it returns. */
  method ExecFinish(query: string, o: ExecOracle, inTx: bool, ghost calls0: seq<EngineCall>)
    returns (raised: Option<string>, spiConnected: bool, ghost calls: seq<EngineCall>)
    requires o.connectOk && Bound(inTx, o) > 4 && calls0 == CallsBefore(5, inTx, query, o)
    ensures raised.Some? <==> Bound(inTx, o) == 5
    ensures raised.Some? ==> raised.value == RaiseText(Step(AtFinish), o) && spiConnected && calls == calls0
    ensures raised.None? ==> Bound(inTx, o) > 5 && !spiConnected && calls == CallsBefore(6, inTx, query, o)
  {
    if o.fault.Some? && o.fault.value.at == AtFinish {
      return Some(o.fault.value.message), true, calls0;
    }
    calls := calls0 + [SpiFinish];
    spiConnected := false;
    raised := None;
  }

  /** The end of the try block: the snapshot pop (its flag already
      cleared), then the commit or abort of an implicit transaction. */
  method ExecClose(query: string, o: ExecOracle, inTx: bool, implicitTx: bool, commit: bool,
                   ghost calls0: seq<EngineCall>)
    returns (raised: Option<string>, ghost calls: seq<EngineCall>)
    requires Bound(inTx, o) > 5 && calls0 == CallsBefore(6, inTx, query, o)
    requires implicitTx == !inTx && commit == (ResultKept(o) && NormalStatus(o) >= 0)
    ensures TryEnd(inTx, query, o, raised, !ResultFreed(inTx, o), false, false,
                   if !o.connectOk then Some("SPI_connect failed")
                   else if ResultFreed(inTx, o) then Some(QueryResult.OutOfMemoryMessage) else None,
                   calls)
  {
    calls := calls0;
    CloseEnd(inTx, query, o);
    if o.fault.Some? && o.fault.value.at == AtPop {
      return Some(o.fault.value.message), calls;
    }
    calls := calls + [PopActiveSnapshot];
    if implicitTx {
      if commit {
        if o.fault.Some? && o.fault.value.at == AtCommit {
          return Some(o.fault.value.message), calls;
        }
        calls := calls + [CommitTransactionCommand];
      } else {
        if o.fault.Some? && o.fault.value.at == AtAbort {
          return Some(o.fault.value.message), calls;
        }
        calls := calls + [AbortCurrentTransaction];
      }
    }
    raised := None;
  }

  /** Past `SPI_finish`, the try block ends at the pop, at the commit or
      abort, or after them, with both flags clear. */
  lemma CloseEnd(inTx: bool, query: string, o: ExecOracle)
    requires Bound(inTx, o) > 5
    ensures var popRaises := o.fault.Some? && o.fault.value.at == AtPop;
      var commit := ResultKept(o) && NormalStatus(o) >= 0;
      var endRaises := !inTx && o.fault.Some? && o.fault.value.at == (if commit then AtCommit else AtAbort);
      (Bound(inTx, o) == 6 <==> popRaises) &&
      (Bound(inTx, o) == 7 <==> !popRaises && endRaises)
    ensures CallsBefore(7, inTx, query, o) == CallsBefore(6, inTx, query, o) + [PopActiveSnapshot]
    ensures var commit := ResultKept(o) && NormalStatus(o) >= 0;
      CallsBefore(8, inTx, query, o) ==
        CallsBefore(7, inTx, query, o) +
        (if inTx then [] else if commit then [CommitTransactionCommand] else [AbortCurrentTransaction])
    ensures var b := Bound(inTx, o);
      TryEnd(inTx, query, o, if b == 8 then None else Some(o.fault.value.message), !ResultFreed(inTx, o), false, false,
             if !o.connectOk then Some("SPI_connect failed")
             else if ResultFreed(inTx, o) then Some(QueryResult.OutOfMemoryMessage) else None,
             CallsBefore(b, inTx, query, o))
  {
    PopBound(inTx, o);
    EndBound(inTx, o);
    CloseCalls(inTx, query, o);
    CloseTryEnd(inTx, query, o);
  }

  /** Past `SPI_finish`, the raise is at the pop exactly when the pop raises. */
  lemma PopBound(inTx: bool, o: ExecOracle)
    requires Bound(inTx, o) > 5
    ensures Bound(inTx, o) == 6 <==> o.fault.Some? && o.fault.value.at == AtPop
  {
  }

  /** Past the pop, the raise is at the commit or abort exactly when the one
      the run takes raises. */
  lemma EndBound(inTx: bool, o: ExecOracle)
    requires Bound(inTx, o) > 5
    ensures var commit := ResultKept(o) && NormalStatus(o) >= 0;
      Bound(inTx, o) == 7 <==>
        !(o.fault.Some? && o.fault.value.at == AtPop) &&
        !inTx && o.fault.Some? && o.fault.value.at == (if commit then AtCommit else AtAbort)
  {
  }

  /** The pop, then the commit or abort of an implicit transaction, as
      CallsBefore lists them. */
  lemma CloseCalls(inTx: bool, query: string, o: ExecOracle)
    ensures CallsBefore(7, inTx, query, o) == CallsBefore(6, inTx, query, o) + [PopActiveSnapshot]
    ensures var commit := ResultKept(o) && NormalStatus(o) >= 0;
      CallsBefore(8, inTx, query, o) ==
        CallsBefore(7, inTx, query, o) +
        (if inTx then [] else if commit then [CommitTransactionCommand] else [AbortCurrentTransaction])
  {
    var e := Emit(Step(AtStart), StartTransactionCommand, 6, inTx, o) +
      Emit(Step(AtPush), PushActiveSnapshot, 6, inTx, o) +
      Emit(Step(AtConnect), SpiConnect, 6, inTx, o) +
      Emit(Step(AtExecute), SpiExecute(query), 6, inTx, o) +
      Emit(Step(AtFinish), SpiFinish, 6, inTx, o);
    PopCall(inTx, query, o, e);
    EndCall(inTx, query, o, e);
  }

  lemma PopCall(inTx: bool, query: string, o: ExecOracle, e: seq<EngineCall>)
    requires e == Emit(Step(AtStart), StartTransactionCommand, 6, inTx, o) +
      Emit(Step(AtPush), PushActiveSnapshot, 6, inTx, o) +
      Emit(Step(AtConnect), SpiConnect, 6, inTx, o) +
      Emit(Step(AtExecute), SpiExecute(query), 6, inTx, o) +
      Emit(Step(AtFinish), SpiFinish, 6, inTx, o)
    ensures CallsBefore(6, inTx, query, o) == e
    ensures CallsBefore(7, inTx, query, o) == e + [PopActiveSnapshot]
  {
    assert CallsBefore(6, inTx, query, o) == e + [] + [] + [];
    assert CallsBefore(7, inTx, query, o) == e + [PopActiveSnapshot] + [] + [];
  }

  lemma EndCall(inTx: bool, query: string, o: ExecOracle, e: seq<EngineCall>)
    requires e == Emit(Step(AtStart), StartTransactionCommand, 6, inTx, o) +
      Emit(Step(AtPush), PushActiveSnapshot, 6, inTx, o) +
      Emit(Step(AtConnect), SpiConnect, 6, inTx, o) +
      Emit(Step(AtExecute), SpiExecute(query), 6, inTx, o) +
      Emit(Step(AtFinish), SpiFinish, 6, inTx, o)
    ensures var commit := ResultKept(o) && NormalStatus(o) >= 0;
      CallsBefore(8, inTx, query, o) ==
        e + [PopActiveSnapshot] +
        (if inTx then [] else if commit then [CommitTransactionCommand] else [AbortCurrentTransaction])
  {
    assert CallsBefore(8, inTx, query, o) ==
      e + [PopActiveSnapshot] + Emit(Step(AtCommit), CommitTransactionCommand, 8, inTx, o) +
      Emit(Step(AtAbort), AbortCurrentTransaction, 8, inTx, o);
  }

  lemma CloseTryEnd(inTx: bool, query: string, o: ExecOracle)
    requires Bound(inTx, o) > 5
    ensures var b := Bound(inTx, o);
      TryEnd(inTx, query, o, if b == 8 then None else Some(o.fault.value.message), !ResultFreed(inTx, o), false, false,
             if !o.connectOk then Some("SPI_connect failed")
             else if ResultFreed(inTx, o) then Some(QueryResult.OutOfMemoryMessage) else None,
             CallsBefore(b, inTx, query, o))
  {
  }

  /** The result record `pg_embedded_exec` returns agrees with the run:
      its status, its counts, and the names and cells copied so far. */
  ghost predicate ExecResultMatches(e: ExecRun, o: ExecOracle, result: PgResult)
    reads result, result.colnames, result.values
  {
    result.Valid() && result.status == e.status && result.rows == e.rows && result.cols == e.cols &&
    result.View() == if e.copied && o.tuptable.Some?
                     then CopiedView(o.tuptable.value, o.copyAlloc, o.copyRaise, true)
                     else ResultView(None, None)
  }

  /** Where the try block stops determines the whole run: the catch
      block's calls follow from the two flags, and the result record is
      the one the try block filled in. */
  lemma TryMatchesRun(inTx: bool, query: string, o: ExecOracle, raised: Option<string>, kept: bool,
                      spiConnected: bool, snapshotPushed: bool, message: Option<string>, calls: seq<EngineCall>,
                      result: PgResult)
    requires TryEnd(inTx, query, o, raised, kept, spiConnected, snapshotPushed, message, calls)
    requires TryResult(inTx, o, result)
    requires RaisePoint(inTx, o).None? && kept ==> result.status == NormalStatus(o)
    ensures var e := RunExec(inTx, query, o);
      e.calls == calls + (if raised.Some? then CatchCalls(snapshotPushed, spiConnected) else []) &&
      e.inTxAfter == (inTx && raised.None?) &&
      e.message == (if raised.Some? then Some("Query failed: " + raised.value) else message) &&
      e.ret == (if raised.Some? then (if kept then ReturnsResult else WritesThroughNull)
                else if kept then ReturnsResult else ReturnsNull) &&
      (raised.Some? ==> e.status == -1) && (raised.None? && kept ==> e.status == result.status) &&
      result.Valid() && result.rows == e.rows && result.cols == e.cols &&
      result.View() == if e.copied && o.tuptable.Some?
                       then CopiedView(o.tuptable.value, o.copyAlloc, o.copyRaise, true)
                       else ResultView(None, None)
  {
  }

  /** Autocommit: when nothing raises, a transaction is started exactly
      when none was open, and that one is committed when the result
      survived with a non-negative status and aborted otherwise; an
      explicit transaction is left open and neither committed nor
      aborted. */
  lemma NormalExecTransaction(inTx: bool, query: string, o: ExecOracle)
    requires RaisePoint(inTx, o).None?
    ensures var e := RunExec(inTx, query, o);
      (StartTransactionCommand in e.calls <==> !inTx) &&
      (CommitTransactionCommand in e.calls <==> !inTx && ResultKept(o) && NormalStatus(o) >= 0) &&
      (AbortCurrentTransaction in e.calls <==> !inTx && !(ResultKept(o) && NormalStatus(o) >= 0)) &&
      e.inTxAfter == inTx && e.status == NormalStatus(o) &&
      (e.ret == ReturnsNull <==> !ResultKept(o))
  {
    assert Bound(inTx, o) == 8;
    CallsBeforeCount(8, inTx, query, o, AtStart);
    CallsBeforeCount(8, inTx, query, o, AtCommit);
    CallsBeforeCount(8, inTx, query, o, AtAbort);
    var calls := RunExec(inTx, query, o).calls;
    CountPositive(calls, StartTransactionCommand);
    CountPositive(calls, CommitTransactionCommand);
    CountPositive(calls, AbortCurrentTransaction);
  }

  /** An error anywhere in the try block ends with the current
      transaction aborted, the explicit one included; status -1 is written
      through the result pointer, which is NULL exactly when the copy had
      run out of memory before the error. */
  lemma FailedExecAborts(inTx: bool, query: string, o: ExecOracle)
    requires RaisePoint(inTx, o).Some?
    ensures var e := RunExec(inTx, query, o);
      |e.calls| > 0 && e.calls[|e.calls| - 1] == AbortCurrentTransaction &&
      !e.inTxAfter && e.status == -1 &&
      e.message == Some("Query failed: " + RaiseText(RaisePoint(inTx, o).value, o)) &&
      (e.ret == WritesThroughNull <==> ResultFreed(inTx, o)) && e.ret != ReturnsNull
  {
  }

  /** The snapshot pushed by the try block is popped exactly once, on the
      normal path or in the catch block, unless the pop itself raised: the
      flag is cleared before the pop is called, so the catch block does
      not call it again. */
  lemma SnapshotPoppedUnlessPopRaises(inTx: bool, query: string, o: ExecOracle)
    ensures var e := RunExec(inTx, query, o);
      Count(e.calls, PopActiveSnapshot) ==
        if Count(e.calls, PushActiveSnapshot) == 1 && RaisePoint(inTx, o) != Some(Step(AtPop)) then 1 else 0
  {
    PushCount(inTx, query, o);
    PopCount(inTx, query, o);
    FlagsAtRaise(inTx, o);
  }

  lemma PushCount(inTx: bool, query: string, o: ExecOracle)
    ensures Count(RunExec(inTx, query, o).calls, PushActiveSnapshot) == if 1 < Bound(inTx, o) then 1 else 0
  {
    CallsBeforeCount(Bound(inTx, o), inTx, query, o, AtPush);
    ExecCallCounts(inTx, query, o, PushActiveSnapshot);
  }

  /** The pop runs in the try block once past position 6, and in the
      catch block when the try block stopped between the push and the pop. */
  lemma PopCount(inTx: bool, query: string, o: ExecOracle)
    ensures var b := Bound(inTx, o);
      Count(RunExec(inTx, query, o).calls, PopActiveSnapshot) == if 1 < b && b != 6 then 1 else 0
  {
    FlagsAtRaise(inTx, o);
    CallsBeforeCount(Bound(inTx, o), inTx, query, o, AtPop);
    ExecCallCounts(inTx, query, o, PopActiveSnapshot);
  }

  /** SPI is finished exactly once after a successful connect, on the
      normal path or in the catch block; a finish that raises is called
      again by the catch block, since the flag is cleared only after it
      returns.  A failed connect is never finished. */
  lemma SpiFinishedUnlessFinishRaises(inTx: bool, query: string, o: ExecOracle)
    ensures var e := RunExec(inTx, query, o);
      Count(e.calls, SpiFinish) ==
        if Count(e.calls, SpiConnect) == 1 && o.connectOk then 1 else 0
  {
    ConnectCount(inTx, query, o);
    FinishCount(inTx, query, o);
  }

  lemma ConnectCount(inTx: bool, query: string, o: ExecOracle)
    ensures Count(RunExec(inTx, query, o).calls, SpiConnect) == if 2 < Bound(inTx, o) then 1 else 0
  {
    CallsBeforeCount(Bound(inTx, o), inTx, query, o, AtConnect);
    ExecCallCounts(inTx, query, o, SpiConnect);
  }

  /** After a successful connect, the finish runs in the try block once
      past position 5, and in the catch block when the try block stopped
      between the connect and the end of the finish. */
  lemma FinishCount(inTx: bool, query: string, o: ExecOracle)
    ensures Count(RunExec(inTx, query, o).calls, SpiFinish) == if o.connectOk && 2 < Bound(inTx, o) then 1 else 0
  {
    FlagsAtRaise(inTx, o);
    CallsBeforeCount(Bound(inTx, o), inTx, query, o, AtFinish);
    ExecCallCounts(inTx, query, o, SpiFinish);
  }

  /** The two flags the catch block reads, by how far the try block got. */
  lemma FlagsAtRaise(inTx: bool, o: ExecOracle)
    ensures var b := Bound(inTx, o);
      (RaisePoint(inTx, o).None? <==> b == 8) &&
      (RaisePoint(inTx, o) == Some(Step(AtPop)) <==> b == 6) &&
      (SnapshotPushedAtRaise(inTx, o) <==> 1 < b < 6) &&
      (SpiConnectedAtRaise(inTx, o) <==> o.connectOk && 2 < b <= 5)
  {
  }

  /** The catch block pops and finishes at most once each, as its flags
      say, and makes no other call but the abort. */
  lemma CatchCallsCount(pushed: bool, connected: bool, c: EngineCall)
    ensures Count(CatchCalls(pushed, connected), PopActiveSnapshot) == (if pushed then 1 else 0)
    ensures Count(CatchCalls(pushed, connected), SpiFinish) == (if connected then 1 else 0)
    ensures c != PopActiveSnapshot && c != SpiFinish && c != AbortCurrentTransaction ==>
      Count(CatchCalls(pushed, connected), c) == 0
  {
    var pop: seq<EngineCall> := if pushed then [PopActiveSnapshot] else [];
    var finish: seq<EngineCall> := if connected then [SpiFinish] else [];
    assert CatchCalls(pushed, connected) == pop + finish + [AbortCurrentTransaction];
    CountAppend(pop + finish, [AbortCurrentTransaction], PopActiveSnapshot);
    CountAppend(pop, finish, PopActiveSnapshot);
    CountAppend(pop + finish, [AbortCurrentTransaction], SpiFinish);
    CountAppend(pop, finish, SpiFinish);
    CountAppend(pop + finish, [AbortCurrentTransaction], c);
    CountAppend(pop, finish, c);
  }

  /** A call's count in the run is its count in the try block plus its
      count in the catch block, where the pop and the finish occur at
      most once. */
  lemma ExecCallCounts(inTx: bool, query: string, o: ExecOracle, c: EngineCall)
    ensures var e := RunExec(inTx, query, o);
      var catchCalls := CatchCalls(SnapshotPushedAtRaise(inTx, o), SpiConnectedAtRaise(inTx, o));
      Count(e.calls, c) == Count(TryCalls(inTx, query, o), c) +
        (if RaisePoint(inTx, o).Some? then Count(catchCalls, c) else 0) &&
      Count(catchCalls, PopActiveSnapshot) == (if SnapshotPushedAtRaise(inTx, o) then 1 else 0) &&
      Count(catchCalls, SpiFinish) == (if SpiConnectedAtRaise(inTx, o) then 1 else 0) &&
      (c != PopActiveSnapshot && c != SpiFinish && c != AbortCurrentTransaction ==> Count(catchCalls, c) == 0)
  {
    var catchCalls := CatchCalls(SnapshotPushedAtRaise(inTx, o), SpiConnectedAtRaise(inTx, o));
    CatchCallsCount(SnapshotPushedAtRaise(inTx, o), SpiConnectedAtRaise(inTx, o), c);
    if RaisePoint(inTx, o).Some? {
      CountAppend(TryCalls(inTx, query, o), catchCalls, c);
    }
  }

  /** Rows are copied only for a positive status with a tuple table, and
      the column count is the descriptor's width exactly then. */
  lemma CopyOnlyForRows(inTx: bool, query: string, o: ExecOracle)
    ensures var e := RunExec(inTx, query, o);
      (e.copied ==> o.connectOk && o.spiRet > 0 && o.tuptable.Some? && e.rows == o.processed &&
                    e.cols == |o.tuptable.value.attnames|) &&
      (!Copies(o) ==> !e.copied && e.cols == 0)
  {
  }

  // ---------------------------------------------------------------------
  // The harness state and its entry points
  // ---------------------------------------------------------------------

  const NotInitializedMessage: string := "Not initialized"
  const ChannelRequiredMessage: string := "Channel name required"
  const NotInTransactionMessage: string := "Not in transaction"

  /** What `pg_embedded_exec` hands back.  `NullDereference` is the catch
      block writing `result->status` after the result was freed and set to
      NULL: the behaviour is undefined. */
  datatype ExecResult = NullResult | Result(r: PgResult) | NullDereference

  /** The harness's static state, with the engine's transaction state and
      the process's working directory beside it. */
  class Session {
    /** `pg_initialized`. */
    var initialized: bool
    /** `original_cwd`; empty while none was captured. */
    var originalCwd: string
    /** The process's working directory. */
    var cwd: string
    /** `preinit_config`. */
    var config: PreinitConfig
    /** `pg_error_msg`. */
    var errorMessage: string
    /** The engine's `IsTransactionState()`. */
    var inTransaction: bool
    /** Whether the engine's notify hook points at the capture function. */
    var hookInstalled: bool
    /** The engine calls that returned, oldest first. */
    ghost var log: seq<EngineCall>
    const atexit: AtExitStack
    const process: Reset.ProcessGlobals
    const queue: Notifications.NotificationQueue

    ghost predicate Valid()
      reads atexit, queue, queue.nodes
    {
      atexit.Valid() && queue.Valid()
    }

    /** A process that has not initialised the backend yet. */
    constructor (cwd: string)
      ensures Valid() && !initialized && originalCwd == "" && this.cwd == cwd && config == DefaultConfig
      ensures errorMessage == "" && !inTransaction && !hookInstalled && log == []
      ensures atexit.Registered() == [] && queue.Contents() == [] && process.globals == Reset.Pristine
    {
      initialized := false;
      originalCwd := "";
      this.cwd := cwd;
      config := DefaultConfig;
      errorMessage := "";
      inTransaction := false;
      hookInstalled := false;
      log := [];
      atexit := new AtExitStack();
      process := new Reset.ProcessGlobals();
      queue := new Notifications.NotificationQueue();
    }

    /** `pg_embedded_set_config`: NULL changes nothing. */
    method SetConfig(c: Option<PreinitConfig>)
      modifies this
      ensures config == if c.Some? then c.value else old(config)
      ensures initialized == old(initialized) && errorMessage == old(errorMessage) && log == old(log)
      ensures inTransaction == old(inTransaction) && cwd == old(cwd) && originalCwd == old(originalCwd)
      ensures hookInstalled == old(hookInstalled)
    {
      if c.Some? {
        config := c.value;
      }
    }

    /** `pg_embedded_init_internal`.  Already initialised: 0, "Already
        initialized", and nothing else happens.  A NULL argument: -1,
        "Invalid arguments", before any engine call.  Otherwise the steps of
        InitSteps run until one fails; the flag is set only when none does. */
    method Init(dataDir: Option<string>, dbname: Option<string>, username: Option<string>, allowMods: bool,
                fault: Option<InitFault>)
      returns (rc: int)
      requires Valid()
      modifies this, process
      ensures Valid()
      ensures old(initialized) ==>
        rc == 0 && errorMessage == "Already initialized" && initialized && log == old(log) &&
        cwd == old(cwd) && originalCwd == old(originalCwd) && hookInstalled == old(hookInstalled) &&
        process.globals == old(process.globals)
      ensures !old(initialized) && (dataDir.None? || dbname.None? || username.None?) ==>
        rc == -1 && errorMessage == "Invalid arguments" && !initialized && log == old(log) &&
        cwd == old(cwd) && originalCwd == old(originalCwd) && hookInstalled == old(hookInstalled) &&
        process.globals == old(process.globals)
      ensures !old(initialized) && dataDir.Some? && dbname.Some? && username.Some? ==>
        var e := RunInit(InitSteps(dataDir.value, dbname.value, username.value, allowMods, old(config)), fault);
        (rc == 0 <==> e.ok) && (rc == -1 <==> !e.ok) &&
        initialized == e.ok && log == old(log) + e.calls &&
        errorMessage == e.message.GetOr(old(errorMessage)) &&
        originalCwd == (if e.savedCwd then old(cwd) else old(originalCwd)) &&
        cwd == (if e.changedDir then dataDir.value else old(cwd)) &&
        hookInstalled == (e.hookInstalled || old(hookInstalled)) &&
        process.globals.mode == (if e.normalMode then Reset.NormalProcessing else old(process.globals.mode)) &&
        process.globals.whereToSendOutput ==
          (if e.outputDisabled then Reset.DestNone else old(process.globals.whereToSendOutput))
      ensures config == old(config) && inTransaction == old(inTransaction)
    {
      if initialized {
        errorMessage := "Already initialized";
        return 0;
      }
      if dataDir.None? || dbname.None? || username.None? {
        errorMessage := "Invalid arguments";
        return -1;
      }
      // PG_TRY: the steps run in order up to the one that fails; PG_CATCH
      // only writes the message.
      var e := RunInit(InitSteps(dataDir.value, dbname.value, username.value, allowMods, config), fault);
      rc := ApplyInit(e, dataDir.value);
    }

    /** What an initialisation attempt leaves in the harness and process
        state. */
    method ApplyInit(e: InitRun, dataDir: string) returns (rc: int)
      requires Valid()
      modifies this, process
      ensures Valid()
      ensures (rc == 0 <==> e.ok) && (rc == -1 <==> !e.ok)
      ensures initialized == e.ok && log == old(log) + e.calls && errorMessage == e.message.GetOr(old(errorMessage))
      ensures originalCwd == (if e.savedCwd then old(cwd) else old(originalCwd))
      ensures cwd == (if e.changedDir then dataDir else old(cwd))
      ensures hookInstalled == (e.hookInstalled || old(hookInstalled))
      ensures process.globals.mode == (if e.normalMode then Reset.NormalProcessing else old(process.globals.mode))
      ensures process.globals.whereToSendOutput ==
        (if e.outputDisabled then Reset.DestNone else old(process.globals.whereToSendOutput))
      ensures config == old(config) && inTransaction == old(inTransaction)
    {
      process.LeaveInit(e.normalMode, e.outputDisabled);
      rc := RecordInit(e, dataDir);
    }

    /** The harness's own variables after an initialisation attempt. */
    method RecordInit(e: InitRun, dataDir: string) returns (rc: int)
      modifies this
      ensures (rc == 0 <==> e.ok) && (rc == -1 <==> !e.ok)
      ensures initialized == e.ok && log == old(log) + e.calls && errorMessage == e.message.GetOr(old(errorMessage))
      ensures originalCwd == (if e.savedCwd then old(cwd) else old(originalCwd))
      ensures cwd == (if e.changedDir then dataDir else old(cwd))
      ensures hookInstalled == (e.hookInstalled || old(hookInstalled))
      ensures config == old(config) && inTransaction == old(inTransaction)
    {
      log := log + e.calls;
      originalCwd := if e.savedCwd then cwd else originalCwd;
      cwd := if e.changedDir then dataDir else cwd;
      hookInstalled := e.hookInstalled || hookInstalled;
      initialized := e.ok;
      errorMessage := e.message.GetOr(errorMessage);
      rc := if e.ok then 0 else -1;
    }

    /** `pg_embedded_exec`.  Before the try block: "Not initialized",
        "NULL query" or "Out of memory" and a NULL result, with no engine
        call.  Then the try block and, when it raises, the catch block run
        as RunExec says; the result comes back as the try block or the
        catch block left it. */
    method Exec(query: Option<string>, o: ExecOracle) returns (r: ExecResult)
      requires OracleWellFormed(o)
      modifies this
      ensures !old(initialized) || query.None? || !o.resultAllocOk ==>
        r.NullResult? && log == old(log) && inTransaction == old(inTransaction) &&
        errorMessage == (if !old(initialized) then NotInitializedMessage
                         else if query.None? then "NULL query" else QueryResult.OutOfMemoryMessage)
      ensures old(initialized) && query.Some? && o.resultAllocOk ==>
        var e := RunExec(old(inTransaction), query.value, o);
        log == old(log) + e.calls && inTransaction == e.inTxAfter &&
        errorMessage == e.message.GetOr(old(errorMessage)) &&
        (r.NullResult? <==> e.ret == ReturnsNull) && (r.NullDereference? <==> e.ret == WritesThroughNull) &&
        (r.Result? ==> fresh(r.r) && ExecResultMatches(e, o, r.r))
      ensures initialized == old(initialized) && config == old(config) && cwd == old(cwd)
      ensures originalCwd == old(originalCwd) && hookInstalled == old(hookInstalled)
    {
      if !initialized {
        errorMessage := NotInitializedMessage;
        return NullResult;
      }
      if query.None? {
        errorMessage := "NULL query";
        return NullResult;
      }
      if !o.resultAllocOk {
        errorMessage := QueryResult.OutOfMemoryMessage;
        return NullResult;
      }
      r := ExecQuery(query.value, o);
    }

    /** `pg_embedded_exec` from the allocation of the zeroed result on. */
    method ExecQuery(query: string, o: ExecOracle) returns (r: ExecResult)
      requires OracleWellFormed(o)
      modifies this
      ensures var e := RunExec(old(inTransaction), query, o);
        log == old(log) + e.calls && inTransaction == e.inTxAfter &&
        errorMessage == e.message.GetOr(old(errorMessage)) &&
        (r.NullResult? <==> e.ret == ReturnsNull) && (r.NullDereference? <==> e.ret == WritesThroughNull) &&
        (r.Result? ==> fresh(r.r) && ExecResultMatches(e, o, r.r))
      ensures initialized == old(initialized) && config == old(config) && cwd == old(cwd)
      ensures originalCwd == old(originalCwd) && hookInstalled == old(hookInstalled)
    {
      var result := new PgResult();
      var raised, kept, spiConnected, snapshotPushed, message, calls := ExecTry(query, o, inTransaction, result);
      ghost var e := RunExec(inTransaction, query, o);
      TryMatchesRun(inTransaction, query, o, raised, kept, spiConnected, snapshotPushed, message, calls, result);
      r := ApplyExec(e, o, raised, kept, spiConnected, snapshotPushed, message, calls, result);
    }

    /** What the catch block, or the return after the try block, leaves,
        given the run `e` the try block's end determines: on an error the
        message, the catch block's calls, no transaction, and status -1
        written through the result pointer. */
    method ApplyExec(ghost e: ExecRun, o: ExecOracle, raised: Option<string>, kept: bool, spiConnected: bool,
                     snapshotPushed: bool, message: Option<string>, ghost calls: seq<EngineCall>, result: PgResult)
      returns (r: ExecResult)
      requires e.calls == calls + (if raised.Some? then CatchCalls(snapshotPushed, spiConnected) else [])
      requires e.inTxAfter == (inTransaction && raised.None?)
      requires e.message == (if raised.Some? then Some("Query failed: " + raised.value) else message)
      requires e.ret == (if raised.Some? then (if kept then ReturnsResult else WritesThroughNull)
                         else if kept then ReturnsResult else ReturnsNull)
      requires raised.Some? ==> e.status == -1
      requires raised.None? && kept ==> e.status == result.status
      requires result.Valid() && result.rows == e.rows && result.cols == e.cols
      requires result.View() == if e.copied && o.tuptable.Some?
                                then CopiedView(o.tuptable.value, o.copyAlloc, o.copyRaise, true)
                                else ResultView(None, None)
      modifies this, result
      ensures log == old(log) + e.calls && inTransaction == e.inTxAfter
      ensures errorMessage == e.message.GetOr(old(errorMessage))
      ensures (r.NullResult? <==> e.ret == ReturnsNull) && (r.NullDereference? <==> e.ret == WritesThroughNull)
      ensures r.Result? ==> r.r == result && ExecResultMatches(e, o, result)
      ensures initialized == old(initialized) && config == old(config) && cwd == old(cwd)
      ensures originalCwd == old(originalCwd) && hookInstalled == old(hookInstalled)
    {
      if raised.Some? {
        // PG_CATCH
        errorMessage := "Query failed: " + raised.value;
        log := log + calls + CatchCalls(snapshotPushed, spiConnected);
        inTransaction := false;
        if kept {
          result.status := -1;
          r := Result(result);
        } else {
          r := NullDereference;
        }
      } else {
        log := log + calls;
        if message.Some? {
          errorMessage := message.value;
        }
        r := if kept then Result(result) else NullResult;
      }
    }

    /** `pg_embedded_begin`. */
    method Begin(fault: Option<string>) returns (rc: int)
      modifies this
      ensures !old(initialized) ==>
        rc == -1 && errorMessage == NotInitializedMessage && log == old(log) && inTransaction == old(inTransaction)
      ensures old(initialized) && old(inTransaction) ==>
        rc == -1 && errorMessage == "Already in transaction" && log == old(log) && inTransaction
      ensures old(initialized) && !old(inTransaction) && fault.None? ==>
        rc == 0 && inTransaction && log == old(log) + [StartTransactionCommand] && errorMessage == old(errorMessage)
      ensures old(initialized) && !old(inTransaction) && fault.Some? ==>
        rc == -1 && !inTransaction && log == old(log) + [AbortCurrentTransaction] &&
        errorMessage == "BEGIN failed: " + fault.value
      ensures initialized == old(initialized) && config == old(config) && cwd == old(cwd)
      ensures originalCwd == old(originalCwd) && hookInstalled == old(hookInstalled)
    {
      if !initialized {
        errorMessage := NotInitializedMessage;
        return -1;
      }
      if inTransaction {
        errorMessage := "Already in transaction";
        return -1;
      }
      if fault.Some? {
        // StartTransactionCommand raised.
        errorMessage := "BEGIN failed: " + fault.value;
        log := log + [AbortCurrentTransaction];
        inTransaction := false;
        return -1;
      }
      log := log + [StartTransactionCommand];
      inTransaction := true;
      rc := 0;
    }

    /** `pg_embedded_commit`. */
    method Commit(fault: Option<string>) returns (rc: int)
      modifies this
      ensures !old(initialized) ==>
        rc == -1 && errorMessage == NotInitializedMessage && log == old(log) && inTransaction == old(inTransaction)
      ensures old(initialized) && !old(inTransaction) ==>
        rc == -1 && errorMessage == NotInTransactionMessage && log == old(log) && !inTransaction
      ensures old(initialized) && old(inTransaction) && fault.None? ==>
        rc == 0 && !inTransaction && log == old(log) + [CommitTransactionCommand] && errorMessage == old(errorMessage)
      ensures old(initialized) && old(inTransaction) && fault.Some? ==>
        rc == -1 && !inTransaction && log == old(log) + [AbortCurrentTransaction] &&
        errorMessage == "COMMIT failed: " + fault.value
      ensures initialized == old(initialized) && config == old(config) && cwd == old(cwd)
      ensures originalCwd == old(originalCwd) && hookInstalled == old(hookInstalled)
    {
      if !initialized {
        errorMessage := NotInitializedMessage;
        return -1;
      }
      if !inTransaction {
        errorMessage := NotInTransactionMessage;
        return -1;
      }
      if fault.Some? {
        // CommitTransactionCommand raised.
        errorMessage := "COMMIT failed: " + fault.value;
        log := log + [AbortCurrentTransaction];
        inTransaction := false;
        return -1;
      }
      log := log + [CommitTransactionCommand];
      inTransaction := false;
      rc := 0;
    }

    /** `pg_embedded_rollback`: before initialisation the message is "Not
        in transaction" as well.  An error from the abort is discarded and
        0 returned; the raising abort has no effect. */
    method Rollback(abortRaises: bool) returns (rc: int)
      modifies this
      ensures !old(initialized) || !old(inTransaction) ==>
        rc == -1 && errorMessage == NotInTransactionMessage && log == old(log) && inTransaction == old(inTransaction)
      ensures old(initialized) && old(inTransaction) ==>
        rc == 0 && errorMessage == old(errorMessage) &&
        log == old(log) + (if abortRaises then [] else [AbortCurrentTransaction]) &&
        inTransaction == abortRaises
      ensures initialized == old(initialized) && config == old(config) && cwd == old(cwd)
      ensures originalCwd == old(originalCwd) && hookInstalled == old(hookInstalled)
    {
      if !initialized {
        errorMessage := NotInTransactionMessage;
        return -1;
      }
      if !inTransaction {
        errorMessage := NotInTransactionMessage;
        return -1;
      }
      if !abortRaises {
        log := log + [AbortCurrentTransaction];
        inTransaction := false;
      }
      rc := 0;
    }

    /** The try/catch shared by listen, unlisten and notify: open a
        transaction if none is open, run the statement, commit what was
        opened here; on an error abort the current transaction. */
    method InImplicitTx(call: EngineCall, fault: Option<TxFault>) returns (ok: bool)
      requires IsNotifyStatement(call)
      modifies this
      ensures var e := RunInImplicitTx(old(inTransaction), call, fault);
        ok == e.ok && log == old(log) + e.calls && inTransaction == e.inTxAfter
      ensures initialized == old(initialized) && config == old(config) && cwd == old(cwd)
      ensures originalCwd == old(originalCwd) && hookInstalled == old(hookInstalled)
      ensures errorMessage == old(errorMessage)
    {
      var implicitTx := false;
      var raised := false;
      if !inTransaction {
        if fault.Some? && fault.value.at == AtTxStart {
          raised := true;
        } else {
          log := log + [StartTransactionCommand];
          inTransaction := true;
          implicitTx := true;
        }
      }
      if !raised {
        if fault.Some? && fault.value.at == AtTxCall {
          raised := true;
        } else {
          log := log + [call];
        }
      }
      if !raised && implicitTx {
        if fault.Some? && fault.value.at == AtTxCommit {
          raised := true;
        } else {
          log := log + [CommitTransactionCommand];
          inTransaction := false;
        }
      }
      if raised {
        log := log + [AbortCurrentTransaction];
        inTransaction := false;
      }
      ok := !raised;
    }

    /** `pg_embedded_listen`: a NULL or empty channel is refused before any
        engine call. */
    method Listen(channel: Option<string>, fault: Option<TxFault>) returns (rc: int)
      modifies this
      ensures !old(initialized) ==>
        rc == -1 && errorMessage == NotInitializedMessage && log == old(log) && inTransaction == old(inTransaction)
      ensures old(initialized) && (channel.None? || channel.value == "") ==>
        rc == -1 && errorMessage == ChannelRequiredMessage && log == old(log) && inTransaction == old(inTransaction)
      ensures old(initialized) && channel.Some? && channel.value != "" ==>
        var e := RunInImplicitTx(old(inTransaction), AsyncListen(channel.value), fault);
        log == old(log) + e.calls && inTransaction == e.inTxAfter &&
        (e.ok ==> rc == 0 && errorMessage == old(errorMessage)) &&
        (!e.ok ==> rc == -1 && errorMessage == "LISTEN failed: " + fault.value.message)
      ensures initialized == old(initialized) && config == old(config) && cwd == old(cwd)
      ensures originalCwd == old(originalCwd) && hookInstalled == old(hookInstalled)
    {
      if !initialized {
        errorMessage := NotInitializedMessage;
        return -1;
      }
      if channel.None? || channel.value == "" {
        errorMessage := ChannelRequiredMessage;
        return -1;
      }
      var ok := InImplicitTx(AsyncListen(channel.value), fault);
      if !ok {
        errorMessage := "LISTEN failed: " + fault.value.message;
        return -1;
      }
      rc := 0;
    }

    /** `pg_embedded_unlisten`: NULL means every channel; an empty name is
        passed through. */
    method Unlisten(channel: Option<string>, fault: Option<TxFault>) returns (rc: int)
      modifies this
      ensures !old(initialized) ==>
        rc == -1 && errorMessage == NotInitializedMessage && log == old(log) && inTransaction == old(inTransaction)
      ensures old(initialized) ==>
        var call := if channel.None? then AsyncUnlistenAll else AsyncUnlisten(channel.value);
        var e := RunInImplicitTx(old(inTransaction), call, fault);
        log == old(log) + e.calls && inTransaction == e.inTxAfter &&
        (e.ok ==> rc == 0 && errorMessage == old(errorMessage)) &&
        (!e.ok ==> rc == -1 && errorMessage == "UNLISTEN failed: " + fault.value.message)
      ensures initialized == old(initialized) && config == old(config) && cwd == old(cwd)
      ensures originalCwd == old(originalCwd) && hookInstalled == old(hookInstalled)
    {
      if !initialized {
        errorMessage := NotInitializedMessage;
        return -1;
      }
      var call := if channel.None? then AsyncUnlistenAll else AsyncUnlisten(channel.value);
      var ok := InImplicitTx(call, fault);
      if !ok {
        errorMessage := "UNLISTEN failed: " + fault.value.message;
        return -1;
      }
      rc := 0;
    }

    /** `pg_embedded_notify`: a NULL or empty channel is refused; a NULL
        payload is sent as the empty string. */
    method Notify(channel: Option<string>, payload: Option<string>, fault: Option<TxFault>) returns (rc: int)
      modifies this
      ensures !old(initialized) ==>
        rc == -1 && errorMessage == NotInitializedMessage && log == old(log) && inTransaction == old(inTransaction)
      ensures old(initialized) && (channel.None? || channel.value == "") ==>
        rc == -1 && errorMessage == ChannelRequiredMessage && log == old(log) && inTransaction == old(inTransaction)
      ensures old(initialized) && channel.Some? && channel.value != "" ==>
        var e := RunInImplicitTx(old(inTransaction), AsyncNotify(channel.value, payload.GetOr("")), fault);
        log == old(log) + e.calls && inTransaction == e.inTxAfter &&
        (e.ok ==> rc == 0 && errorMessage == old(errorMessage)) &&
        (!e.ok ==> rc == -1 && errorMessage == "NOTIFY failed: " + fault.value.message)
      ensures initialized == old(initialized) && config == old(config) && cwd == old(cwd)
      ensures originalCwd == old(originalCwd) && hookInstalled == old(hookInstalled)
    {
      if !initialized {
        errorMessage := NotInitializedMessage;
        return -1;
      }
      if channel.None? || channel.value == "" {
        errorMessage := ChannelRequiredMessage;
        return -1;
      }
      var ok := InImplicitTx(AsyncNotify(channel.value, payload.GetOr("")), fault);
      if !ok {
        errorMessage := "NOTIFY failed: " + fault.value.message;
        return -1;
      }
      rc := 0;
    }

    /** `pg_embedded_initdb`.  Without a data directory or a user name:
        -1 and "data_dir and username are required", nothing reset.
        Otherwise the process globals are reset, then initdb runs; a
        non-zero result becomes -1 and "initdb failed".  `exited` says
        that initdb ended the process with `exit(1)` instead. */
    method InitdbInProcess(dataDir: Option<string>, username: Option<string>, encoding: Option<string>,
                  locale: Option<string>, o: Initdb.InitdbOracle)
      returns (rc: int, exited: bool)
      requires Valid()
      modifies this, process, queue
      ensures Valid()
      ensures dataDir.None? || username.None? ==>
        rc == -1 && !exited && errorMessage == "data_dir and username are required" &&
        process.globals == old(process.globals) && queue.Contents() == old(queue.Contents()) &&
        process.subsystemResets == old(process.subsystemResets)
      ensures dataDir.Some? && username.Some? ==>
        var m := Initdb.InitdbMain(Initdb.DirPlan, dataDir, username, encoding, locale, o);
        process.globals == Reset.Pristine && queue.Contents() == [] &&
        process.subsystemResets == old(process.subsystemResets) + Reset.SubsystemResetOrder &&
        (exited <==> m.end.Exited?) &&
        (!exited ==> (rc == 0 <==> m.end.rc == 0) && (rc == 0 || rc == -1) &&
                     errorMessage == if rc == 0 then old(errorMessage) else "initdb failed")
      ensures initialized == old(initialized) && log == old(log) && inTransaction == old(inTransaction)
    {
      if dataDir.None? || username.None? {
        errorMessage := "data_dir and username are required";
        return -1, false;
      }
      process.ResetState(queue);
      var m := Initdb.InitdbMain(Initdb.DirPlan, dataDir, username, encoding, locale, o);
      if m.end.Exited? {
        return -1, true;
      }
      if m.end.rc != 0 {
        errorMessage := "initdb failed";
        return -1, false;
      }
      rc, exited := 0, false;
    }

    /** `pg_embedded_shutdown`.  Not initialised: nothing happens.
        Otherwise `shmem_exit` runs (its error is discarded; when it
        returns, the engine has left any transaction), the exit handlers
        run newest first, the saved directory is restored if one was
        captured and `chdir` succeeds, and the flag is cleared.  `called`
        is the order in which the handlers ran. */
    method Shutdown(shmemRaises: bool, chdirOk: bool) returns (called: seq<Handler>)
      requires Valid()
      modifies this, atexit
      ensures Valid()
      ensures !old(initialized) ==>
        called == [] && !initialized && log == old(log) && cwd == old(cwd) &&
        atexit.Registered() == old(atexit.Registered()) && inTransaction == old(inTransaction)
      ensures old(initialized) ==>
        !initialized && atexit.Registered() == [] && called == Reversed(old(atexit.Registered())) &&
        log == old(log) + (if shmemRaises then [] else [ShmemExit]) &&
        inTransaction == (old(inTransaction) && shmemRaises) &&
        cwd == (if old(originalCwd) != "" && chdirOk then old(originalCwd) else old(cwd))
      ensures errorMessage == old(errorMessage) && originalCwd == old(originalCwd) && config == old(config)
      ensures hookInstalled == old(hookInstalled)
    {
      if !initialized {
        return [];
      }
      if !shmemRaises {
        log := log + [ShmemExit];
        inTransaction := false;
      }
      called := atexit.Execute();
      if originalCwd != "" && chdirOk {
        cwd := originalCwd;
      }
      initialized := false;
    }
  }
}
