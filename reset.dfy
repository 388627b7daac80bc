/** The global reset that runs before an in-process initdb: every backend
    global the harness can reach is put back to the value it has before the
    first initialisation, the notification queue is drained, and each
    engine subsystem is asked to clear its own static state. */
module Reset {
  import opened Common
  import Notifications

  /** An opaque engine pointer. */
  type Ptr = nat

  type Oid = nat
  const InvalidOid: Oid := 0

  datatype ProcessingMode = BootstrapProcessing | InitProcessing | NormalProcessing

  datatype BackendType = BInvalid | BBackend | BStandaloneBackend | BOtherBackend

  /** `CommandDest`: where the backend sends its output. */
  datatype CommandDest = DestNone | DestDebug | DestRemote | DestOther

  /** The engine subsystems whose static state is reset, by their reset
      entry points. */
  datatype Subsystem =
    | Guc | Md | Smgr | Portal | Transaction | UserId | XLog | Namespace
    | DynaHash | FileDescriptor | Ipc | CatalogCache | RelCache

  /** The order in which `reset_state` asks the subsystems to reset. */
  const SubsystemResetOrder: seq<Subsystem> :=
    [Guc, Md, Smgr, Portal, Transaction, UserId, XLog, Namespace, DynaHash, FileDescriptor, Ipc,
     CatalogCache, RelCache]

  /** The values of the process globals `reset_state` assigns. */
  datatype Globals = Globals(
    topMemoryContext: Option<Ptr>, errorContext: Option<Ptr>, messageContext: Option<Ptr>,
    currentMemoryContext: Option<Ptr>, cacheMemoryContext: Option<Ptr>, topTransactionContext: Option<Ptr>,
    currentResourceOwner: Option<Ptr>, auxProcessResourceOwner: Option<Ptr>,
    mode: ProcessingMode, myBackendType: BackendType,
    myDatabaseId: Oid, myDatabaseTableSpace: Oid, myProcPid: int,
    myProc: Option<Ptr>, dataDir: Option<string>, configFileName: Option<string>,
    blockSig: set<nat>, startupBlockSig: set<nat>,
    whereToSendOutput: CommandDest,
    myStartTime: int, myStartTimestamp: int, pgStartTime: int,
    usedShmemSegId: nat, criticalRelcachesBuilt: bool, criticalSharedRelcachesBuilt: bool)

  /** The state `reset_state` establishes. */
  const Pristine: Globals := Globals(
    None, None, None, None, None, None,
    None, None,
    InitProcessing, BInvalid,
    InvalidOid, InvalidOid, 0,
    None, None, None,
    {}, {},
    DestDebug,
    0, 0, 0,
    0, false, false)

  /** The process-wide backend globals, as one record that the reset
      rewrites group by group. */
  class ProcessGlobals {
    var globals: Globals
    /** The subsystem resets requested so far. */
    ghost var subsystemResets: seq<Subsystem>

    /** The globals as the process starts. */
    constructor ()
      ensures globals == Pristine && subsystemResets == []
    {
      globals := Pristine;
      subsystemResets := [];
    }

    /** `reset_state`.  Every directly assigned global gets a constant, so
        the new state does not depend on the old one: a second reset
        changes nothing a first one did not.  The queue is left empty and
        the thirteen subsystem resets are requested in their fixed order. */
    method ResetState(queue: Notifications.NotificationQueue)
      requires queue.Valid()
      modifies this, queue
      ensures globals == Pristine
      ensures queue.Valid() && queue.Contents() == [] && queue.head == null && queue.tail == null
      ensures subsystemResets == old(subsystemResets) + SubsystemResetOrder
    {
      // 1. Memory contexts.
      globals := globals.(
        topMemoryContext := None, errorContext := None, messageContext := None,
        currentMemoryContext := None, cacheMemoryContext := None, topTransactionContext := None);
      // 2. Resource owners.
      globals := globals.(currentResourceOwner := None, auxProcessResourceOwner := None);
      // 3. Processing mode and backend type.
      globals := globals.(mode := InitProcessing, myBackendType := BInvalid);
      // 4. Database and configuration.
      globals := globals.(
        myDatabaseId := InvalidOid, myDatabaseTableSpace := InvalidOid, myProcPid := 0,
        myProc := None, dataDir := None, configFileName := None);
      // 5. Signal masks.
      globals := globals.(blockSig := {}, startupBlockSig := {});
      // 6. Output destination.
      globals := globals.(whereToSendOutput := DestDebug);
      // 7. Timestamps.
      globals := globals.(myStartTime := 0, myStartTimestamp := 0, pgStartTime := 0);
      // 8. Shared memory segment and relation-cache flags.
      globals := globals.(
        usedShmemSegId := 0, criticalRelcachesBuilt := false, criticalSharedRelcachesBuilt := false);

      queue.Reset();

      // The thirteen `Reset*State` calls, one after the other.
      subsystemResets := subsystemResets + SubsystemResetOrder;
    }

    /** The end of a successful initialisation: `NormalProcessing`, and the
        backend's output sent nowhere.  Each write happens only when the
        initialisation got that far. */
    method LeaveInit(normalMode: bool, outputDisabled: bool)
      modifies this
      ensures globals == old(globals).(mode := if normalMode then NormalProcessing else old(globals.mode),
                                       whereToSendOutput := if outputDisabled then DestNone else old(globals.whereToSendOutput))
      ensures subsystemResets == old(subsystemResets)
    {
      if normalMode {
        globals := globals.(mode := NormalProcessing);
      }
      if outputDisabled {
        globals := globals.(whereToSendOutput := DestNone);
      }
    }
  }
}
