/**
 * Request construction in SwitchConnection (topo/switch.py:53-136): each
 * session operation fills a fresh request field by field from its
 * parameters, so each builder is a function of those parameters.
 *
 * The partner of the builders is `Interpret`, which reads back the
 * operation a request asks for and rejects any request not of the fixed
 * shape the session sends (one update or one entity, election id 0/1,
 * INSERT, VERIFY_AND_COMMIT). The lemmas show that the builders produce
 * exactly the requests `Interpret` accepts, one request per operation.
 */
module Requests {
  import opened Wrappers
  import opened P4Runtime

  /** The election id every session uses: high 0, low 1. */
  const SessionElectionId: Uint128 := Uint128(0, 1)

  /** An optional id as the request carries it: absent becomes the wildcard 0. */
  function IdOrWildcard(id: Option<uint32>): uint32
  {
    if id.Some? then id.value else 0
  }

  /** MasterArbitrationUpdate (switch.py:55-58). */
  function MasterArbitrationUpdateRequest(deviceId: uint64): Request
  {
    Arbitration(deviceId, SessionElectionId)
  }

  /**
   * SetForwardingPipelineConfig (switch.py:69-78); `deviceConfig` is the
   * serialized output of the device family's buildDeviceConfig.
   */
  function SetForwardingPipelineConfigRequest(deviceId: uint64, p4info: P4Info, deviceConfig: Bytes): Request
  {
    SetPipelineConfig(deviceId, SessionElectionId,
                      ForwardingPipelineConfig(p4info, deviceConfig), VerifyAndCommit)
  }

  /** WriteTableEntry (switch.py:86-92). */
  function WriteTableEntryRequest(deviceId: uint64, entry: TableEntry): Request
  {
    Write(deviceId, SessionElectionId, [Update(Insert, TableEntity(entry))])
  }

  /**
   * ReadTableEntries as evidently intended (switch.py:101-109): the table
   * id is the supplied one, else the wildcard 0; nothing else of the
   * table entry is set.
   */
  function ReadTableEntriesRequest(deviceId: uint64, tableId: Option<uint32>): Request
  {
    Read(deviceId, [TableEntity(TableEntry(IdOrWildcard(tableId), []))])
  }

  /**
   * ReadCounters (switch.py:119-130): the counter id is the supplied one,
   * else the wildcard 0; the index is set only when supplied.
   */
  function ReadCountersRequest(deviceId: uint64, counterId: Option<uint32>, index: Option<int64>): Request
  {
    Read(deviceId, [CounterEntity(CounterEntry(IdOrWildcard(counterId), index))])
  }

  /** What happens to ReadTableEntries as switch.py:100-109 is written. */
  datatype PyError = NameError(name: string)

  /**
   * ReadTableEntries as written: the parameter `table_entry` is shadowed at
   * line 104 and line 106 reads `table_id`, a name bound nowhere, so the
   * request is never built and the generator raises NameError on its first
   * step, whatever the arguments.
   */
  function ReadTableEntriesRequestAsWritten(deviceId: uint64, tableEntry: Option<uint32>): Result<Request, PyError>
  {
    Failure(NameError("table_id"))
  }

  /** The operations a session's requests stand for. Id 0 is the wildcard. */
  datatype Operation =
    | ClaimMastership(deviceId: uint64)
    | PushPipeline(deviceId: uint64, p4info: P4Info, deviceConfig: Bytes)
    | InsertEntry(deviceId: uint64, entry: TableEntry)
    | ReadTables(deviceId: uint64, tableId: uint32)
    | ReadCounterCells(deviceId: uint64, counterId: uint32, index: Option<int64>)

  /** The request a session builds for an operation. */
  function RequestFor(op: Operation): Request
  {
    match op
    case ClaimMastership(d) => MasterArbitrationUpdateRequest(d)
    case PushPipeline(d, p, c) => SetForwardingPipelineConfigRequest(d, p, c)
    case InsertEntry(d, e) => WriteTableEntryRequest(d, e)
    case ReadTables(d, t) => ReadTableEntriesRequest(d, Some(t))
    case ReadCounterCells(d, c, i) => ReadCountersRequest(d, Some(c), i)
  }

  /**
   * The operation a request asks for, or None when the request is not of
   * the session's fixed shape.
   */
  function Interpret(r: Request): Option<Operation>
  {
    match r
    case Arbitration(d, e) =>
      if e == SessionElectionId then Some(ClaimMastership(d)) else None
    case SetPipelineConfig(d, e, c, a) =>
      if e == SessionElectionId && a == VerifyAndCommit
      then Some(PushPipeline(d, c.p4info, c.p4DeviceConfig)) else None
    case Write(d, e, us) =>
      if e == SessionElectionId && |us| == 1 && us[0].kind == Insert && us[0].entity.TableEntity?
      then Some(InsertEntry(d, us[0].entity.tableEntry)) else None
    case Read(d, es) =>
      if |es| != 1 then None
      else match es[0]
        case TableEntity(t) => if t.rest == [] then Some(ReadTables(d, t.tableId)) else None
        case CounterEntity(c) => Some(ReadCounterCells(d, c.counterId, c.index))
  }

  /** Whether a read request asks for the entries of table `tableId`. */
  predicate ReadsTable(r: Request, tableId: uint32)
  {
    r.Read? &&
    exists e :: e in r.entities && e.TableEntity? &&
      (e.tableEntry.tableId == 0 || e.tableEntry.tableId == tableId)
  }

  /** Whether a read request asks for cell `index` of counter `counterId`. */
  predicate ReadsCounterCell(r: Request, counterId: uint32, index: int64)
  {
    r.Read? &&
    exists e :: e in r.entities && e.CounterEntity? &&
      (e.counterEntry.counterId == 0 || e.counterEntry.counterId == counterId) &&
      (e.counterEntry.index.None? || e.counterEntry.index.value == index)
  }

  /** Every operation's request reads back as that operation. */
  lemma InterpretRequestFor(op: Operation)
    ensures Interpret(RequestFor(op)) == Some(op)
  {
  }

  /** Every request of the fixed shape is the one its operation builds. */
  lemma RequestForInterpret(r: Request)
    ensures Interpret(r).Some? ==> RequestFor(Interpret(r).value) == r
  {
    if Interpret(r).Some? {
      match r
      case Write(d, e, us) =>
        assert us == [us[0]];
      case Read(d, es) =>
        assert es == [es[0]];
      case _ =>
    }
  }

  /** Two operations never share a request. */
  lemma RequestForInjective(op1: Operation, op2: Operation)
    ensures RequestFor(op1) == RequestFor(op2) ==> op1 == op2
  {
    InterpretRequestFor(op1);
    InterpretRequestFor(op2);
  }

  /**
   * An arbitration request carries the session's device id and election id
   * high 0, low 1, and asks for mastership of that device.
   */
  lemma ArbitrationRequestShape(deviceId: uint64)
    ensures var r := MasterArbitrationUpdateRequest(deviceId);
      && r.Arbitration? && r.deviceId == deviceId
      && r.electionId.high == 0 && r.electionId.low == 1
      && Interpret(r) == Some(ClaimMastership(deviceId))
  {
  }

  /**
   * A pipeline config request carries the device id, election id low 1, the
   * given P4Info, the built device config and action VERIFY_AND_COMMIT.
   */
  lemma PipelineConfigRequestShape(deviceId: uint64, p4info: P4Info, deviceConfig: Bytes)
    ensures var r := SetForwardingPipelineConfigRequest(deviceId, p4info, deviceConfig);
      && r.SetPipelineConfig? && r.deviceId == deviceId && r.electionId.low == 1
      && r.config.p4info == p4info && r.config.p4DeviceConfig == deviceConfig
      && r.action == VerifyAndCommit
      && Interpret(r) == Some(PushPipeline(deviceId, p4info, deviceConfig))
  {
  }

  /**
   * A write request has exactly one update, an INSERT of the given entry,
   * with the device id and election id low 1.
   */
  lemma WriteRequestShape(deviceId: uint64, entry: TableEntry)
    ensures var r := WriteTableEntryRequest(deviceId, entry);
      && r.Write? && r.deviceId == deviceId && r.electionId.low == 1
      && |r.updates| == 1 && r.updates[0].kind == Insert
      && r.updates[0].entity == TableEntity(entry)
      && Interpret(r) == Some(InsertEntry(deviceId, entry))
  {
  }

  /**
   * A table read request has exactly one entity, a table entry whose id is
   * the supplied one, else the wildcard 0; it asks for table `u` exactly
   * when no id (or 0) was supplied or `u` was.
   */
  lemma TableReadRequestShape(deviceId: uint64, tableId: Option<uint32>, u: uint32)
    ensures var r := ReadTableEntriesRequest(deviceId, tableId);
      && r.Read? && r.deviceId == deviceId && |r.entities| == 1
      && r.entities[0].TableEntity?
      && r.entities[0].tableEntry.tableId == (if tableId.Some? then tableId.value else 0)
      && (ReadsTable(r, u) <==> tableId.None? || tableId.value == 0 || tableId.value == u)
  {
    var r := ReadTableEntriesRequest(deviceId, tableId);
    if tableId.None? || tableId.value == 0 || tableId.value == u {
      assert r.entities[0] in r.entities;
    }
  }

  /**
   * A counter read request has exactly one entity, a counter entry whose id
   * is the supplied one, else the wildcard 0, and whose index is set only
   * when supplied; it asks for cell `i` of counter `c` exactly when both
   * filters let that cell through.
   */
  lemma CounterReadRequestShape(deviceId: uint64, counterId: Option<uint32>, index: Option<int64>,
                                c: uint32, i: int64)
    ensures var r := ReadCountersRequest(deviceId, counterId, index);
      && r.Read? && r.deviceId == deviceId && |r.entities| == 1
      && r.entities[0].CounterEntity?
      && r.entities[0].counterEntry.counterId == (if counterId.Some? then counterId.value else 0)
      && (r.entities[0].counterEntry.index.Some? <==> index.Some?)
      && (index.Some? ==> r.entities[0].counterEntry.index.value == index.value)
      && (ReadsCounterCell(r, c, i) <==>
            (counterId.None? || counterId.value == 0 || counterId.value == c) &&
            (index.None? || index.value == i))
  {
    var r := ReadCountersRequest(deviceId, counterId, index);
    if (counterId.None? || counterId.value == 0 || counterId.value == c) &&
       (index.None? || index.value == i) {
      assert r.entities[0] in r.entities;
    }
  }

  /**
   * The defect at switch.py:106: as written, a table read fails for every
   * supplied id, where the intended request reads exactly that table.
   */
  lemma TableIdDefect(deviceId: uint64, t: uint32)
    ensures ReadTableEntriesRequestAsWritten(deviceId, Some(t)) == Failure(NameError("table_id"))
    ensures ReadTableEntriesRequest(deviceId, Some(t)).entities[0].tableEntry.tableId == t
    ensures ReadsTable(ReadTableEntriesRequest(deviceId, Some(t)), t)
  {
    var r := ReadTableEntriesRequest(deviceId, Some(t));
    assert r.entities[0] in r.entities;
  }
}
