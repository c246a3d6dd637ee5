/**
 * The P4Runtime messages the session fills in. Only the fields that
 * topo/switch.py sets are modelled; every other field keeps its protobuf
 * default. Messages the session only passes along (the P4Info, the rest of
 * a table entry, the device payload) are opaque byte strings.
 */
module P4Runtime {
  import opened Wrappers

  /** Protobuf integer widths of the fields the session sets. */
  type uint32 = x: int | 0 <= x < 0x1_0000_0000
  type uint64 = x: int | 0 <= x < 0x1_0000_0000_0000_0000
  type int64 = x: int | -0x8000_0000_0000_0000 <= x < 0x8000_0000_0000_0000
  type byte = x: int | 0 <= x < 0x100
  type Bytes = seq<byte>

  /** A 128-bit election id split into two 64-bit halves. */
  datatype Uint128 = Uint128(high: uint64, low: uint64)

  /** The P4Info of a compiled program, kept as its serialized form. */
  datatype P4Info = P4Info(serialized: Bytes)

  /**
   * A table entry: its table id, and every other field (match, action,
   * priority, ...) as one serialized remainder; `[]` means all defaults.
   */
  datatype TableEntry = TableEntry(tableId: uint32, rest: Bytes)

  /** A counter entry: its counter id and, when set, the cell index. */
  datatype CounterEntry = CounterEntry(counterId: uint32, index: Option<int64>)

  datatype Entity =
    | TableEntity(tableEntry: TableEntry)
    | CounterEntity(counterEntry: CounterEntry)

  datatype UpdateType = Insert | Modify | Delete

  datatype Update = Update(kind: UpdateType, entity: Entity)

  datatype ForwardingPipelineConfig = ForwardingPipelineConfig(p4info: P4Info, p4DeviceConfig: Bytes)

  datatype PipelineAction = Verify | VerifyAndSave | VerifyAndCommit | Commit

  /**
   * The requests the session sends: the arbitration message it puts on the
   * bidirectional stream (StreamMessageRequest.arbitration) and the three
   * unary requests.
   */
  datatype Request =
    | Arbitration(deviceId: uint64, electionId: Uint128)
    | SetPipelineConfig(deviceId: uint64, electionId: Uint128,
                        config: ForwardingPipelineConfig, action: PipelineAction)
    | Write(deviceId: uint64, electionId: Uint128, updates: seq<Update>)
    | Read(deviceId: uint64, entities: seq<Entity>)
}
