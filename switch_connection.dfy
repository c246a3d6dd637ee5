/**
 * SwitchConnection and the module-level registry of topo/switch.py.
 *
 * The gRPC channel, the stub and the StreamChannel call are foreign: what
 * the model keeps of them is the log of calls the sessions make (`Runtime.
 * calls`), the replies the device sends on the stream (given at
 * construction) and the responses a Read call streams back (given per
 * call). `Runtime` holds the module's global state: the `connections`
 * list and that call log, shared by every session of the process.
 */
module Switch {
  import opened Wrappers
  import opened P4Runtime
  import opened Requests
  import opened Queues

  /** A StreamMessageResponse the device sends on the bidirectional stream. */
  datatype StreamResponse = StreamResponse(body: Bytes)

  /** One ReadResponse of a Read call's response stream. */
  datatype ReadResponse = ReadResponse(body: Bytes)

  /** The unary-request RPCs of the P4Runtime stub the session calls. */
  datatype Rpc = SetForwardingPipelineConfigRpc | WriteRpc | ReadRpc

  /** A call a session makes on its queue, its stub or its stream, in the order made. */
  datatype Call =
    | OpenStream(session: SwitchConnection)
    | Put(session: SwitchConnection, request: Request)
    | Close(session: SwitchConnection)
    | StubCall(session: SwitchConnection, rpc: Rpc, request: Request)
    | Cancel(session: SwitchConnection)

  /** What MasterArbitrationUpdate gives back. */
  datatype ArbitrationReply =
    | NotSent                        // dry run: nothing was sent
    | Reply(response: StreamResponse) // the first message the stream delivered
    | NoReply                        // the stream ended without a message
    | StreamCancelled                // the stream was cancelled: iterating it raises

  /** The outcome of reading one message off the stream. */
  function FirstReply(pending: seq<StreamResponse>, cancelled: bool): ArbitrationReply
  {
    if cancelled then StreamCancelled
    else if pending == [] then NoReply
    else Reply(pending[0])
  }

  /** The calls that shutting down `cs` one after the other makes. */
  function ShutdownCalls(cs: seq<SwitchConnection>): (calls: seq<Call>)
    ensures |calls| == 2 * |cs|
  {
    if cs == [] then []
    else ShutdownCalls(cs[..|cs| - 1]) + [Close(cs[|cs| - 1]), Cancel(cs[|cs| - 1])]
  }

  /**
   * Bulk shutdown visits the sessions in registration order, and shuts each
   * down by closing its queue before cancelling its stream.
   */
  lemma {:induction false} ShutdownCallsOrder(cs: seq<SwitchConnection>, i: nat)
    requires i < |cs|
    ensures ShutdownCalls(cs)[2 * i] == Close(cs[i])
    ensures ShutdownCalls(cs)[2 * i + 1] == Cancel(cs[i])
  {
    if i < |cs| - 1 {
      ShutdownCallsOrder(cs[..|cs| - 1], i);
    }
  }

  /** Shutting down one more session appends its two calls. */
  lemma ShutdownCallsSnoc(cs: seq<SwitchConnection>, k: nat)
    requires k < |cs|
    ensures ShutdownCalls(cs[..k + 1]) == ShutdownCalls(cs[..k]) + [Close(cs[k]), Cancel(cs[k])]
  {
    assert cs[..k + 1][..k] == cs[..k];
  }

  /** The process-wide state of topo/switch.py: the `connections` list and the calls made so far. */
  class Runtime {
    var connections: seq<SwitchConnection>
    var calls: seq<Call>
    /** The position in `connections` of each registered session's queue. */
    ghost var queueOwner: map<IterableQueue<Request>, nat>

    constructor ()
      ensures connections == [] && calls == []
      ensures Valid()
    {
      connections := [];
      calls := [];
      queueOwner := map[];
    }

    /**
     * Every registered session belongs to this process and knows its
     * position; each queue belongs to one session. Both make distinct
     * positions hold distinct sessions with distinct queues.
     */
    ghost predicate Valid()
      reads this`connections, this`queueOwner
    {
      forall i :: 0 <= i < |connections| ==>
        && connections[i].runtime == this
        && connections[i].registration == i
        && connections[i].requestsStream in queueOwner
        && queueOwner[connections[i].requestsStream] == i
    }
  }

  /** The generator loop `for response in stream: yield response`, run to its end. */
  method YieldEach(stream: seq<ReadResponse>) returns (yielded: seq<ReadResponse>)
    ensures yielded == stream
  {
    yielded := [];
    var k := 0;
    while k < |stream|
      invariant 0 <= k <= |stream|
      invariant yielded == stream[..k]
    {
      yielded := yielded + [stream[k]];
      k := k + 1;
    }
  }

  class SwitchConnection {
    const runtime: Runtime
    const name: Option<string>
    const address: string
    const deviceId: uint64
    const protoDumpFile: Option<string>
    /** The session's position in `connections`. */
    ghost const registration: nat
    /** Set to None at construction; no operation of the session sets it. */
    var p4info: Option<P4Info>
    /** requests_stream: the queue that feeds the outbound side of StreamChannel. */
    const requestsStream: IterableQueue<Request>
    /** stream_msg_resp: the replies the device has sent that the stream has not yet handed out. */
    var pendingReplies: seq<StreamResponse>
    /** Whether stream_msg_resp has been cancelled. */
    var cancelled: bool

    /**
     * __init__ (switch.py:23-40): make the queue, open the stream over it,
     * and append the session to `connections`. `deviceReplies` are the
     * messages the device will send on the stream.
     */
    constructor (runtime: Runtime, name: Option<string>, address: string, deviceId: uint64,
                 protoDumpFile: Option<string>, deviceReplies: seq<StreamResponse>)
      requires runtime.Valid()
      modifies runtime
      ensures runtime.Valid()
      ensures this.runtime == runtime && this.name == name && this.address == address
      ensures this.deviceId == deviceId && this.protoDumpFile == protoDumpFile
      ensures p4info == None && fresh(requestsStream) && requestsStream.slots == []
      ensures pendingReplies == deviceReplies && !cancelled
      ensures runtime.connections == old(runtime.connections) + [this]
      ensures runtime.queueOwner == old(runtime.queueOwner)[requestsStream := registration]
      ensures runtime.calls == old(runtime.calls) + [OpenStream(this)]
    {
      this.runtime := runtime;
      this.name := name;
      this.address := address;
      this.deviceId := deviceId;
      this.protoDumpFile := protoDumpFile;
      registration := |runtime.connections|;
      p4info := None;
      requestsStream := new IterableQueue<Request>();
      pendingReplies := deviceReplies;
      cancelled := false;
      new;
      runtime.calls := runtime.calls + [OpenStream(this)];
      runtime.connections := runtime.connections + [this];
      runtime.queueOwner := runtime.queueOwner[requestsStream := registration];
    }

    /** shutdown (switch.py:48-50): close the queue, then cancel the stream. */
    method Shutdown()
      modifies requestsStream, this`cancelled, runtime`calls
      ensures requestsStream.slots == old(requestsStream.slots) + [Sentinel]
      ensures cancelled
      ensures runtime.calls == old(runtime.calls) + [Close(this), Cancel(this)]
    {
      requestsStream.Close();
      runtime.calls := runtime.calls + [Close(this)];
      cancelled := true;
      runtime.calls := runtime.calls + [Cancel(this)];
    }

    /**
     * MasterArbitrationUpdate (switch.py:53-65): unless a dry run, put one
     * arbitration request on the queue and take exactly one message off the
     * stream; later replies stay on the stream.
     */
    method MasterArbitrationUpdate(dryRun: bool) returns (reply: ArbitrationReply)
      modifies requestsStream, this`pendingReplies, runtime`calls
      ensures dryRun ==> reply == NotSent && requestsStream.slots == old(requestsStream.slots)
      ensures dryRun ==> pendingReplies == old(pendingReplies) && runtime.calls == old(runtime.calls)
      ensures !dryRun ==>
        && requestsStream.slots == old(requestsStream.slots) + [Item(MasterArbitrationUpdateRequest(deviceId))]
        && runtime.calls == old(runtime.calls) + [Put(this, MasterArbitrationUpdateRequest(deviceId))]
        && reply == FirstReply(old(pendingReplies), cancelled)
        && pendingReplies == if reply.Reply? then old(pendingReplies)[1..] else old(pendingReplies)
    {
      var request := MasterArbitrationUpdateRequest(deviceId);
      if dryRun {
        reply := NotSent;
      } else {
        requestsStream.Put(request);
        runtime.calls := runtime.calls + [Put(this, request)];
        if cancelled {
          reply := StreamCancelled;
        } else if pendingReplies == [] {
          reply := NoReply;
        } else {
          reply := Reply(pendingReplies[0]);
          pendingReplies := pendingReplies[1..];
        }
      }
    }

    /**
     * SetForwardingPipelineConfig (switch.py:68-82): `deviceConfig` is what
     * the device family's buildDeviceConfig serializes to. Unless a dry run,
     * one unary call with the request.
     */
    method SetForwardingPipelineConfig(p4info: P4Info, dryRun: bool, deviceConfig: Bytes)
      modifies runtime`calls
      ensures runtime.calls == old(runtime.calls) +
        if dryRun then []
        else [StubCall(this, SetForwardingPipelineConfigRpc,
                       SetForwardingPipelineConfigRequest(deviceId, p4info, deviceConfig))]
    {
      var request := SetForwardingPipelineConfigRequest(deviceId, p4info, deviceConfig);
      if !dryRun {
        runtime.calls := runtime.calls + [StubCall(this, SetForwardingPipelineConfigRpc, request)];
      }
    }

    /** WriteTableEntry (switch.py:85-97): unless a dry run, one unary Write call. */
    method WriteTableEntry(entry: TableEntry, dryRun: bool)
      modifies runtime`calls
      ensures runtime.calls == old(runtime.calls) +
        if dryRun then [] else [StubCall(this, WriteRpc, WriteTableEntryRequest(deviceId, entry))]
    {
      var request := WriteTableEntryRequest(deviceId, entry);
      if !dryRun {
        runtime.calls := runtime.calls + [StubCall(this, WriteRpc, request)];
      }
    }

    /**
     * ReadTableEntries (switch.py:100-115) with the table id bound as
     * intended: unless a dry run, one Read call whose responses are yielded
     * in arrival order; a dry run yields nothing.
     */
    method ReadTableEntries(tableId: Option<uint32>, dryRun: bool, serverResponses: seq<ReadResponse>)
      returns (responses: seq<ReadResponse>)
      modifies runtime`calls
      ensures dryRun ==> responses == [] && runtime.calls == old(runtime.calls)
      ensures !dryRun ==> responses == serverResponses
      ensures !dryRun ==>
        runtime.calls == old(runtime.calls) + [StubCall(this, ReadRpc, ReadTableEntriesRequest(deviceId, tableId))]
    {
      var request := ReadTableEntriesRequest(deviceId, tableId);
      responses := [];
      if !dryRun {
        runtime.calls := runtime.calls + [StubCall(this, ReadRpc, request)];
        responses := YieldEach(serverResponses);
      }
    }

    /**
     * ReadCounters (switch.py:118-136): unless a dry run, one Read call whose
     * responses are yielded in arrival order; a dry run yields nothing.
     */
    method ReadCounters(counterId: Option<uint32>, index: Option<int64>, dryRun: bool,
                        serverResponses: seq<ReadResponse>)
      returns (responses: seq<ReadResponse>)
      modifies runtime`calls
      ensures dryRun ==> responses == [] && runtime.calls == old(runtime.calls)
      ensures !dryRun ==> responses == serverResponses
      ensures !dryRun ==>
        runtime.calls == old(runtime.calls) +
                         [StubCall(this, ReadRpc, ReadCountersRequest(deviceId, counterId, index))]
    {
      var request := ReadCountersRequest(deviceId, counterId, index);
      responses := [];
      if !dryRun {
        runtime.calls := runtime.calls + [StubCall(this, ReadRpc, request)];
        responses := YieldEach(serverResponses);
      }
    }
  }

  /**
   * ShutdownAllSwitchConnections (switch.py:16-19): shut down every
   * registered session, in registration order.
   */
  method ShutdownAllSwitchConnections(runtime: Runtime)
    requires runtime.Valid()
    modifies runtime`calls, (set c | c in runtime.connections)`cancelled, set c | c in runtime.connections :: c.requestsStream
    ensures runtime.calls == old(runtime.calls) + ShutdownCalls(runtime.connections)
    ensures forall i :: 0 <= i < |runtime.connections| ==>
      && runtime.connections[i].cancelled
      && runtime.connections[i].requestsStream.slots == old(runtime.connections[i].requestsStream.slots) + [Sentinel]
    ensures forall i :: 0 <= i < |runtime.connections| ==>
      && runtime.connections[i].pendingReplies == old(runtime.connections[i].pendingReplies)
      && runtime.connections[i].p4info == old(runtime.connections[i].p4info)
  {
    var cs := runtime.connections;
    var k := 0;
    while k < |cs|
      invariant 0 <= k <= |cs|
      invariant runtime.calls == old(runtime.calls) + ShutdownCalls(cs[..k])
      invariant forall i :: 0 <= i < k ==>
        cs[i].cancelled && cs[i].requestsStream.slots == old(cs[i].requestsStream.slots) + [Sentinel]
      invariant forall i :: k <= i < |cs| ==> cs[i].requestsStream.slots == old(cs[i].requestsStream.slots)
    {
      assert cs[k] in cs;
      assert cs[k].registration == k && runtime.queueOwner[cs[k].requestsStream] == k;
      cs[k].Shutdown();
      ShutdownCallsSnoc(cs, k);
      k := k + 1;
    }
    assert cs[..k] == cs;
  }

  /**
   * A client of the arbitration contract: a dry run sends nothing, and a
   * real one sends one request and takes only the first of two replies.
   */
  method ArbitrationScenario(r1: StreamResponse, r2: StreamResponse)
  {
    var runtime := new Runtime();
    var s := new SwitchConnection(runtime, None, "127.0.0.1:50051", 0, None, [r1, r2]);
    var dry := s.MasterArbitrationUpdate(true);
    assert dry == NotSent && s.requestsStream.slots == [];
    var reply := s.MasterArbitrationUpdate(false);
    assert reply == Reply(r1) && s.pendingReplies == [r2];
    assert s.requestsStream.slots == [Item(MasterArbitrationUpdateRequest(0))];
  }
}
