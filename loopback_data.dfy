/** examples/loopback_data.c: fill a transmit buffer with a fixed pattern,
    send it through the AXI DMA engine and receive into a second buffer. The
    program's defects are modelled as written: it keeps going after a failed
    allocation (storing through NULL), overwrites the -ENOMEM it set, never
    frees its buffers, and destroys the device even when axidma_init failed. */
module LoopbackData {
  import opened Common
  import opened Trace
  import opened Platform
  import opened Channels

  const MAX_LEN: int := 800   // bytes allocated for each buffer and sent each way
  const VALUE: int := 788     // the first value of the transmit pattern
  const LEN: int := 10        // ints filled in each buffer
  const INT_SIZE: int := 4    // sizeof(int) on the target

  /** `struct dma_transfer` of this program. */
  class DataTransfer {
    var inputChannel: int
    var txBuf: Ptr
    var outputChannel: int
    var rxBuf: Ptr
    /** The ints `txBuf` points to, once it points to a buffer. */
    var txMem: array<int>
    /** The ints `rxBuf` points to, once it points to a buffer. */
    var rxMem: array<int>

    /** The structure after `memset(&trans, 0, sizeof(trans))`. */
    constructor ()
      ensures inputChannel == 0 && txBuf == Null && outputChannel == 0 && rxBuf == Null
    {
      inputChannel, txBuf, outputChannel, rxBuf := 0, Null, 0, Null;
      txMem := new int[0];
      rxMem := new int[0];
    }
  }

  /** What the foreign calls of transfer_data return. */
  datatype DataOutcomes = DataOutcomes(txAlloc: bool, rxAlloc: bool, transferRc: int)

  /** What the foreign calls of main return. */
  datatype MainOutcomes = MainOutcomes(
    initOk: bool, txChannels: seq<int>, rxChannels: seq<int>, data: DataOutcomes)

  /** parse_args: both channels are set to "not given", so the check that
      both or neither were given always passes. */
  method ParseArgs() returns (rc: int, inputChannel: int, outputChannel: int)
    ensures rc == -EINVAL <==> (inputChannel == UNSET) != (outputChannel == UNSET)
    ensures rc == 0 && inputChannel == UNSET && outputChannel == UNSET
  {
    inputChannel, outputChannel := UNSET, UNSET;
    if (inputChannel == UNSET) != (outputChannel == UNSET) {
      return -EINVAL, inputChannel, outputChannel;
    }
    rc := 0;
  }

  // ---------------------------------------------------------------------------
  // transfer_data

  /** The first fill loop: the first LEN ints become VALUE, VALUE + 1, ...;
      no other int is written. */
  method FillTx(buf: array<int>)
    requires LEN <= buf.Length
    modifies buf
    ensures forall i | 0 <= i < buf.Length :: buf[i] == if i < LEN then VALUE + i else old(buf[i])
  {
    for i := 0 to LEN
      invariant forall k | 0 <= k < buf.Length :: buf[k] == if k < i then VALUE + k else old(buf[k])
    {
      buf[i] := VALUE + i;
    }
  }

  /** The second fill loop: the first LEN ints become 0; no other int is written. */
  method ClearRx(buf: array<int>)
    requires LEN <= buf.Length
    modifies buf
    ensures forall i | 0 <= i < buf.Length :: buf[i] == if i < LEN then 0 else old(buf[i])
  {
    for i := 0 to LEN
      invariant forall k | 0 <= k < buf.Length :: buf[k] == if k < i then 0 else old(buf[k])
    {
      buf[i] := 0;
    }
  }

  /** The live buffers after an axidma_malloc of MAX_LEN bytes that returned `p`. */
  function Allocated(buffers: map<nat, int>, p: Ptr): (r: map<nat, int>)
    ensures p.Addr? ==> r.Keys == buffers.Keys + {p.addr} && r[p.addr] == MAX_LEN
    ensures p == Null ==> r == buffers
    ensures forall a | a in buffers && (p.Null? || a != p.addr) :: a in r && r[a] == buffers[a]
  {
    if p.Addr? then buffers[p.addr := MAX_LEN] else buffers
  }

  /** The buffer addresses transfer_data gets when the first fresh identity is `id`. */
  function TxBufferOf(id: nat, o: DataOutcomes): Ptr
  {
    Fresh(o.txAlloc, id)
  }

  function RxBufferOf(id: nat, o: DataOutcomes): Ptr
  {
    Fresh(o.rxAlloc, if o.txAlloc then id + 1 else id)
  }

  /** An axidma_malloc of MAX_LEN bytes that returned `buf`, and the store
      through NULL (`fault`) that follows when it failed. */
  function AllocCalls(dev: Ptr, buf: Ptr, fault: Fault): seq<Event>
  {
    [Event.Malloc(dev, MAX_LEN, buf)] + (if buf == Null then [Undefined(fault)] else [])
  }

  /** The calls transfer_data makes, in order, and its stores and loads
      through NULL. */
  function DataCalls(dev: Ptr, inputChannel: int, outputChannel: int, id: nat, o: DataOutcomes): seq<Event>
  {
    var tx, rx := TxBufferOf(id, o), RxBufferOf(id, o);
    AllocCalls(dev, tx, TxStoreThroughNull) + AllocCalls(dev, rx, RxStoreThroughNull) +
    [Event.Transfer(dev, inputChannel, tx, MAX_LEN, outputChannel, rx, MAX_LEN, o.transferRc)] +
    (if rx == Null then [Undefined(RxLoadThroughNull)] else [])
  }

  /** The allocation of the transmit buffer and the first fill loop. */
  method PrepareTx(host: Host, dev: Ptr, trans: DataTransfer, succeeds: bool)
    requires host.Valid()
    modifies host, trans`txBuf, trans`txMem
    ensures host.Valid()
    ensures trans.txBuf == Fresh(succeeds, old(host.next))
    ensures host.log == old(host.log) + AllocCalls(dev, trans.txBuf, TxStoreThroughNull)
    ensures host.next == if succeeds then old(host.next) + 1 else old(host.next)
    ensures host.buffers == Allocated(old(host.buffers), trans.txBuf)
    ensures host.devices == old(host.devices) && host.files == old(host.files)
    ensures trans.txBuf.Addr? ==>
      fresh(trans.txMem) && trans.txMem.Length * INT_SIZE == MAX_LEN &&
      forall i | 0 <= i < LEN :: trans.txMem[i] == VALUE + i
  {
    trans.txBuf := host.Malloc(dev, MAX_LEN, succeeds);
    if trans.txBuf == Null {
      host.Fault(TxStoreThroughNull);
    } else {
      trans.txMem := new int[MAX_LEN / INT_SIZE];
      FillTx(trans.txMem);
    }
  }

  /** The allocation of the receive buffer and the second fill loop. */
  method PrepareRx(host: Host, dev: Ptr, trans: DataTransfer, succeeds: bool)
    requires host.Valid()
    modifies host, trans`rxBuf, trans`rxMem
    ensures host.Valid()
    ensures trans.rxBuf == Fresh(succeeds, old(host.next))
    ensures host.log == old(host.log) + AllocCalls(dev, trans.rxBuf, RxStoreThroughNull)
    ensures host.next == if succeeds then old(host.next) + 1 else old(host.next)
    ensures host.buffers == Allocated(old(host.buffers), trans.rxBuf)
    ensures host.devices == old(host.devices) && host.files == old(host.files)
    ensures trans.rxBuf.Addr? ==>
      fresh(trans.rxMem) && trans.rxMem.Length * INT_SIZE == MAX_LEN &&
      forall i | 0 <= i < LEN :: trans.rxMem[i] == 0
  {
    trans.rxBuf := host.Malloc(dev, MAX_LEN, succeeds);
    if trans.rxBuf == Null {
      host.Fault(RxStoreThroughNull);
    } else {
      trans.rxMem := new int[MAX_LEN / INT_SIZE];
      ClearRx(trans.rxMem);
    }
  }

  /** transfer_data: allocate and fill both buffers, run the two-way transfer
      and return its code, which replaces any -ENOMEM set before. Nothing is
      freed. */
  method TransferData(host: Host, dev: Ptr, trans: DataTransfer, o: DataOutcomes) returns (rc: int)
    requires host.Valid()
    modifies host, trans`txBuf, trans`rxBuf, trans`txMem, trans`rxMem
    ensures host.Valid()
    ensures rc == o.transferRc
    ensures host.log == old(host.log) + DataCalls(dev, trans.inputChannel, trans.outputChannel, old(host.next), o)
    ensures trans.txBuf == TxBufferOf(old(host.next), o) && trans.rxBuf == RxBufferOf(old(host.next), o)
    // both buffers stay allocated
    ensures host.buffers == Allocated(Allocated(old(host.buffers), trans.txBuf), trans.rxBuf)
    ensures host.devices == old(host.devices) && host.files == old(host.files)
    ensures trans.txBuf.Addr? ==>
      fresh(trans.txMem) && trans.txMem.Length * INT_SIZE == MAX_LEN &&
      forall i | 0 <= i < LEN :: trans.txMem[i] == VALUE + i
    ensures trans.rxBuf.Addr? ==> fresh(trans.rxMem) && trans.rxMem.Length * INT_SIZE == MAX_LEN
  {
    ghost var log0 := host.log;
    rc := 0;
    PrepareTx(host, dev, trans, o.txAlloc);
    if trans.txBuf == Null {
      rc := -ENOMEM;
    }
    PrepareRx(host, dev, trans, o.rxAlloc);
    if trans.rxBuf == Null {
      rc := -ENOMEM;
    }
    ghost var prepared := AllocCalls(dev, trans.txBuf, TxStoreThroughNull) + AllocCalls(dev, trans.rxBuf, RxStoreThroughNull);
    assert host.log == log0 + prepared;
    rc := host.Transfer(dev, trans.inputChannel, trans.txBuf, MAX_LEN,
                        trans.outputChannel, trans.rxBuf, MAX_LEN, o.transferRc);
    if trans.rxBuf == Null {
      host.Fault(RxLoadThroughNull);
    }
  }

  // ---------------------------------------------------------------------------
  // main

  /** The calls main makes between axidma_init and axidma_destroy, with the
      device handle axidma_init returned (NULL included) and the next fresh
      identity `id`: the channel queries, then transfer_data when both lists
      are non-empty, on the first channel of each list. */
  function SessionCalls(dev: Ptr, id: nat, o: MainOutcomes): seq<Event>
  {
    var channels := ResolveChannels(UNSET, UNSET, o.txChannels, o.rxChannels);
    var queries := if |o.txChannels| < 1 then [Event.GetTx(dev)] else [Event.GetTx(dev), Event.GetRx(dev)];
    queries + if channels.Err? then [] else DataCalls(dev, channels.value.0, channels.value.1, id, o.data)
  }

  /** The calls main makes, in order, when the first fresh identity is `id`:
      axidma_destroy comes last whatever axidma_init returned. */
  function MainCalls(id: nat, o: MainOutcomes): seq<Event>
  {
    var dev := Fresh(o.initOk, id);
    [Event.Init(dev)] + SessionCalls(dev, if o.initOk then id + 1 else id, o) + [Event.Destroy(dev)]
  }

  /** The buffers main leaves allocated, given the next fresh identity after axidma_init. */
  function SessionBuffers(buffers: map<nat, int>, id: nat, o: MainOutcomes): map<nat, int>
  {
    if |o.txChannels| < 1 || |o.rxChannels| < 1 then buffers
    else Allocated(Allocated(buffers, TxBufferOf(id, o.data)), RxBufferOf(id, o.data))
  }

  /** main: parse the arguments, initialise the device (a NULL handle sets rc
      to 1 but does not jump), query the channels (an empty list jumps to
      `destroy_axidma` with -ENODEV), default them, run transfer_data, and
      destroy the device. */
  method ProgramMain(host: Host, o: MainOutcomes) returns (rc: int)
    requires host.Valid()
    modifies host
    ensures host.Valid()
    ensures rc == if |o.txChannels| < 1 || |o.rxChannels| < 1 then -ENODEV else o.data.transferRc
    ensures host.log == old(host.log) + MainCalls(old(host.next), o)
    ensures host.buffers == SessionBuffers(old(host.buffers), if o.initOk then old(host.next) + 1 else old(host.next), o)
    ensures host.devices == old(host.devices) && host.files == old(host.files)
  {
    ghost var log0, devices0 := host.log, host.devices;
    var trans := new DataTransfer();
    var parsed, inputChannel, outputChannel := ParseArgs();
    trans.inputChannel, trans.outputChannel := inputChannel, outputChannel;
    if parsed < 0 {
      return 1;
    }
    var dev := host.Init(o.initOk);
    if dev == Null {
      rc := 1;
    }
    ghost var id := host.next;
    rc := RunSession(host, dev, trans, o);
    host.Destroy(dev);
    Surround(log0, [Event.Init(dev)], SessionCalls(dev, id, o), [Event.Destroy(dev)]);
    if dev.Addr? {
      AddRemoveSet(devices0, dev.addr);
    }
  }

  /** From the channel queries to the `destroy_axidma` label. */
  method RunSession(host: Host, dev: Ptr, trans: DataTransfer, o: MainOutcomes) returns (rc: int)
    requires host.Valid()
    requires trans.inputChannel == UNSET && trans.outputChannel == UNSET
    modifies host, trans`inputChannel, trans`outputChannel, trans`txBuf, trans`rxBuf, trans`txMem, trans`rxMem
    ensures host.Valid()
    ensures rc == if |o.txChannels| < 1 || |o.rxChannels| < 1 then -ENODEV else o.data.transferRc
    ensures host.log == old(host.log) + SessionCalls(dev, old(host.next), o)
    ensures host.buffers == SessionBuffers(old(host.buffers), old(host.next), o)
    ensures host.devices == old(host.devices) && host.files == old(host.files)
  {
    ghost var log0 := host.log;
    var txChannels := host.GetTx(dev, o.txChannels);
    if |txChannels| < 1 {
      assert host.log == log0 + ([Event.GetTx(dev)] + []);
      return -ENODEV;
    }
    var rxChannels := host.GetRx(dev, o.rxChannels);
    ghost var queries := [Event.GetTx(dev), Event.GetRx(dev)];
    assert host.log == log0 + queries;
    if |rxChannels| < 1 {
      assert host.log == log0 + (queries + []);
      return -ENODEV;
    }
    if trans.inputChannel == UNSET && trans.outputChannel == UNSET {
      trans.inputChannel := txChannels[0];
      trans.outputChannel := rxChannels[0];
    }
    rc := TransferData(host, dev, trans, o.data);
    Append(log0, queries, DataCalls(dev, o.txChannels[0], o.rxChannels[0], old(host.next), o.data));
  }

  // ---------------------------------------------------------------------------
  // What main does with the device and the buffers

  /** The buffers transfer_data allocates, in order. */
  function DataBuffers(id: nat, o: DataOutcomes): seq<Resource>
  {
    (if o.txAlloc then [Buffer(id, MAX_LEN)] else []) +
    (if o.rxAlloc then [Buffer(RxBufferOf(id, o).addr, MAX_LEN)] else [])
  }

  lemma AllocEffects(dev: Ptr, buf: Ptr, fault: Fault)
    ensures Acquires(Effects(AllocCalls(dev, buf, fault))) == if buf.Addr? then [Buffer(buf.addr, MAX_LEN)] else []
    ensures Releases(Effects(AllocCalls(dev, buf, fault))) == []
  {
    var malloc := Event.Malloc(dev, MAX_LEN, buf);
    EffectsOne(malloc);
    if buf == Null {
      EffectsOne(Undefined(fault));
      CallsAppend([malloc], [Undefined(fault)]);
    } else {
      assert AllocCalls(dev, buf, fault) == [malloc];
    }
  }

  /** transfer_data allocates its buffers and releases nothing. */
  lemma DataCallsEffects(dev: Ptr, inputChannel: int, outputChannel: int, id: nat, o: DataOutcomes)
    ensures Acquires(Effects(DataCalls(dev, inputChannel, outputChannel, id, o))) == DataBuffers(id, o)
    ensures Releases(Effects(DataCalls(dev, inputChannel, outputChannel, id, o))) == []
  {
    var tx, rx := TxBufferOf(id, o), RxBufferOf(id, o);
    var a, b := AllocCalls(dev, tx, TxStoreThroughNull), AllocCalls(dev, rx, RxStoreThroughNull);
    var transfer := [Event.Transfer(dev, inputChannel, tx, MAX_LEN, outputChannel, rx, MAX_LEN, o.transferRc)];
    var load: seq<Event> := if rx == Null then [Undefined(RxLoadThroughNull)] else [];
    AllocEffects(dev, tx, TxStoreThroughNull);
    AllocEffects(dev, rx, RxStoreThroughNull);
    EffectsOne(transfer[0]);
    assert [Neutral][1..] == [];
    assert Acquires(Effects(transfer)) == [] && Releases(Effects(transfer)) == [];
    if rx == Null { EffectsOne(Undefined(RxLoadThroughNull)); }
    assert Acquires(Effects(load)) == [] && Releases(Effects(load)) == [];
    CallsAppend(a, b);
    CallsAppend(a + b, transfer);
    CallsAppend(a + b + transfer, load);
    assert DataCalls(dev, inputChannel, outputChannel, id, o) == a + b + transfer + load;
  }

  /** The buffers main acquires after axidma_init: those of transfer_data,
      when both channel lists are non-empty. */
  function SessionResources(id: nat, o: MainOutcomes): seq<Resource>
  {
    if |o.txChannels| < 1 || |o.rxChannels| < 1 then [] else DataBuffers(id, o.data)
  }

  lemma SessionEffects(dev: Ptr, id: nat, o: MainOutcomes)
    ensures Acquires(Effects(SessionCalls(dev, id, o))) == SessionResources(id, o)
    ensures Releases(Effects(SessionCalls(dev, id, o))) == []
  {
    var queries := if |o.txChannels| < 1 then [Event.GetTx(dev)] else [Event.GetTx(dev), Event.GetRx(dev)];
    EffectsOne(Event.GetTx(dev));
    if |o.txChannels| >= 1 {
      EffectsOne(Event.GetRx(dev));
      CallsAppend([Event.GetTx(dev)], [Event.GetRx(dev)]);
    }
    if |o.txChannels| < 1 || |o.rxChannels| < 1 {
      assert SessionCalls(dev, id, o) == queries + [];
    } else {
      DataCallsEffects(dev, o.txChannels[0], o.rxChannels[0], id, o.data);
      CallsAppend(queries, DataCalls(dev, o.txChannels[0], o.rxChannels[0], id, o.data));
    }
  }

  /** The device handle main holds after axidma_init, as a list. */
  function DeviceOf(id: nat, o: MainOutcomes): seq<Resource>
  {
    if o.initOk then [Device(id)] else []
  }

  /** The next fresh identity after axidma_init. */
  function AfterInit(id: nat, o: MainOutcomes): nat
  {
    if o.initOk then id + 1 else id
  }

  /** main releases the device when axidma_init succeeded, and nothing else:
      neither buffer is ever freed. */
  lemma MainReleases(id: nat, o: MainOutcomes)
    ensures var fx := Effects(MainCalls(id, o));
      Acquires(fx) == DeviceOf(id, o) + SessionResources(AfterInit(id, o), o) &&
      Releases(fx) == DeviceOf(id, o)
  {
    var dev := Fresh(o.initOk, id);
    var session := SessionCalls(dev, AfterInit(id, o), o);
    SessionEffects(dev, AfterInit(id, o), o);
    EffectsOne(Event.Init(dev));
    EffectsOne(Event.Destroy(dev));
    CallsAppend([Event.Init(dev)], session);
    CallsAppend([Event.Init(dev)] + session, [Event.Destroy(dev)]);
  }

  /** So main's calls balance exactly when no buffer was allocated. When the
      device was initialised and a buffer allocated, axidma_destroy releases
      the device while the buffer is still held; when axidma_init failed, the
      buffers are still held at the end. */
  lemma MainBalance(id: nat, o: MainOutcomes)
    ensures var fx := Effects(MainCalls(id, o));
      var buffers := SessionResources(AfterInit(id, o), o);
      (Balanced(fx) <==> buffers == []) &&
      (o.initOk && buffers != [] ==> Held(fx) == None) &&
      (!o.initOk ==> Held(fx) == Some(buffers))
  {
    var dev := Fresh(o.initOk, id);
    var session := SessionCalls(dev, AfterInit(id, o), o);
    var buffers := SessionResources(AfterInit(id, o), o);
    SessionEffects(dev, AfterInit(id, o), o);
    EffectsOne(Event.Init(dev));
    EffectsOne(Event.Destroy(dev));
    EffectsAppend([Event.Init(dev)], session);
    EffectsAppend([Event.Init(dev)] + session, [Event.Destroy(dev)]);
    ReplayAround(EffectOf(Event.Init(dev)), Effects(session), EffectOf(Event.Destroy(dev)));
    if o.initOk {
      var held := [Device(id)] + buffers;
      if buffers != [] {
        assert held[|held| - 1] == buffers[|buffers| - 1];
      } else {
        assert held == [Device(id)];
      }
    } else {
      assert [] + buffers == buffers;
    }
  }

  /** axidma_destroy is the last call and the only one, whatever axidma_init
      returned; after a failed axidma_init main hands the NULL handle to
      axidma_get_dma_tx and to axidma_destroy. */
  lemma DestroyAlways(id: nat, o: MainOutcomes)
    ensures var calls := MainCalls(id, o);
      calls[|calls| - 1] == Event.Destroy(Fresh(o.initOk, id)) &&
      (forall d :: Event.Destroy(d) !in calls[..|calls| - 1]) &&
      (!o.initOk ==> HandsNull(calls[1]) && HandsNull(calls[|calls| - 1]))
  {
    var dev := Fresh(o.initOk, id);
    var session := SessionCalls(dev, AfterInit(id, o), o);
    var calls := MainCalls(id, o);
    assert calls[..|calls| - 1] == [Event.Init(dev)] + session;
    if |o.txChannels| > 0 && |o.rxChannels| > 0 {
      DataFaults(dev, o.txChannels[0], o.rxChannels[0], AfterInit(id, o), o.data);
    }
  }

  /** The stores and the load through NULL in transfer_data, and no destroy. */
  lemma DataFaults(dev: Ptr, inputChannel: int, outputChannel: int, id: nat, o: DataOutcomes)
    ensures var calls := DataCalls(dev, inputChannel, outputChannel, id, o);
      (Undefined(TxStoreThroughNull) in calls <==> !o.txAlloc) &&
      (Undefined(RxStoreThroughNull) in calls <==> !o.rxAlloc) &&
      (Undefined(RxLoadThroughNull) in calls <==> !o.rxAlloc) &&
      forall d :: Event.Destroy(d) !in calls
  {
  }

  /** transfer_data stores through NULL exactly when an allocation failed, and
      loads through NULL exactly when the receive allocation failed; neither
      happens when a channel list is empty. */
  lemma NullAccesses(id: nat, o: MainOutcomes)
    ensures var calls := MainCalls(id, o);
      var reached := |o.txChannels| > 0 && |o.rxChannels| > 0;
      (Undefined(TxStoreThroughNull) in calls <==> reached && !o.data.txAlloc) &&
      (Undefined(RxStoreThroughNull) in calls <==> reached && !o.data.rxAlloc) &&
      (Undefined(RxLoadThroughNull) in calls <==> reached && !o.data.rxAlloc)
  {
    if |o.txChannels| > 0 && |o.rxChannels| > 0 {
      DataFaults(Fresh(o.initOk, id), o.txChannels[0], o.rxChannels[0], AfterInit(id, o), o.data);
    }
  }

  /** When both lists are non-empty, the transfer sends and receives MAX_LEN
      bytes, on the first channel of each list, between the two buffers. */
  lemma TransferUsesFirstChannels(id: nat, o: MainOutcomes)
    requires |o.txChannels| > 0 && |o.rxChannels| > 0
    ensures var next := AfterInit(id, o);
      Event.Transfer(Fresh(o.initOk, id), o.txChannels[0], TxBufferOf(next, o.data), MAX_LEN,
                     o.rxChannels[0], RxBufferOf(next, o.data), MAX_LEN, o.data.transferRc)
        in MainCalls(id, o)
  {
  }
}
