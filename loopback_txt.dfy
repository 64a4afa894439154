/** examples/loopback_txt.c: send the contents of a file through the AXI DMA
    engine and write what comes back into another file. */
module LoopbackTxt {
  import opened Common
  import opened Trace
  import opened Platform
  import opened Channels
  import opened Cleanup

  const INPUT_PATH: string := "/media/sd-mmcblk0p1/tx.txt"
  const OUTPUT_PATH: string := "/media/sd-mmcblk0p1/rx.txt"

  /** The fields of `struct dma_transfer` that transfer_file reads but does not change. */
  datatype Settings = Settings(
    inputFd: int, inputChannel: int, inputSize: int,
    outputFd: int, outputChannel: int, outputSize: int)

  /** `struct dma_transfer`: what main and transfer_file share about the transfer. */
  class FileTransfer {
    var inputFd: int
    var inputChannel: int
    var inputSize: int
    var inputBuf: Ptr
    var outputFd: int
    var outputChannel: int
    var outputSize: int
    var outputBuf: Ptr

    /** The structure after `memset(&trans, 0, sizeof(trans))`. */
    constructor ()
      ensures inputFd == 0 && inputChannel == 0 && inputSize == 0 && inputBuf == Null
      ensures outputFd == 0 && outputChannel == 0 && outputSize == 0 && outputBuf == Null
    {
      inputFd, inputChannel, inputSize, inputBuf := 0, 0, 0, Null;
      outputFd, outputChannel, outputSize, outputBuf := 0, 0, 0, Null;
    }

    function Setup(): Settings
      reads this`inputFd, this`inputChannel, this`inputSize
      reads this`outputFd, this`outputChannel, this`outputSize
    {
      Settings(inputFd, inputChannel, inputSize, outputFd, outputChannel, outputSize)
    }
  }

  /** What the foreign calls of transfer_file return: whether each axidma_malloc
      gives a buffer, and the codes of robust_read, axidma_twoway_transfer and
      robust_write. */
  datatype FileOutcomes = FileOutcomes(
    inputAlloc: bool, readRc: int, outputAlloc: bool, transferRc: int, writeRc: int)

  /** What the foreign calls of main return. */
  datatype MainOutcomes = MainOutcomes(
    inputOpens: bool, outputOpens: bool, initOk: bool,
    fstatRc: int, fileSize: nat,
    txChannels: seq<int>, rxChannels: seq<int>,
    file: FileOutcomes)

  /** parse_args: the command line is not read any more; both channels and the
      output size are set to "not given", and the consistency checks on them
      (both channels or neither; not both -s and -o) always pass. */
  method ParseArgs() returns (rc: int, inputPath: string, outputPath: string,
                              inputChannel: int, outputChannel: int, outputSize: int)
    ensures rc == -EINVAL <==> (inputChannel == UNSET) != (outputChannel == UNSET)
    ensures rc == 0 && inputChannel == UNSET && outputChannel == UNSET && outputSize == -1
    ensures inputPath == INPUT_PATH && outputPath == OUTPUT_PATH
  {
    inputChannel, outputChannel, outputSize := UNSET, UNSET, -1;
    var oSpecified, sSpecified := false, false;
    if (inputChannel == UNSET) != (outputChannel == UNSET) {
      rc := -EINVAL;
      return;
    }
    if sSpecified && oSpecified {
      rc := -EINVAL;
      return;
    }
    inputPath, outputPath := INPUT_PATH, OUTPUT_PATH;
    rc := 0;
  }

  // ---------------------------------------------------------------------------
  // transfer_file

  /** The code of the output half of transfer_file: -ENOMEM when the output
      buffer cannot be allocated, the transfer's code when it fails, otherwise
      the code of the write. */
  function OutputRc(o: FileOutcomes): int
  {
    if !o.outputAlloc then -ENOMEM
    else if o.transferRc < 0 then o.transferRc
    else o.writeRc
  }

  /** The code transfer_file returns: -ENOMEM when the input buffer cannot be
      allocated, the read's code when it fails, otherwise that of the output half. */
  function FileRc(o: FileOutcomes): int
  {
    if !o.inputAlloc then -ENOMEM
    else if o.readRc < 0 then o.readRc
    else OutputRc(o)
  }

  /** The output half of transfer_file as a cleanup chain, when the input
      buffer is `inBuf` and the next fresh identity is `id`: allocate the
      output buffer (freed at `free_output_buf`), run the two-way transfer
      (a failure jumps there), write the output buffer. */
  function OutputChain(dev: Ptr, s: Settings, inBuf: Ptr, id: nat, o: FileOutcomes): Chain
  {
    var outBuf := Fresh(o.outputAlloc, id);
    Link(Stage(Event.Malloc(dev, s.outputSize, outBuf), o.outputAlloc, [Event.Free(dev, outBuf, s.outputSize)]),
    Link(Stage(Event.Transfer(dev, s.inputChannel, inBuf, s.inputSize,
                              s.outputChannel, outBuf, s.outputSize, o.transferRc), o.transferRc >= 0, []),
    Link(Stage(Event.Write(s.outputFd, outBuf, s.outputSize, o.writeRc), o.writeRc >= 0, []),
    End)))
  }

  /** transfer_file as a cleanup chain, when the first fresh identity the
      library hands out is `id`: allocate the input buffer (freed at
      `free_input_buf`), read the file into it (a failure jumps there), then
      the output half. */
  function TransferChain(dev: Ptr, s: Settings, id: nat, o: FileOutcomes): Chain
  {
    var inBuf := Fresh(o.inputAlloc, id);
    Link(Stage(Event.Malloc(dev, s.inputSize, inBuf), o.inputAlloc, [Event.Free(dev, inBuf, s.inputSize)]),
    Link(Stage(Event.Read(s.inputFd, inBuf, s.inputSize, o.readRc), o.readRc >= 0, []),
    OutputChain(dev, s, inBuf, id + 1, o)))
  }

  /** The output half of transfer_file, from the allocation of the output
      buffer to the `free_output_buf` label. */
  method TransferOutput(host: Host, dev: Ptr, trans: FileTransfer, o: FileOutcomes) returns (rc: int)
    requires host.Valid()
    requires dev.Addr? && dev.addr in host.devices
    requires trans.outputFd in host.files
    requires trans.inputBuf.Addr? && trans.inputBuf.addr in host.buffers
    requires trans.inputSize <= host.buffers[trans.inputBuf.addr]
    modifies host, trans`outputBuf
    ensures host.Valid()
    ensures rc == OutputRc(o)
    ensures host.log == old(host.log) + Calls(OutputChain(dev, trans.Setup(), trans.inputBuf, old(host.next), o))
    ensures host.buffers == old(host.buffers)
    ensures host.devices == old(host.devices) && host.files == old(host.files)
    ensures trans.outputBuf == Fresh(o.outputAlloc, old(host.next))
    ensures host.next == old(host.next) + if o.outputAlloc then 1 else 0
  {
    ghost var log0, id, buffers0 := host.log, host.next, host.buffers;
    ghost var chain := OutputChain(dev, trans.Setup(), trans.inputBuf, id, o);
    trans.outputBuf := host.Malloc(dev, trans.outputSize, o.outputAlloc);
    if trans.outputBuf == Null {
      return -ENOMEM;
    }
    rc := host.Transfer(dev, trans.inputChannel, trans.inputBuf, trans.inputSize,
                        trans.outputChannel, trans.outputBuf, trans.outputSize, o.transferRc);
    if rc >= 0 {
      rc := host.Write(trans.outputFd, trans.outputBuf, trans.outputSize, o.writeRc);
      assert Calls(chain.next.next) == [chain.next.next.stage.call];
    }
    assert host.log == log0 + [chain.stage.call] + Calls(chain.next);
    host.Free(dev, trans.outputBuf, trans.outputSize);
    Surround(log0, [chain.stage.call], Calls(chain.next), chain.stage.undo);
    AddRemove(buffers0, id, trans.outputSize);
  }

  /** transfer_file: allocate the input buffer and read the file into it, run
      the output half, and free the input buffer. */
  method TransferFile(host: Host, dev: Ptr, trans: FileTransfer, o: FileOutcomes) returns (rc: int)
    requires host.Valid()
    requires dev.Addr? && dev.addr in host.devices
    requires trans.inputFd in host.files && trans.outputFd in host.files
    modifies host, trans`inputBuf, trans`outputBuf
    ensures host.Valid()
    ensures rc == FileRc(o)
    ensures host.log == old(host.log) + Calls(TransferChain(dev, trans.Setup(), old(host.next), o))
    // every buffer it allocates it frees, and it touches nothing else
    ensures host.buffers == old(host.buffers)
    ensures host.devices == old(host.devices) && host.files == old(host.files)
    ensures trans.inputBuf == Fresh(o.inputAlloc, old(host.next))
    ensures trans.outputBuf ==
      if o.inputAlloc && o.readRc >= 0 then Fresh(o.outputAlloc, old(host.next) + 1) else old(trans.outputBuf)
    ensures host.next == old(host.next) + |TransferBuffers(trans.Setup(), old(host.next), o)|
  {
    ghost var log0, id, buffers0 := host.log, host.next, host.buffers;
    ghost var chain := TransferChain(dev, trans.Setup(), id, o);
    trans.inputBuf := host.Malloc(dev, trans.inputSize, o.inputAlloc);
    if trans.inputBuf == Null {
      return -ENOMEM;
    }
    rc := host.Read(trans.inputFd, trans.inputBuf, trans.inputSize, o.readRc);
    if rc >= 0 {
      rc := TransferOutput(host, dev, trans, o);
    }
    assert host.log == log0 + [chain.stage.call] + Calls(chain.next);
    host.Free(dev, trans.inputBuf, trans.inputSize);
    Surround(log0, [chain.stage.call], Calls(chain.next), chain.stage.undo);
    AddRemove(buffers0, id, trans.inputSize);
  }

  // What the calls of transfer_file do with the buffers

  /** The buffers transfer_file allocates, in order: the input buffer, then
      the output buffer when the read succeeded. */
  function TransferBuffers(s: Settings, id: nat, o: FileOutcomes): seq<Resource>
  {
    if !o.inputAlloc then []
    else [Buffer(id, s.inputSize)] + (if o.readRc >= 0 && o.outputAlloc then [Buffer(id + 1, s.outputSize)] else [])
  }

  /** The output half frees what it allocates. */
  lemma OutputChainProper(dev: Ptr, s: Settings, inBuf: Ptr, id: nat, o: FileOutcomes)
    ensures var c := OutputChain(dev, s, inBuf, id, o);
      Proper(c) && Acquired(c) == if o.outputAlloc then [Buffer(id, s.outputSize)] else []
  {
    var c := OutputChain(dev, s, inBuf, id, o);
    assert Acquired(c.next.next.next) == [];
    assert Acquired(c.next.next) == [];
    assert Acquired(c.next) == [];
    assert Proper(c.next.next);
  }

  lemma TransferChainProper(dev: Ptr, s: Settings, id: nat, o: FileOutcomes)
    ensures var c := TransferChain(dev, s, id, o);
      Proper(c) && Acquired(c) == TransferBuffers(s, id, o)
  {
    var c := TransferChain(dev, s, id, o);
    OutputChainProper(dev, s, Fresh(o.inputAlloc, id), id + 1, o);
    assert Proper(c.next);
  }

  /** On every path through transfer_file each buffer axidma_malloc returned
      is freed exactly once, with the size it was allocated with, nothing else
      is freed, and the output buffer is freed before the input buffer. */
  lemma TransferFileReleases(dev: Ptr, s: Settings, id: nat, o: FileOutcomes)
    ensures var fx := Effects(Calls(TransferChain(dev, s, id, o)));
      Balanced(fx) &&
      Acquires(fx) == TransferBuffers(s, id, o) &&
      Releases(fx) == Reversed(TransferBuffers(s, id, o)) &&
      forall r :: multiset(Releases(fx))[r] == if r in TransferBuffers(s, id, o) then 1 else 0
  {
    TransferChainProper(dev, s, id, o);
    ChainNests(TransferChain(dev, s, id, o));
    var fx := Effects(Calls(TransferChain(dev, s, id, o)));
    forall r ensures multiset(Releases(fx))[r] == if r in TransferBuffers(s, id, o) then 1 else 0 {
      BalancedReleasesEachOnce(fx, r);
    }
  }

  // What the calls of transfer_file do with the output file

  /** What transfer_file promises about the output file: it is written at most
      once, only from the output buffer and only directly after a transfer
      into that buffer that succeeded; it is written exactly when every call
      before the write succeeded; and no call gets a NULL pointer. */
  predicate WritesAfterTransfer(dev: Ptr, s: Settings, id: nat, o: FileOutcomes, calls: seq<Event>)
  {
    WritesFollowTransfer(calls) &&
    WritesOnly(calls, Event.Write(s.outputFd, Addr(id + 1), s.outputSize, o.writeRc)) &&
    (Writes(calls) <==> o.inputAlloc && o.readRc >= 0 && o.outputAlloc && o.transferRc >= 0) &&
    (dev.Addr? ==> NoNullHandles(calls))
  }

  lemma TransferFileWrites(dev: Ptr, s: Settings, id: nat, o: FileOutcomes)
    ensures WritesAfterTransfer(dev, s, id, o, Calls(TransferChain(dev, s, id, o)))
    ensures FileRc(o) >= 0 <==> Writes(Calls(TransferChain(dev, s, id, o))) && o.writeRc >= 0
  {
    if !o.inputAlloc || o.readRc < 0 || !o.outputAlloc {
      EarlyExitWrites(dev, s, id, o);
    } else if o.transferRc < 0 {
      FailedTransferWrites(dev, s, id, o);
    } else {
      FullTransferWrites(dev, s, id, o);
    }
  }

  lemma EarlyExitWrites(dev: Ptr, s: Settings, id: nat, o: FileOutcomes)
    requires !o.inputAlloc || o.readRc < 0 || !o.outputAlloc
    ensures WritesAfterTransfer(dev, s, id, o, Calls(TransferChain(dev, s, id, o)))
  {
    if !o.inputAlloc {
      InputAllocFails(dev, s, id, o);
    } else if o.readRc < 0 {
      ReadFails(dev, s, id, o);
    } else {
      OutputAllocFails(dev, s, id, o);
    }
  }

  lemma FailedTransferWrites(dev: Ptr, s: Settings, id: nat, o: FileOutcomes)
    requires o.inputAlloc && o.readRc >= 0 && o.outputAlloc && o.transferRc < 0
    ensures WritesAfterTransfer(dev, s, id, o, Calls(TransferChain(dev, s, id, o)))
  {
    TransferFails(dev, s, id, o);
  }

  lemma FullTransferWrites(dev: Ptr, s: Settings, id: nat, o: FileOutcomes)
    requires o.inputAlloc && o.readRc >= 0 && o.outputAlloc && o.transferRc >= 0
    ensures WritesAfterTransfer(dev, s, id, o, Calls(TransferChain(dev, s, id, o)))
  {
    TransferSucceeds(dev, s, id, o);
    assert Calls(TransferChain(dev, s, id, o))[4].Write?;
  }

  // The paths through transfer_file

  /** When the input buffer cannot be allocated, transfer_file returns
      -ENOMEM and frees nothing. */
  lemma InputAllocFails(dev: Ptr, s: Settings, id: nat, o: FileOutcomes)
    requires !o.inputAlloc
    ensures Calls(TransferChain(dev, s, id, o)) == [Event.Malloc(dev, s.inputSize, Null)]
    ensures FileRc(o) == -ENOMEM
  {
  }

  /** When the read fails, the input buffer is freed, the output buffer is
      never allocated, and the read's code is returned. */
  lemma ReadFails(dev: Ptr, s: Settings, id: nat, o: FileOutcomes)
    requires o.inputAlloc && o.readRc < 0
    ensures Calls(TransferChain(dev, s, id, o)) == [
      Event.Malloc(dev, s.inputSize, Addr(id)),
      Event.Read(s.inputFd, Addr(id), s.inputSize, o.readRc),
      Event.Free(dev, Addr(id), s.inputSize)]
    ensures FileRc(o) == o.readRc
  {
    var c := TransferChain(dev, s, id, o);
    assert Calls(c.next) == [Event.Read(s.inputFd, Addr(id), s.inputSize, o.readRc)];
  }

  /** When the output buffer cannot be allocated, the input buffer is freed
      and -ENOMEM returned. */
  lemma OutputAllocFails(dev: Ptr, s: Settings, id: nat, o: FileOutcomes)
    requires o.inputAlloc && o.readRc >= 0 && !o.outputAlloc
    ensures Calls(TransferChain(dev, s, id, o)) == [
      Event.Malloc(dev, s.inputSize, Addr(id)),
      Event.Read(s.inputFd, Addr(id), s.inputSize, o.readRc),
      Event.Malloc(dev, s.outputSize, Null),
      Event.Free(dev, Addr(id), s.inputSize)]
    ensures FileRc(o) == -ENOMEM
  {
    var c := TransferChain(dev, s, id, o);
    assert Calls(c.next.next) == [Event.Malloc(dev, s.outputSize, Null)];
    assert Calls(c.next) == [Event.Read(s.inputFd, Addr(id), s.inputSize, o.readRc)] + Calls(c.next.next);
  }

  /** When the transfer fails, nothing is written, both buffers are freed
      (the output buffer first) and the transfer's code is returned. */
  lemma TransferFails(dev: Ptr, s: Settings, id: nat, o: FileOutcomes)
    requires o.inputAlloc && o.readRc >= 0 && o.outputAlloc && o.transferRc < 0
    ensures Calls(TransferChain(dev, s, id, o)) == [
      Event.Malloc(dev, s.inputSize, Addr(id)),
      Event.Read(s.inputFd, Addr(id), s.inputSize, o.readRc),
      Event.Malloc(dev, s.outputSize, Addr(id + 1)),
      Event.Transfer(dev, s.inputChannel, Addr(id), s.inputSize, s.outputChannel, Addr(id + 1), s.outputSize, o.transferRc),
      Event.Free(dev, Addr(id + 1), s.outputSize),
      Event.Free(dev, Addr(id), s.inputSize)]
    ensures FileRc(o) == o.transferRc
  {
    var c := TransferChain(dev, s, id, o);
    var transfer := Event.Transfer(dev, s.inputChannel, Addr(id), s.inputSize,
                                   s.outputChannel, Addr(id + 1), s.outputSize, o.transferRc);
    assert Calls(c.next.next) == [Event.Malloc(dev, s.outputSize, Addr(id + 1)), transfer,
                                  Event.Free(dev, Addr(id + 1), s.outputSize)];
    assert Calls(c.next) == [Event.Read(s.inputFd, Addr(id), s.inputSize, o.readRc)] + Calls(c.next.next);
  }

  /** When every call before the write succeeds, the output buffer is written
      to the output file, both buffers are freed and the write's code is
      returned. */
  lemma TransferSucceeds(dev: Ptr, s: Settings, id: nat, o: FileOutcomes)
    requires o.inputAlloc && o.readRc >= 0 && o.outputAlloc && o.transferRc >= 0
    ensures Calls(TransferChain(dev, s, id, o)) == [
      Event.Malloc(dev, s.inputSize, Addr(id)),
      Event.Read(s.inputFd, Addr(id), s.inputSize, o.readRc),
      Event.Malloc(dev, s.outputSize, Addr(id + 1)),
      Event.Transfer(dev, s.inputChannel, Addr(id), s.inputSize, s.outputChannel, Addr(id + 1), s.outputSize, o.transferRc),
      Event.Write(s.outputFd, Addr(id + 1), s.outputSize, o.writeRc),
      Event.Free(dev, Addr(id + 1), s.outputSize),
      Event.Free(dev, Addr(id), s.inputSize)]
    ensures FileRc(o) == o.writeRc
  {
    var c := TransferChain(dev, s, id, o);
    var transfer := Event.Transfer(dev, s.inputChannel, Addr(id), s.inputSize,
                                   s.outputChannel, Addr(id + 1), s.outputSize, o.transferRc);
    var write := Event.Write(s.outputFd, Addr(id + 1), s.outputSize, o.writeRc);
    assert Calls(c.next.next.next.next) == [write];
    assert Calls(c.next.next) == [Event.Malloc(dev, s.outputSize, Addr(id + 1)), transfer, write,
                                  Event.Free(dev, Addr(id + 1), s.outputSize)];
    assert Calls(c.next) == [Event.Read(s.inputFd, Addr(id), s.inputSize, o.readRc)] + Calls(c.next.next);
  }

  // ---------------------------------------------------------------------------
  // main

  /** The transfer structure after memset and parse_args, once the input file
      is open as `inputFd`. */
  function Parsed(inputFd: int): Settings
  {
    Settings(inputFd, UNSET, 0, 0, UNSET, -1)
  }

  /** The structure after fstat succeeded: the input size is the file's size
      as a C `int`, and an output size of -1 becomes the input size. */
  function Sized(s: Settings, o: MainOutcomes): Settings
  {
    var size := Int32(o.fileSize);
    s.(inputSize := size, outputSize := if s.outputSize == -1 then size else s.outputSize)
  }

  /** The structure main hands to transfer_file: the channels resolved
      against the reported lists (unchanged when a list is empty, in which
      case transfer_file is not reached). */
  function Prepared(s: Settings, o: MainOutcomes): Settings
  {
    match ResolveChannels(s.inputChannel, s.outputChannel, o.txChannels, o.rxChannels)
    case Ok(channels) => s.(inputChannel := channels.0, outputChannel := channels.1)
    case Err(_) => s
  }

  /** The structure after fstat and the channel defaults: unchanged when
      fstat fails. */
  function Sessioned(s: Settings, o: MainOutcomes): Settings
  {
    if o.fstatRc < 0 then s else Prepared(Sized(s, o), o)
  }

  /** What main returns once the device is initialised: 1 when fstat fails,
      -ENODEV when a channel list is empty, otherwise the exit code of
      transfer_file's result. */
  function SessionRc(o: MainOutcomes): int
  {
    if o.fstatRc < 0 then 1
    else if |o.txChannels| < 1 || |o.rxChannels| < 1 then -ENODEV
    else ExitCode(FileRc(o.file))
  }

  /** What main returns. */
  function MainRc(o: MainOutcomes): int
  {
    if !o.inputOpens then 1
    else if !o.outputOpens then -1
    else if !o.initOk then 1
    else SessionRc(o)
  }

  /** The channel queries and transfer_file: an empty list jumps to
      `destroy_axidma`. */
  function ChannelChain(dev: Ptr, s: Settings, id: nat, o: MainOutcomes): Chain
  {
    Link(Stage(Event.GetTx(dev), |o.txChannels| >= 1, []),
    Link(Stage(Event.GetRx(dev), |o.rxChannels| >= 1, []),
    TransferChain(dev, Prepared(s, o), id, o.file)))
  }

  /** fstat of the input file (a failure jumps to `destroy_axidma`), then
      the channels and the transfer. */
  function SessionChain(dev: Ptr, s: Settings, id: nat, o: MainOutcomes): Chain
  {
    Link(Stage(Event.Fstat(s.inputFd, o.fstatRc), o.fstatRc >= 0, []),
    ChannelChain(dev, Sized(s, o), id, o))
  }

  /** axidma_init (destroyed at `destroy_axidma`), then the session. */
  function DeviceChain(s: Settings, id: nat, o: MainOutcomes): Chain
  {
    var dev := Fresh(o.initOk, id);
    Link(Stage(Event.Init(dev), o.initOk, [Event.Destroy(dev)]),
    SessionChain(dev, s, id + 1, o))
  }

  /** The output file (closed at `close_output`), then the device. */
  function OutputFileChain(s: Settings, path: string, id: nat, o: MainOutcomes): Chain
  {
    var fd := if o.outputOpens then id else -1;
    Link(Stage(Event.Open(path, fd), o.outputOpens, [Event.Close(fd, path)]),
    DeviceChain(s.(outputFd := fd), id + 1, o))
  }

  /** main as a cleanup chain, when the first fresh identity is `id`: the
      input file (closed at `close_input`), then everything that needs it. */
  function MainChain(id: nat, o: MainOutcomes): Chain
  {
    var fd := if o.inputOpens then id else -1;
    Link(Stage(Event.Open(INPUT_PATH, fd), o.inputOpens, [Event.Close(fd, INPUT_PATH)]),
    OutputFileChain(Parsed(fd), OUTPUT_PATH, id + 1, o))
  }

  /** Query the channels, default them to the first of each list, run the
      transfer and turn its result into the exit code. */
  method RunTransfer(host: Host, dev: Ptr, trans: FileTransfer, o: MainOutcomes) returns (rc: int)
    requires host.Valid()
    requires dev.Addr? && dev.addr in host.devices
    requires trans.inputFd in host.files && trans.outputFd in host.files
    modifies host, trans`inputChannel, trans`outputChannel, trans`inputBuf, trans`outputBuf
    ensures host.Valid()
    ensures rc == if |o.txChannels| < 1 || |o.rxChannels| < 1 then -ENODEV else ExitCode(FileRc(o.file))
    ensures host.log == old(host.log) + Calls(ChannelChain(dev, old(trans.Setup()), old(host.next), o))
    ensures host.buffers == old(host.buffers)
    ensures host.devices == old(host.devices) && host.files == old(host.files)
    ensures host.next == old(host.next) +
      if |o.txChannels| < 1 || |o.rxChannels| < 1 then 0 else |TransferBuffers(trans.Setup(), old(host.next), o.file)|
    ensures trans.Setup() == Prepared(old(trans.Setup()), o)
    ensures |o.txChannels| < 1 || |o.rxChannels| < 1 ==>
      trans.inputBuf == old(trans.inputBuf) && trans.outputBuf == old(trans.outputBuf)
    ensures |o.txChannels| >= 1 && |o.rxChannels| >= 1 ==>
      trans.inputBuf == Fresh(o.file.inputAlloc, old(host.next)) &&
      trans.outputBuf == if o.file.inputAlloc && o.file.readRc >= 0
        then Fresh(o.file.outputAlloc, old(host.next) + 1) else old(trans.outputBuf)
  {
    ghost var log0, id, s := host.log, host.next, trans.Setup();
    ghost var chain := ChannelChain(dev, s, id, o);
    var txChannels := host.GetTx(dev, o.txChannels);
    if |txChannels| < 1 {
      assert Prepared(s, o) == s;
      return -ENODEV;
    }
    var rxChannels := host.GetRx(dev, o.rxChannels);
    if |rxChannels| < 1 {
      assert Prepared(s, o) == s;
      assert host.log == log0 + ([Event.GetTx(dev)] + Calls(chain.next) + []);
      return -ENODEV;
    }
    if trans.inputChannel == UNSET && trans.outputChannel == UNSET {
      trans.inputChannel := txChannels[0];
      trans.outputChannel := rxChannels[0];
    }
    assert trans.Setup() == Prepared(s, o);
    rc := TransferFile(host, dev, trans, o.file);
    assert trans.Setup() == Prepared(s, o);
    assert Calls(chain.next) == [Event.GetRx(dev)] + Calls(chain.next.next) + [];
    Regroup(log0, [Event.GetTx(dev)], [Event.GetRx(dev)], Calls(chain.next.next));
    rc := ExitCode(rc);
  }

  /** The file's size, then the channels and the transfer. */
  method RunSession(host: Host, dev: Ptr, trans: FileTransfer, o: MainOutcomes) returns (rc: int)
    requires host.Valid()
    requires dev.Addr? && dev.addr in host.devices
    requires trans.inputFd in host.files && trans.outputFd in host.files
    modifies host, trans`inputSize, trans`outputSize, trans`inputChannel, trans`outputChannel
    modifies trans`inputBuf, trans`outputBuf
    ensures host.Valid()
    ensures rc == SessionRc(o)
    ensures host.log == old(host.log) + Calls(SessionChain(dev, old(trans.Setup()), old(host.next), o))
    ensures host.buffers == old(host.buffers)
    ensures host.devices == old(host.devices) && host.files == old(host.files)
    ensures host.next == old(host.next) + |SessionBuffers(old(trans.Setup()), old(host.next), o)|
    ensures trans.Setup() == Sessioned(old(trans.Setup()), o)
  {
    ghost var log0, id, s := host.log, host.next, trans.Setup();
    ghost var chain := SessionChain(dev, s, id, o);
    var fstatRc, size := host.Fstat(trans.inputFd, o.fstatRc, o.fileSize);
    if fstatRc < 0 {
      return 1;
    }
    trans.inputSize := Int32(size);
    if trans.outputSize == -1 {
      trans.outputSize := trans.inputSize;
    }
    assert trans.Setup() == Sized(s, o);
    rc := RunTransfer(host, dev, trans, o);
    Surround(log0, [chain.stage.call], Calls(chain.next), []);
  }

  /** Initialise the device, run the session, destroy the device; on a NULL
      handle return 1 without a destroy. */
  method RunDevice(host: Host, trans: FileTransfer, o: MainOutcomes) returns (rc: int)
    requires host.Valid()
    requires trans.inputFd in host.files && trans.outputFd in host.files
    modifies host, trans`inputSize, trans`outputSize, trans`inputChannel, trans`outputChannel
    modifies trans`inputBuf, trans`outputBuf
    ensures host.Valid()
    ensures rc == if !o.initOk then 1 else SessionRc(o)
    ensures host.log == old(host.log) + Calls(DeviceChain(old(trans.Setup()), old(host.next), o))
    ensures host.buffers == old(host.buffers)
    ensures host.devices == old(host.devices) && host.files == old(host.files)
    ensures host.next == old(host.next) +
      if o.initOk then 1 + |SessionBuffers(old(trans.Setup()), old(host.next) + 1, o)| else 0
    ensures trans.Setup() == if o.initOk then Sessioned(old(trans.Setup()), o) else old(trans.Setup())
  {
    ghost var log0, id, s, devices0 := host.log, host.next, trans.Setup(), host.devices;
    ghost var chain := DeviceChain(s, id, o);
    var dev := host.Init(o.initOk);
    if dev == Null {
      return 1;
    }
    rc := RunSession(host, dev, trans, o);
    host.Destroy(dev);
    Surround(log0, [chain.stage.call], Calls(chain.next), chain.stage.undo);
    AddRemoveSet(devices0, id);
  }

  /** Open the output file, run what needs it, close it; when it cannot be
      opened return -1. */
  method RunOutputFile(host: Host, trans: FileTransfer, outputPath: string, o: MainOutcomes) returns (rc: int)
    requires host.Valid()
    requires trans.inputFd in host.files
    modifies host, trans`outputFd, trans`inputSize, trans`outputSize, trans`inputChannel, trans`outputChannel
    modifies trans`inputBuf, trans`outputBuf
    ensures host.Valid()
    ensures rc == if !o.outputOpens then -1 else if !o.initOk then 1 else SessionRc(o)
    ensures host.log == old(host.log) + Calls(OutputFileChain(old(trans.Setup()), outputPath, old(host.next), o))
    ensures host.buffers == old(host.buffers)
    ensures host.devices == old(host.devices) && host.files == old(host.files)
    ensures host.next == old(host.next) +
      if !o.outputOpens then 0
      else if !o.initOk then 1
      else 2 + |SessionBuffers(old(trans.Setup()), old(host.next) + 2, o)|
    ensures var withFd := old(trans.Setup()).(outputFd := if o.outputOpens then old(host.next) else -1);
      trans.Setup() == if o.outputOpens && o.initOk then Sessioned(withFd, o) else withFd
  {
    ghost var log0, id, s, files0 := host.log, host.next, trans.Setup(), host.files;
    ghost var chain := OutputFileChain(s, outputPath, id, o);
    trans.outputFd := host.Open(outputPath, o.outputOpens);
    if trans.outputFd < 0 {
      return -1;
    }
    assert trans.Setup() == s.(outputFd := id);
    rc := RunDevice(host, trans, o);
    host.Close(trans.outputFd);
    Surround(log0, [chain.stage.call], Calls(chain.next), chain.stage.undo);
    AddRemove(files0, id, outputPath);
  }

  /** main: parse the arguments, open the input file, run what needs it, close
      it, and return the code. */
  method ProgramMain(host: Host, o: MainOutcomes) returns (rc: int)
    requires host.Valid()
    modifies host
    ensures host.Valid()
    ensures rc == MainRc(o)
    ensures host.log == old(host.log) + Calls(MainChain(old(host.next), o))
    ensures host.buffers == old(host.buffers)
    ensures host.devices == old(host.devices) && host.files == old(host.files)
    ensures host.next == old(host.next) + |MainResources(old(host.next), o)|
  {
    ghost var log0, id, files0 := host.log, host.next, host.files;
    ghost var chain := MainChain(id, o);
    var trans := new FileTransfer();
    var parsed, inputPath, outputPath, inputChannel, outputChannel, outputSize := ParseArgs();
    trans.inputChannel, trans.outputChannel, trans.outputSize := inputChannel, outputChannel, outputSize;
    if parsed < 0 {
      return 1;
    }
    trans.inputFd := host.Open(inputPath, o.inputOpens);
    if trans.inputFd < 0 {
      return 1;
    }
    assert trans.Setup() == Parsed(id);
    rc := RunOutputFile(host, trans, outputPath, o);
    host.Close(trans.inputFd);
    Surround(log0, [chain.stage.call], Calls(chain.next), chain.stage.undo);
    AddRemove(files0, id, INPUT_PATH);
  }

  // What the calls of main do with the files, the device and the buffers

  /** The settings main hands to transfer_file when the input file was
      opened as `id` and the output file as `id + 1`. */
  function TransferSettings(id: nat, o: MainOutcomes): Settings
  {
    Prepared(Sized(Parsed(id).(outputFd := id + 1), o), o)
  }

  /** The buffers acquired while the device is initialised: those of
      transfer_file, when fstat succeeded and both channel lists are non-empty. */
  function SessionBuffers(s: Settings, id: nat, o: MainOutcomes): seq<Resource>
  {
    if o.fstatRc < 0 || |o.txChannels| < 1 || |o.rxChannels| < 1 then []
    else TransferBuffers(Prepared(Sized(s, o), o), id, o.file)
  }

  /** The resources main acquires, in order: the input file, the output file,
      the device handle, then the buffers of transfer_file; each only when
      everything before it was acquired. */
  function MainResources(id: nat, o: MainOutcomes): seq<Resource>
  {
    var device := if !o.initOk then [] else [Device(id + 2)] + SessionBuffers(Parsed(id).(outputFd := id + 1), id + 3, o);
    var output := if !o.outputOpens then [] else [File(id + 1, OUTPUT_PATH)] + device;
    if !o.inputOpens then [] else [File(id, INPUT_PATH)] + output
  }

  lemma SessionChainProper(dev: Ptr, s: Settings, id: nat, o: MainOutcomes)
    ensures var c := SessionChain(dev, s, id, o);
      Proper(c) && Acquired(c) == SessionBuffers(s, id, o)
  {
    var c := SessionChain(dev, s, id, o);
    TransferChainProper(dev, Prepared(Sized(s, o), o), id, o.file);
    assert Proper(c.next.next) && Proper(c.next);
    assert Acquired(c.next) == if |o.txChannels| < 1 || |o.rxChannels| < 1 then [] else Acquired(c.next.next.next);
  }

  lemma MainChainProper(id: nat, o: MainOutcomes)
    ensures var c := MainChain(id, o);
      Proper(c) && Acquired(c) == MainResources(id, o)
  {
    var c := MainChain(id, o);
    var s := Parsed(if o.inputOpens then id else -1).(outputFd := if o.outputOpens then id + 1 else -1);
    SessionChainProper(Fresh(o.initOk, id + 2), s, id + 3, o);
    assert Proper(c.next.next) && Proper(c.next);
    if o.inputOpens && o.outputOpens {
      assert s == Parsed(id).(outputFd := id + 1);
      assert Acquired(c.next.next) ==
        if !o.initOk then [] else [Device(id + 2)] + SessionBuffers(s, id + 3, o);
      assert Acquired(c.next) == [File(id + 1, OUTPUT_PATH)] + Acquired(c.next.next);
    }
  }

  /** On every path through main each file it opened is closed, the device
      it initialised destroyed and each buffer it allocated freed, each
      exactly once and in the reverse of the order of acquisition; nothing
      else is released. */
  lemma MainReleases(id: nat, o: MainOutcomes)
    ensures var fx := Effects(Calls(MainChain(id, o)));
      Balanced(fx) &&
      Acquires(fx) == MainResources(id, o) &&
      Releases(fx) == Reversed(MainResources(id, o)) &&
      forall r :: multiset(Releases(fx))[r] == if r in MainResources(id, o) then 1 else 0
  {
    MainChainProper(id, o);
    ChainNests(MainChain(id, o));
    var fx := Effects(Calls(MainChain(id, o)));
    MainResourcesDistinct(id, o);
    forall r ensures multiset(Releases(fx))[r] == if r in MainResources(id, o) then 1 else 0 {
      BalancedReleasesEachOnce(fx, r);
    }
  }

  /** What main may do with a call when the first fresh identity is `id`:
      hand the library no NULL pointer, and destroy no handle but the one
      axidma_init returned, and that only when both files opened and the
      handle is not NULL. */
  predicate SafeCall(id: nat, o: MainOutcomes, e: Event)
  {
    !HandsNull(e) &&
    (e.Destroy? ==> e == Event.Destroy(Addr(id + 2)) && o.inputOpens && o.outputOpens && o.initOk)
  }

  /** With a device handle that is not NULL, no call transfer_file makes
      hands the library NULL, and none destroys anything. */
  lemma TransferAlong(dev: Ptr, s: Settings, id: nat, o: FileOutcomes, p: Event -> bool)
    requires dev.Addr?
    requires forall e :: !HandsNull(e) && !e.Destroy? ==> p(e)
    ensures Along(TransferChain(dev, s, id, o), p)
  {
    var c := TransferChain(dev, s, id, o);
    if o.inputAlloc {
      if o.outputAlloc {
        assert Along(c.next.next.next.next, p);
        assert Along(c.next.next.next, p);
      }
      assert Along(c.next.next, p);
      assert Along(c.next, p);
    }
  }

  /** Every call main makes is a `SafeCall`: unlike loopback_data.c, main
      never calls axidma_destroy (or any other library call) with a NULL
      handle, and it destroys exactly the handle axidma_init returned,
      exactly when that handle is not NULL. */
  lemma MainHandsNoNull(id: nat, o: MainOutcomes)
    ensures var calls := Calls(MainChain(id, o));
      NoNullHandles(calls) &&
      (forall e | e in calls && e.Destroy? :: e == Event.Destroy(Addr(id + 2))) &&
      (Event.Destroy(Addr(id + 2)) in calls <==> o.inputOpens && o.outputOpens && o.initOk)
  {
    var p := e => SafeCall(id, o, e);
    var c := MainChain(id, o);
    var calls := Calls(c);
    if o.inputOpens && o.outputOpens && o.initOk {
      var s := Sized(Parsed(id).(outputFd := id + 1), o);
      TransferAlong(Addr(id + 2), Prepared(s, o), id + 3, o.file, p);
      var session := c.next.next.next;
      assert Along(session.next.next, p);
      assert Along(session.next, p);
      assert Along(session, p);
      assert Along(c.next.next, p);
      assert Along(c.next, p);
    }
    assert Along(c, p);
    CallsAlong(c, p);
    assert forall i | 0 <= i < |calls| :: calls[i] in calls;
    if o.inputOpens && o.outputOpens && o.initOk {
      assert Event.Destroy(Addr(id + 2)) in Calls(c.next.next);
      assert Event.Destroy(Addr(id + 2)) in Calls(c.next);
    }
  }

  lemma MainResourcesDistinct(id: nat, o: MainOutcomes)
    ensures Distinct(MainResources(id, o))
  {
  }

  /** When either channel list is empty main returns -ENODEV (once the files
      and the device are there), and transfer_file allocates nothing. */
  lemma NoChannels(id: nat, o: MainOutcomes)
    requires |o.txChannels| < 1 || |o.rxChannels| < 1
    ensures o.inputOpens && o.outputOpens && o.initOk && o.fstatRc >= 0 ==> MainRc(o) == -ENODEV
    ensures forall r | r in MainResources(id, o) :: !r.Buffer?
  {
  }

  /** What main hands to transfer_file: the two files it opened, both sizes
      the file's size as a C `int`, and the first channel of each list. */
  lemma TransferGetsFile(id: nat, o: MainOutcomes)
    requires |o.txChannels| > 0 && |o.rxChannels| > 0
    ensures var s := TransferSettings(id, o);
      s.inputFd == id && s.outputFd == id + 1 &&
      s.inputSize == Int32(o.fileSize) && s.outputSize == Int32(o.fileSize) &&
      s.inputChannel == o.txChannels[0] && s.outputChannel == o.rxChannels[0]
  {
  }

  /** Every call of main before transfer_file succeeded. */
  predicate ReachesTransfer(o: MainOutcomes)
  {
    o.inputOpens && o.outputOpens && o.initOk && o.fstatRc >= 0 &&
    |o.txChannels| > 0 && |o.rxChannels| > 0
  }

  /** main exits with 0 exactly when every call succeeded up to transfer_file
      and transfer_file returned a code that is not negative; a negative code
      of transfer_file becomes its positive value. */
  lemma MainExit(o: MainOutcomes)
    ensures MainRc(o) == 0 <==> ReachesTransfer(o) && FileRc(o.file) >= 0
    ensures ReachesTransfer(o) && FileRc(o.file) < 0 ==> MainRc(o) == -FileRc(o.file)
  {
  }
}
