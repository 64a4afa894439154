/** Everything the loopback programs call but do not define: the AXI DMA
    library (libaxidma) and the POSIX file calls. Neither is modelled inside;
    each call is an abstract step whose outcome (NULL or not, the returned
    code, the reported channel lists) is chosen by the caller of the model and
    passed in as a parameter. What the model keeps is the state the calls
    change: the live device handles, the live DMA buffers with the size each
    was allocated with, the open file descriptors, and the log of every call. */
module Platform {
  import opened Common
  import opened Trace

  /** What a call that hands out a fresh handle returns: the next unused
      identity when it succeeds, NULL otherwise. */
  function Fresh(succeeds: bool, id: nat): (p: Ptr)
    ensures p.Addr? <==> succeeds
  {
    if succeeds then Addr(id) else Null
  }

  /** Adding a fresh key and then removing it restores the map. */
  lemma AddRemove<K, V>(m: map<K, V>, k: K, v: V)
    requires k !in m
    ensures m[k := v] - {k} == m
  {
  }

  /** Adding a fresh element and then removing it restores the set. */
  lemma AddRemoveSet<K>(s: set<K>, k: K)
    requires k !in s
    ensures s + {k} - {k} == s
  {
  }

  class Host {
    /** Every call made so far, in order. */
    ghost var log: seq<Event>
    /** Device handles returned by axidma_init and not yet destroyed. */
    ghost var devices: set<nat>
    /** DMA buffers returned by axidma_malloc and not yet freed, with their sizes. */
    ghost var buffers: map<nat, int>
    /** Open file descriptors and the path each was opened at. */
    ghost var files: map<int, string>
    /** Source of fresh descriptors, handles and addresses. */
    var next: nat

    ghost predicate Valid()
      reads this
    {
      (forall d | d in devices :: d < next) &&
      (forall a | a in buffers :: a < next) &&
      (forall fd | fd in files :: 0 <= fd < next)
    }

    constructor ()
      ensures Valid()
      ensures log == [] && devices == {} && buffers == map[] && files == map[]
    {
      log, devices, buffers, files := [], {}, map[], map[];
      next := 0;
    }

    /** open(2): a fresh descriptor, or -1. */
    method Open(path: string, succeeds: bool) returns (fd: int)
      requires Valid()
      modifies this
      ensures Valid()
      ensures log == old(log) + [Event.Open(path, fd)]
      ensures succeeds ==> fd == old(next) && next == old(next) + 1 && files == old(files)[fd := path]
      ensures !succeeds ==> fd == -1 && next == old(next) && files == old(files)
      ensures devices == old(devices) && buffers == old(buffers)
    {
      if succeeds {
        fd := next;
        files := files[fd := path];
        next := next + 1;
      } else {
        fd := -1;
      }
      log := log + [Event.Open(path, fd)];
    }

    /** close(2) of an open descriptor. */
    method Close(fd: int)
      requires Valid() && fd in files
      modifies this
      ensures Valid()
      ensures log == old(log) + [Event.Close(fd, old(files)[fd])]
      ensures files == old(files) - {fd}
      ensures devices == old(devices) && buffers == old(buffers) && next == old(next)
    {
      log := log + [Event.Close(fd, files[fd])];
      files := files - {fd};
    }

    /** fstat(2): its return code and, when that is not negative, the file's st_size. */
    method Fstat(fd: int, result: int, fileSize: nat) returns (rc: int, size: nat)
      requires Valid() && fd in files
      modifies this
      ensures Valid()
      ensures log == old(log) + [Event.Fstat(fd, rc)]
      ensures rc == result && size == fileSize
      ensures devices == old(devices) && buffers == old(buffers) && files == old(files) && next == old(next)
    {
      rc, size := result, fileSize;
      log := log + [Event.Fstat(fd, rc)];
    }

    /** robust_read into a live buffer. */
    method Read(fd: int, buf: Ptr, size: int, result: int) returns (rc: int)
      requires Valid() && fd in files
      requires buf.Addr? && buf.addr in buffers && size <= buffers[buf.addr]
      modifies this
      ensures Valid()
      ensures log == old(log) + [Event.Read(fd, buf, size, rc)] && rc == result
      ensures devices == old(devices) && buffers == old(buffers) && files == old(files) && next == old(next)
    {
      rc := result;
      log := log + [Event.Read(fd, buf, size, rc)];
    }

    /** robust_write from a live buffer. */
    method Write(fd: int, buf: Ptr, size: int, result: int) returns (rc: int)
      requires Valid() && fd in files
      requires buf.Addr? && buf.addr in buffers && size <= buffers[buf.addr]
      modifies this
      ensures Valid()
      ensures log == old(log) + [Event.Write(fd, buf, size, rc)] && rc == result
      ensures devices == old(devices) && buffers == old(buffers) && files == old(files) && next == old(next)
    {
      rc := result;
      log := log + [Event.Write(fd, buf, size, rc)];
    }

    /** axidma_init: a fresh device handle, or NULL. */
    method Init(succeeds: bool) returns (dev: Ptr)
      requires Valid()
      modifies this
      ensures Valid()
      ensures log == old(log) + [Event.Init(dev)]
      ensures succeeds ==> dev == Addr(old(next)) && next == old(next) + 1 && devices == old(devices) + {dev.addr}
      ensures !succeeds ==> dev == Null && next == old(next) && devices == old(devices)
      ensures buffers == old(buffers) && files == old(files)
    {
      if succeeds {
        dev := Addr(next);
        devices := devices + {next};
        next := next + 1;
      } else {
        dev := Null;
      }
      log := log + [Event.Init(dev)];
    }

    /** axidma_destroy. A live handle is released; what the library does with
        NULL is not known, and the call is only recorded. */
    method Destroy(dev: Ptr)
      requires Valid()
      requires dev.Addr? ==> dev.addr in devices
      modifies this
      ensures Valid()
      ensures log == old(log) + [Event.Destroy(dev)]
      ensures devices == if dev.Addr? then old(devices) - {dev.addr} else old(devices)
      ensures buffers == old(buffers) && files == old(files) && next == old(next)
    {
      if dev.Addr? {
        devices := devices - {dev.addr};
      }
      log := log + [Event.Destroy(dev)];
    }

    /** axidma_get_dma_tx: the transmit channels the library reports. */
    method GetTx(dev: Ptr, reported: seq<int>) returns (channels: seq<int>)
      requires Valid()
      modifies this
      ensures Valid()
      ensures log == old(log) + [Event.GetTx(dev)] && channels == reported
      ensures devices == old(devices) && buffers == old(buffers) && files == old(files) && next == old(next)
    {
      channels := reported;
      log := log + [Event.GetTx(dev)];
    }

    /** axidma_get_dma_rx: the receive channels the library reports. */
    method GetRx(dev: Ptr, reported: seq<int>) returns (channels: seq<int>)
      requires Valid()
      modifies this
      ensures Valid()
      ensures log == old(log) + [Event.GetRx(dev)] && channels == reported
      ensures devices == old(devices) && buffers == old(buffers) && files == old(files) && next == old(next)
    {
      channels := reported;
      log := log + [Event.GetRx(dev)];
    }

    /** axidma_malloc: a fresh buffer of `size` bytes, or NULL. */
    method Malloc(dev: Ptr, size: int, succeeds: bool) returns (buf: Ptr)
      requires Valid()
      modifies this
      ensures Valid()
      ensures log == old(log) + [Event.Malloc(dev, size, buf)]
      ensures succeeds ==> buf == Addr(old(next)) && next == old(next) + 1 && buffers == old(buffers)[buf.addr := size]
      ensures !succeeds ==> buf == Null && next == old(next) && buffers == old(buffers)
      ensures devices == old(devices) && files == old(files)
    {
      if succeeds {
        buf := Addr(next);
        buffers := buffers[next := size];
        next := next + 1;
      } else {
        buf := Null;
      }
      log := log + [Event.Malloc(dev, size, buf)];
    }

    /** axidma_free: only a live buffer, and only with the size it was allocated with. */
    method Free(dev: Ptr, buf: Ptr, size: int)
      requires Valid()
      requires buf.Addr? && buf.addr in buffers && buffers[buf.addr] == size
      modifies this
      ensures Valid()
      ensures log == old(log) + [Event.Free(dev, buf, size)]
      ensures buffers == old(buffers) - {buf.addr}
      ensures devices == old(devices) && files == old(files) && next == old(next)
    {
      buffers := buffers - {buf.addr};
      log := log + [Event.Free(dev, buf, size)];
    }

    /** axidma_twoway_transfer with wait set: a blocking send and receive.
        A non-NULL buffer must be live and at least as large as its transfer size. */
    method Transfer(dev: Ptr, txChannel: int, txBuf: Ptr, txSize: int,
                    rxChannel: int, rxBuf: Ptr, rxSize: int, result: int) returns (rc: int)
      requires Valid()
      requires txBuf.Addr? ==> txBuf.addr in buffers && txSize <= buffers[txBuf.addr]
      requires rxBuf.Addr? ==> rxBuf.addr in buffers && rxSize <= buffers[rxBuf.addr]
      modifies this
      ensures Valid()
      ensures log == old(log) + [Event.Transfer(dev, txChannel, txBuf, txSize, rxChannel, rxBuf, rxSize, rc)]
      ensures rc == result
      ensures devices == old(devices) && buffers == old(buffers) && files == old(files) && next == old(next)
    {
      rc := result;
      log := log + [Event.Transfer(dev, txChannel, txBuf, txSize, rxChannel, rxBuf, rxSize, rc)];
    }

    /** Marks the point where the program itself dereferences NULL: from here on
        its behaviour is undefined. */
    ghost method Fault(f: Fault)
      requires Valid()
      modifies this
      ensures Valid()
      ensures log == old(log) + [Undefined(f)]
      ensures devices == old(devices) && buffers == old(buffers) && files == old(files) && next == old(next)
    {
      log := log + [Undefined(f)];
    }
  }
}
