/** The event trace of one run of a loopback program, and the theory of the
    resources it acquires and releases.

    Every call the programs make into the AXI DMA library or the operating
    system is one `Event`. Some events acquire a resource (a successful
    `open`, a non-NULL `axidma_init` or `axidma_malloc`) and some release one
    (`close`, `axidma_destroy`, `axidma_free`). `Held` replays a trace as a
    stack: a release must give back the most recently acquired resource that
    is still held, with the same identity and size. A trace is `Balanced` when
    that replay succeeds and ends with nothing held. */
module Trace {
  import opened Common

  /** What the loopback_data program does through a NULL buffer pointer. */
  datatype Fault =
    | TxStoreThroughNull   // `trans->tx_buf[i] = ...` after a failed allocation
    | RxStoreThroughNull   // `trans->rx_buf[i] = 0` after a failed allocation
    | RxLoadThroughNull    // `trans->rx_buf[Index]` read for printing

  datatype Event =
    | Open(path: string, fd: int)              // open(2); fd < 0 on failure
    | Close(fd: int, path: string)             // close(2) of the file opened at path
    | Fstat(fd: int, rc: int)
    | Read(fd: int, buf: Ptr, size: int, rc: int)
    | Write(fd: int, buf: Ptr, size: int, rc: int)
    | Init(dev: Ptr)                           // the handle axidma_init returned
    | Destroy(dev: Ptr)
    | GetTx(dev: Ptr)                          // axidma_get_dma_tx
    | GetRx(dev: Ptr)                          // axidma_get_dma_rx
    | Malloc(dev: Ptr, size: int, buf: Ptr)    // axidma_malloc and the pointer it returned
    | Free(dev: Ptr, buf: Ptr, size: int)      // axidma_free
    | Transfer(dev: Ptr, txChannel: int, txBuf: Ptr, txSize: int,
               rxChannel: int, rxBuf: Ptr, rxSize: int, rc: int)   // axidma_twoway_transfer
    | Undefined(fault: Fault)                  // a dereference of NULL by the program itself

  /** A resource a program owns between its acquisition and its release. */
  datatype Resource =
    | File(fd: int, path: string)
    | Device(handle: nat)
    | Buffer(addr: nat, size: int)

  datatype Effect = Acquire(r: Resource) | Release(r: Resource) | Neutral

  function EffectOf(e: Event): Effect
  {
    match e
    case Open(path, fd) => if fd >= 0 then Acquire(File(fd, path)) else Neutral
    case Close(fd, path) => Release(File(fd, path))
    case Init(Addr(d)) => Acquire(Device(d))
    case Destroy(Addr(d)) => Release(Device(d))
    case Malloc(_, size, Addr(a)) => Acquire(Buffer(a, size))
    case Free(_, Addr(a), size) => Release(Buffer(a, size))
    case _ => Neutral
  }

  /** The effects of `es`, event by event. */
  function Effects(es: seq<Event>): (fx: seq<Effect>)
    ensures |fx| == |es|
  {
    if es == [] then [] else [EffectOf(es[0])] + Effects(es[1..])
  }

  /** The resources acquired by `fx`, in order of acquisition. */
  function Acquires(fx: seq<Effect>): seq<Resource>
  {
    if fx == [] then []
    else if fx[0].Acquire? then [fx[0].r] + Acquires(fx[1..])
    else Acquires(fx[1..])
  }

  /** The resources released by `fx`, in order of release. */
  function Releases(fx: seq<Effect>): seq<Resource>
  {
    if fx == [] then []
    else if fx[0].Release? then [fx[0].r] + Releases(fx[1..])
    else Releases(fx[1..])
  }

  /** One effect applied to the stack of held resources, oldest first: an
      acquisition pushes, a release must pop exactly the resource on top. */
  function Step(held: seq<Resource>, f: Effect): Option<seq<Resource>>
  {
    match f
    case Acquire(r) => Some(held + [r])
    case Release(r) =>
      if held != [] && held[|held| - 1] == r then Some(held[..|held| - 1]) else None
    case Neutral => Some(held)
  }

  /** The stack after replaying `fx` from `held`; None when some effect releases
      a resource that is not the most recently acquired one still held (or one
      never acquired, or one with another size). */
  function Replay(held: seq<Resource>, fx: seq<Effect>): Option<seq<Resource>>
    decreases |fx|
  {
    if fx == [] then Some(held)
    else
      match Step(held, fx[0])
      case None => None
      case Some(next) => Replay(next, fx[1..])
  }

  /** The stack of resources still held after `fx`, started with nothing held. */
  function Held(fx: seq<Effect>): Option<seq<Resource>>
  {
    Replay([], fx)
  }

  /** Every resource is released, last acquired first released. */
  predicate Balanced(fx: seq<Effect>)
  {
    Held(fx) == Some([])
  }

  /** Balanced, and every resource is released in the reverse of the order
      of acquisition. */
  predicate Nested(fx: seq<Effect>)
  {
    Balanced(fx) && Releases(fx) == Reversed(Acquires(fx))
  }

  predicate Distinct<T(==)>(s: seq<T>)
  {
    forall i, j | 0 <= i < j < |s| :: s[i] != s[j]
  }

  function Reversed<T>(s: seq<T>): seq<T>
  {
    if s == [] then [] else Reversed(s[1..]) + [s[0]]
  }

  /** An event that hands the library a NULL device handle or a NULL buffer. */
  predicate HandsNull(e: Event)
  {
    match e
    case Read(_, buf, _, _) => buf == Null
    case Write(_, buf, _, _) => buf == Null
    case Destroy(dev) => dev == Null
    case GetTx(dev) => dev == Null
    case GetRx(dev) => dev == Null
    case Malloc(dev, _, _) => dev == Null
    case Free(dev, buf, _) => dev == Null || buf == Null
    case Transfer(dev, _, txBuf, _, _, rxBuf, _, _) => dev == Null || txBuf == Null || rxBuf == Null
    case _ => false
  }

  predicate NoNullHandles(es: seq<Event>)
  {
    forall i | 0 <= i < |es| :: !HandsNull(es[i])
  }

  /** Some call writes to a file. */
  predicate Writes(es: seq<Event>)
  {
    exists i | 0 <= i < |es| :: es[i].Write?
  }

  /** Every call that writes to a file is `w`, and there is at most one. */
  predicate WritesOnly(es: seq<Event>, w: Event)
  {
    forall i, j | 0 <= i < |es| && 0 <= j < |es| && es[i].Write? && es[j].Write? :: i == j && es[i] == w
  }

  /** Every buffer handed to a write(2) was filled by a successful
      axidma_twoway_transfer immediately before. */
  predicate WritesFollowTransfer(es: seq<Event>)
  {
    forall i | 0 <= i < |es| && es[i].Write? ::
      0 < i && es[i - 1].Transfer? && es[i - 1].rc >= 0 && es[i - 1].rxBuf == es[i].buf
  }

  // ---------------------------------------------------------------------------
  // Lemmas: traces built piece by piece

  lemma {:induction false} EffectsAppend(a: seq<Event>, b: seq<Event>)
    ensures Effects(a + b) == Effects(a) + Effects(b)
  {
    if a != [] {
      assert (a + b)[1..] == a[1..] + b;
      EffectsAppend(a[1..], b);
    } else {
      assert a + b == b;
    }
  }

  lemma {:induction false} AcquiresAppend(a: seq<Effect>, b: seq<Effect>)
    ensures Acquires(a + b) == Acquires(a) + Acquires(b)
  {
    if a != [] {
      assert (a + b)[1..] == a[1..] + b;
      AcquiresAppend(a[1..], b);
    } else {
      assert a + b == b;
    }
  }

  lemma {:induction false} ReleasesAppend(a: seq<Effect>, b: seq<Effect>)
    ensures Releases(a + b) == Releases(a) + Releases(b)
  {
    if a != [] {
      assert (a + b)[1..] == a[1..] + b;
      ReleasesAppend(a[1..], b);
    } else {
      assert a + b == b;
    }
  }

  /** Replaying two traces one after the other is replaying their concatenation. */
  lemma {:induction false} ReplayAppend(held: seq<Resource>, a: seq<Effect>, b: seq<Effect>)
    ensures Replay(held, a + b) ==
      match Replay(held, a)
      case None => None
      case Some(mid) => Replay(mid, b)
    decreases |a|
  {
    if a != [] {
      assert (a + b)[1..] == a[1..] + b;
      match Step(held, a[0])
      case None =>
      case Some(next) => ReplayAppend(next, a[1..], b);
    } else {
      assert a + b == b;
    }
  }

  /** A release never reaches below the stack it started from: whatever was
      held before a trace stays underneath what the trace holds. */
  lemma {:induction false} ReplayUnder(under: seq<Resource>, held: seq<Resource>, fx: seq<Effect>)
    requires Replay(held, fx).Some?
    ensures Replay(under + held, fx) == Some(under + Replay(held, fx).value)
    decreases |fx|
  {
    if fx != [] {
      match fx[0]
      case Acquire(r) =>
        assert under + held + [r] == under + (held + [r]);
        ReplayUnder(under, held + [r], fx[1..]);
      case Release(r) =>
        assert (under + held)[..|under + held| - 1] == under + held[..|held| - 1];
        ReplayUnder(under, held[..|held| - 1], fx[1..]);
      case Neutral =>
        ReplayUnder(under, held, fx[1..]);
    }
  }

  /** A balanced trace leaves any stack it starts from as it found it. */
  lemma BalancedKeeps(held: seq<Resource>, fx: seq<Effect>)
    requires Balanced(fx)
    ensures Replay(held, fx) == Some(held)
  {
    ReplayUnder(held, [], fx);
    assert held + [] == held;
  }

  /** Balanced traces compose one after the other. */
  lemma BalancedAppend(a: seq<Effect>, b: seq<Effect>)
    requires Balanced(a) && Balanced(b)
    ensures Balanced(a + b)
  {
    ReplayAppend([], a, b);
  }

  /** Acquiring `r`, running a balanced trace, then releasing `r` is balanced. */
  lemma BalancedWrap(r: Resource, fx: seq<Effect>)
    requires Balanced(fx)
    ensures Balanced([Acquire(r)] + fx + [Release(r)])
  {
    ReplayAppend([], [Acquire(r)], fx);
    assert [] + [r] == [r] && [Acquire(r)][1..] == [];
    BalancedKeeps([r], fx);
    ReplayAppend([], [Acquire(r)] + fx, [Release(r)]);
    assert Replay([r], [Release(r)]) == Replay([], []);
  }

  /** A trace that releases nothing ends holding what it started with and,
      on top, everything it acquired. */
  lemma {:induction false} ReplayNoRelease(held: seq<Resource>, fx: seq<Effect>)
    requires Releases(fx) == []
    ensures Replay(held, fx) == Some(held + Acquires(fx))
    decreases |fx|
  {
    if fx == [] {
      assert held + [] == held;
    } else {
      match fx[0]
      case Acquire(r) =>
        ReplayNoRelease(held + [r], fx[1..]);
        assert held + [r] + Acquires(fx[1..]) == held + ([r] + Acquires(fx[1..]));
      case Neutral =>
        ReplayNoRelease(held, fx[1..]);
    }
  }

  /** A trace between a first and a last effect that releases nothing: the
      last effect meets the first one's resource, if any, under everything
      acquired in between. */
  lemma ReplayAround(first: Effect, mid: seq<Effect>, last: Effect)
    requires !first.Release? && Releases(mid) == []
    ensures Replay([], [first] + mid + [last]) ==
      Step((if first.Acquire? then [first.r] else []) + Acquires(mid), last)
  {
    var held := if first.Acquire? then [first.r] else [];
    ReplayAppend([], [first] + mid, [last]);
    ReplayAppend([], [first], mid);
    assert Replay([], [first]) == Some(held) by {
      assert [first][1..] == [];
      assert Step([], first) == Some(held) by {
        if first.Acquire? { assert [] + [first.r] == held; }
      }
    }
    ReplayNoRelease(held, mid);
    assert [last][1..] == [];
  }

  /** What the calls `a + b` acquire and release: those of `a`, then those of `b`. */
  lemma CallsAppend(a: seq<Event>, b: seq<Event>)
    ensures Acquires(Effects(a + b)) == Acquires(Effects(a)) + Acquires(Effects(b))
    ensures Releases(Effects(a + b)) == Releases(Effects(a)) + Releases(Effects(b))
  {
    EffectsAppend(a, b);
    AcquiresAppend(Effects(a), Effects(b));
    ReleasesAppend(Effects(a), Effects(b));
  }

  // ---------------------------------------------------------------------------
  // Lemmas: what a balanced trace releases

  /** Whatever a trace acquired is either released by it or still held. */
  lemma {:induction false} ReplayConserves(held: seq<Resource>, fx: seq<Effect>, final: seq<Resource>)
    requires Replay(held, fx) == Some(final)
    ensures multiset(held) + multiset(Acquires(fx)) == multiset(Releases(fx)) + multiset(final)
    decreases |fx|
  {
    if fx != [] {
      var next := Step(held, fx[0]).value;
      ReplayConserves(next, fx[1..], final);
      match fx[0]
      case Acquire(r) =>
        assert multiset(next) == multiset(held) + multiset([r]);
        assert multiset(Acquires(fx)) == multiset([r]) + multiset(Acquires(fx[1..]));
      case Release(r) =>
        assert held != [] && held[|held| - 1] == r && next == held[..|held| - 1];
        assert held == next + [r];
        assert multiset(held) == multiset(next) + multiset([r]);
        assert multiset(Releases(fx)) == multiset([r]) + multiset(Releases(fx[1..]));
        assert Acquires(fx) == Acquires(fx[1..]);
        assert multiset(held) + multiset(Acquires(fx)) ==
          (multiset(next) + multiset(Acquires(fx[1..]))) + multiset([r]);
      case Neutral =>
    }
  }

  /** In a balanced trace that never acquires the same resource twice, every
      acquired resource is released exactly once, and nothing else is released. */
  lemma BalancedReleasesEachOnce(fx: seq<Effect>, r: Resource)
    requires Balanced(fx)
    requires Distinct(Acquires(fx))
    ensures multiset(Releases(fx))[r] == if r in Acquires(fx) then 1 else 0
  {
    var none: seq<Resource> := [];
    ReplayConserves(none, fx, none);
    assert multiset(none) + multiset(Acquires(fx)) == multiset(Acquires(fx));
    assert multiset(Releases(fx)) + multiset(none) == multiset(Releases(fx));
    DistinctCount(Acquires(fx), r);
  }

  lemma {:induction false} DistinctCount<T>(s: seq<T>, x: T)
    requires Distinct(s)
    ensures multiset(s)[x] == if x in s then 1 else 0
  {
    if s != [] {
      assert s == [s[0]] + s[1..];
      DistinctCount(s[1..], x);
    }
  }

  lemma {:induction false} ReversedAppend<T>(a: seq<T>, b: seq<T>)
    ensures Reversed(a + b) == Reversed(b) + Reversed(a)
  {
    if a == [] {
      assert a + b == b;
      assert Reversed(b) + [] == Reversed(b);
    } else {
      assert (a + b)[1..] == a[1..] + b;
      ReversedAppend(a[1..], b);
    }
  }

  // ---------------------------------------------------------------------------
  // Lemmas: traces whose resources nest

  /** Acquiring `r`, running a nested trace, then releasing `r` nests, and
      `r` comes first among its acquisitions. */
  lemma NestedWrap(r: Resource, fx: seq<Effect>)
    requires Nested(fx)
    ensures var w := [Acquire(r)] + fx + [Release(r)];
      Nested(w) && Acquires(w) == [r] + Acquires(fx)
  {
    BalancedWrap(r, fx);
    AcquiresAppend([Acquire(r)] + fx, [Release(r)]);
    AcquiresAppend([Acquire(r)], fx);
    ReleasesAppend([Acquire(r)] + fx, [Release(r)]);
    ReleasesAppend([Acquire(r)], fx);
    assert Acquires([Acquire(r)]) == [r] && Releases([Acquire(r)]) == [];
    assert Acquires([Release(r)]) == [] && Releases([Release(r)]) == [r];
    ReversedAppend([r], Acquires(fx));
    assert Reversed([r]) == [r];
    var w := [Acquire(r)] + fx + [Release(r)];
    assert Releases(w) == [] + Releases(fx) + [r];
    assert Releases(w) == Reversed(Acquires(fx)) + Reversed([r]);
    assert Acquires(w) == [r] + Acquires(fx) + [];
    assert Acquires(w) == [r] + Acquires(fx);
    assert Releases(w) == Reversed(Acquires(w));
  }

  /** Two nested traces one after the other nest, provided one of them
      acquires nothing. */
  lemma NestedAppend(a: seq<Effect>, b: seq<Effect>)
    requires Nested(a) && Nested(b)
    requires Acquires(a) == [] || Acquires(b) == []
    ensures Nested(a + b) && Acquires(a + b) == Acquires(a) + Acquires(b)
  {
    BalancedAppend(a, b);
    AcquiresAppend(a, b);
    ReleasesAppend(a, b);
    if Acquires(a) == [] {
      assert Acquires(a) + Acquires(b) == Acquires(b);
      assert Releases(a) + Releases(b) == Releases(b);
    } else {
      assert Acquires(a) + Acquires(b) == Acquires(a);
      assert Releases(a) + Releases(b) == Releases(a);
    }
  }

  /** A call that neither acquires nor releases anything nests. */
  lemma NestedNeutral()
    ensures Nested([Neutral]) && Acquires([Neutral]) == []
  {
    assert Replay([], [Neutral]) == Replay([], []);
  }

  /** The effects of a single call. */
  lemma EffectsOne(e: Event)
    ensures Effects([e]) == [EffectOf(e)]
  {
    assert [e][1..] == [];
  }

  /** A call that acquires `r`, calls that nest, and a call that releases `r`
      nest, and `r` is acquired first. */
  lemma Bracket(r: Resource, open: Event, body: seq<Event>, close: Event)
    requires EffectOf(open) == Acquire(r) && EffectOf(close) == Release(r)
    requires Nested(Effects(body))
    ensures var fx := Effects([open] + body + [close]);
      Nested(fx) && Acquires(fx) == [r] + Acquires(Effects(body))
  {
    EffectsOne(open);
    EffectsOne(close);
    EffectsAppend([open], body);
    EffectsAppend([open] + body, [close]);
    NestedWrap(r, Effects(body));
  }

  /** A call that neither acquires nor releases anything, followed by calls
      that nest, nest. */
  lemma Prefix(e: Event, body: seq<Event>)
    requires EffectOf(e) == Neutral && Nested(Effects(body))
    ensures var fx := Effects([e] + body);
      Nested(fx) && Acquires(fx) == Acquires(Effects(body))
  {
    EffectsOne(e);
    EffectsAppend([e], body);
    NestedNeutral();
    NestedAppend([Neutral], Effects(body));
  }

  /** Nothing nests. */
  lemma NestedEmpty()
    ensures Nested(Effects([])) && Acquires(Effects([])) == []
  {
  }
}
