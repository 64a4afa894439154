/** Values shared by both loopback programs: C pointers that may be NULL,
    the errno codes the programs return, and the C `int` conversion. */
module Common {

  /** A C pointer or handle: NULL, or a non-NULL value identified by an address. */
  datatype Ptr = Null | Addr(addr: nat)

  datatype Option<+T> = None | Some(value: T)

  /** A value, or a negative errno-style code. */
  datatype Result<+T> = Ok(value: T) | Err(code: int)

  // Linux errno values (asm-generic/errno-base.h).
  const ENOMEM: int := 12
  const ENODEV: int := 19
  const EINVAL: int := 22

  const INT_MIN: int := -0x8000_0000
  const INT_MAX: int := 0x7fff_ffff

  /** Conversion of an integer (here a file's `st_size`, an `off_t`) to a 32-bit C `int`:
      the value modulo 2^32 in two's complement, as GCC defines the conversion. */
  function Int32(n: int): (r: int)
    ensures INT_MIN <= r <= INT_MAX
    ensures INT_MIN <= n <= INT_MAX ==> r == n
  {
    var m := n % 0x1_0000_0000;
    if m <= INT_MAX then m else m - 0x1_0000_0000
  }

  /** The conversion keeps the value modulo 2^32. */
  lemma Int32Wraps(n: int)
    ensures (n - Int32(n)) % 0x1_0000_0000 == 0
  {
  }

  // Regrouping a log with the calls appended to it.

  lemma Append<T>(a: seq<T>, b: seq<T>, c: seq<T>)
    ensures a + b + c == a + (b + c)
  {
  }

  lemma Regroup<T>(a: seq<T>, b: seq<T>, c: seq<T>, d: seq<T>)
    ensures a + b + c + d == a + (b + (c + d))
  {
  }

  lemma Surround<T>(a: seq<T>, open: seq<T>, body: seq<T>, close: seq<T>)
    ensures a + open + body + close == a + (open + body + close)
  {
  }
}
