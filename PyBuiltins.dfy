/**
 * The few Python built-in behaviours the device adapter relies on, written out
 * so that their edge cases (negative list indices, clamped slices, a slice
 * assignment that grows a bytearray, integer conversions that overflow) are
 * modelled exactly rather than assumed away.
 */
module PyBuiltins {

  /** One byte of a `bytes`/`bytearray` value. */
  type byte = x: int | 0 <= x < 256

  datatype Option<+T> = None | Some(value: T)

  /** The exceptions the adapter can raise. */
  datatype PyError = IndexError | KeyError | OverflowError

  /** A Python call either returns a value or raises an exception. */
  datatype Result<+T> = Ok(value: T) | Raised(error: PyError)

  function Min(a: int, b: int): int { if a <= b then a else b }

  function Max(a: int, b: int): int { if a <= b then b else a }

  /** `min(max(x, lo), hi)`: the clamp idiom used by the adapter. */
  function Clamp(x: int, lo: int, hi: int): (r: int)
    requires lo <= hi
    ensures lo <= r <= hi
    ensures lo <= x <= hi ==> r == x
    ensures x < lo ==> r == lo
    ensures hi < x ==> r == hi
  {
    Min(Max(x, lo), hi)
  }

  /** `bytearray(n)`: n zero bytes. */
  function Zeros(n: nat): (r: seq<byte>)
    ensures |r| == n
    ensures forall i :: 0 <= i < n ==> r[i] == 0
  {
    seq(n, _ => 0)
  }

  /** `s[i]` on a Python list: negative indices count from the end. */
  function ListIndex<T>(s: seq<T>, i: int): (r: Result<T>)
    ensures r.Ok? <==> -|s| <= i < |s|
    ensures !r.Ok? ==> r == Raised(IndexError)
    ensures 0 <= i < |s| ==> r == Ok(s[i])
    ensures -|s| <= i < 0 ==> r == Ok(s[|s| + i])
  {
    if 0 <= i < |s| then Ok(s[i])
    else if -|s| <= i < 0 then Ok(s[|s| + i])
    else Raised(IndexError)
  }

  /** `s[i:j]` with non-negative bounds: both bounds are clipped to the length. */
  function Slice<T>(s: seq<T>, i: nat, j: nat): (r: seq<T>)
    ensures |r| == Max(0, Min(j, |s|) - Min(i, |s|))
    ensures forall k :: 0 <= k < |r| ==> r[k] == s[i + k]
  {
    var lo := Min(i, |s|);
    var hi := Min(j, |s|);
    if hi <= lo then [] else s[lo..hi]
  }

  /**
   * `buf[i:j] = v` with non-negative bounds. The start and the stop are clipped
   * to the length and a stop below the start is raised to the start, so the
   * assignment replaces `hi - lo` elements by all of `v`: the sequence grows
   * or shrinks when `|v|` differs from the width of the slice.
   */
  function SliceAssign<T>(buf: seq<T>, i: nat, j: nat, v: seq<T>): (r: seq<T>)
    ensures var lo := Min(i, |buf|); var hi := Max(lo, Min(j, |buf|));
            && |r| == |buf| - (hi - lo) + |v|
            && r[..lo] == buf[..lo]
            && r[lo..lo + |v|] == v
            && r[lo + |v|..] == buf[hi..]
  {
    var lo := Min(i, |buf|);
    var hi := Max(lo, Min(j, |buf|));
    buf[..lo] + v + buf[hi..]
  }

  /** `s.startswith(prefix)`. */
  predicate StartsWith<T(==)>(s: seq<T>, prefix: seq<T>)
  {
    |prefix| <= |s| && s[..|prefix|] == prefix
  }

  /** 256 to the power k. */
  function Pow256(k: nat): (r: nat)
    ensures r >= 1
  {
    if k == 0 then 1 else 256 * Pow256(k - 1)
  }

  /** `int.from_bytes(s, 'big', signed=False)`. */
  function FromBytesBig(s: seq<byte>): (r: nat)
    ensures r < Pow256(|s|)
  {
    if |s| == 0 then 0 else FromBytesBig(s[..|s| - 1]) * 256 + s[|s| - 1]
  }

  /**
   * `int.to_bytes(n, length, 'big', signed=False)`: raises OverflowError when
   * n does not fit, never wraps around; otherwise it is undone by FromBytesBig.
   */
  function ToBytesBig(n: nat, length: nat): (r: Result<seq<byte>>)
    ensures r.Ok? <==> n < Pow256(length)
    ensures !r.Ok? ==> r == Raised(OverflowError)
    ensures r.Ok? ==> |r.value| == length && FromBytesBig(r.value) == n
    decreases length
  {
    if length == 0 then
      if n == 0 then Ok([]) else Raised(OverflowError)
    else
      match ToBytesBig(n / 256, length - 1)
      case Raised(e) => Raised(e)
      case Ok(high) => Ok(high + [n % 256])
  }

  /** The two-byte case the adapter uses: high byte first, then low byte. */
  lemma ToBytesBigTwo(n: nat)
    ensures n < 65536 ==> ToBytesBig(n, 2) == Ok([n / 256, n % 256])
    ensures 65536 <= n ==> ToBytesBig(n, 2) == Raised(OverflowError)
  {
    assert Pow256(2) == 65536;
    if n < 65536 {
      assert ToBytesBig(n / 256 / 256, 0) == Ok([]);
      assert n / 256 % 256 == n / 256;
      assert ToBytesBig(n / 256, 1) == Ok([] + [n / 256]);
      assert [] + [n / 256] + [n % 256] == [n / 256, n % 256];
    }
  }

  /** The one- and zero-byte cases of the decoder, used for a one-byte slice. */
  lemma FromBytesBigShort(s: seq<byte>)
    requires |s| <= 1
    ensures FromBytesBig(s) == if |s| == 0 then 0 else s[0]
  {
    if |s| == 1 {
      assert s[..0] == [];
    }
  }
}
