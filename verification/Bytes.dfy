/** Byte strings as the Python source handles them: big-endian fields, clipped slices, joins. */
module Bytes {
  type byte = b: int | 0 <= b < 256
  type bytes = seq<byte>
  type pos = n: int | n > 0 witness 1
  type u16 = n: int | 0 <= n < 0x1_0000

  datatype Option<+T> = None | Some(value: T)

  /** What the TLS helpers raise, one constructor per raise site or exception family. */
  datatype Fault =
    | NotHandshakeRecord
    | TruncatedRecord
    | TrailingBytes
    | NotClientHello
    | TruncatedHello
    | OutOfRange
    | NoExtensions
    | BadExtensionsLength
    | BadExtensionHeader
    | BadExtensionBody
    | DoesNotFit

  datatype Result<+T> = Ok(value: T) | Err(fault: Fault) {
    predicate IsFailure() { Err? }
    function PropagateFailure<U>(): Result<U>
      requires Err?
    {
      Err(fault)
    }
    function Extract(): T
      requires Ok?
    {
      value
    }
  }

  /** What a loop has read so far, in front of what the rest gives or fails with. */
  ghost function Prepend<T>(done: seq<T>, rest: Result<seq<T>>): (r: Result<seq<T>>)
    ensures done == [] ==> r == rest
  {
    match rest
    case Ok(more) => assert [] + more == more; Ok(done + more)
    case Err(fault) => Err(fault)
  }

  lemma PrependStep<T>(done: seq<T>, one: T, rest: Result<seq<T>>)
    ensures Prepend(done, Prepend([one], rest)) == Prepend(done + [one], rest)
  {
    if rest.Ok? {
      assert done + ([one] + rest.value) == (done + [one]) + rest.value;
    }
  }

  function Min(a: int, b: int): int { if a <= b then a else b }

  function Max(a: int, b: int): int { if a <= b then b else a }

  /** `s[lo:hi]` for non-negative bounds: never fails, clips to the end. */
  function Slice<T>(s: seq<T>, lo: nat, hi: nat): (r: seq<T>)
    ensures |r| <= Max(0, hi - lo)
  {
    var l := Min(lo, |s|);
    s[l..Max(l, Min(hi, |s|))]
  }

  /** `int.from_bytes(s, "big")` for the field widths in use; slices may be clipped, so every length
      up to three bytes occurs. */
  function FromBe(s: bytes): nat
    requires |s| <= 3
  {
    if |s| == 0 then 0
    else if |s| == 1 then s[0]
    else if |s| == 2 then 256 * (s[0] as int) + s[1]
    else 0x1_0000 * (s[0] as int) + 256 * (s[1] as int) + s[2]
  }

  /** `struct.pack("!H", n)`. */
  function Pack16(n: u16): (s: bytes)
    ensures |s| == 2
  {
    [n / 256, n % 256]
  }

  /** `struct.pack("!I", n)[1:]`: the top byte is dropped. */
  function Pack24(n: nat): (s: bytes)
    ensures |s| == 3
  {
    [n / 0x1_0000 % 256, n / 256 % 256, n % 256]
  }

  lemma FromBe2(s: bytes)
    requires |s| == 2
    ensures FromBe(s) == 256 * (s[0] as int) + s[1] < 0x1_0000
  {
  }

  lemma FromBe3(s: bytes)
    requires |s| == 3
    ensures FromBe(s) == 0x1_0000 * (s[0] as int) + 256 * (s[1] as int) + s[2] < 0x100_0000
  {
  }

  lemma Pack16Reads(n: u16)
    ensures FromBe(Pack16(n)) == n
  {
    FromBe2(Pack16(n));
  }

  lemma Pack24Reads(n: nat)
    requires n < 0x100_0000
    ensures FromBe(Pack24(n)) == n
  {
    FromBe3(Pack24(n));
  }

  lemma DivideBack(upper: nat, low: byte)
    ensures (256 * upper + low) / 256 == upper && (256 * upper + low) % 256 == low
  {
  }

  lemma ReadsPack16(s: bytes)
    requires |s| == 2
    ensures FromBe(s) < 0x1_0000 && Pack16(FromBe(s)) == s
  {
    FromBe2(s);
  }

  lemma ReadsPack24(s: bytes)
    requires |s| == 3
    ensures FromBe(s) < 0x100_0000 && Pack24(FromBe(s)) == s
  {
    FromBe3(s);
    var n, upper := FromBe(s), 256 * (s[0] as int) + s[1];
    DivideBack(upper, s[2]);
    DivideBack(s[0], s[1]);
    assert n == 256 * upper + s[2];
    assert n / 0x1_0000 == n / 256 / 256;
  }

  lemma SubSlice<T>(s: seq<T>, a: nat, b: nat, i: nat, j: nat)
    requires a <= b <= |s| && i <= j <= b - a
    ensures s[a..b][i..j] == s[a + i..a + j]
  {
    forall k | 0 <= k < j - i
      ensures s[a..b][i..j][k] == s[a + i..a + j][k]
    {
    }
  }

  lemma SubTail<T>(s: seq<T>, a: nat, i: nat, j: nat)
    requires a <= |s| && i <= j <= |s| - a
    ensures s[a..][i..j] == s[a + i..a + j]
    ensures s[a..][j..] == s[a + j..]
  {
    SubSlice(s, a, |s|, i, j);
    SubSlice(s, a, |s|, j, |s| - a);
    assert s[a..] == s[a..|s|] && s[a + j..] == s[a + j..|s|];
  }

  /** `b"".join(parts)`. */
  function Join<T>(parts: seq<seq<T>>): seq<T> {
    if parts == [] then [] else parts[0] + Join(parts[1..])
  }

  lemma {:induction false} JoinAppend<T>(a: seq<seq<T>>, b: seq<seq<T>>)
    ensures Join(a + b) == Join(a) + Join(b)
  {
    if a == [] {
      assert a + b == b;
    } else {
      assert (a + b)[1..] == a[1..] + b;
      JoinAppend(a[1..], b);
    }
  }

  lemma JoinOne<T>(p: seq<T>)
    ensures Join([p]) == p
  {
    assert Join([p]) == p + Join([]);
  }

  lemma JoinSnoc<T>(a: seq<seq<T>>, p: seq<T>)
    ensures Join(a + [p]) == Join(a) + p
  {
    JoinAppend(a, [p]);
    JoinOne(p);
  }

  function Sum(s: seq<nat>): nat {
    if s == [] then 0 else s[0] + Sum(s[1..])
  }

  lemma {:induction false} SumAppend(a: seq<nat>, b: seq<nat>)
    ensures Sum(a + b) == Sum(a) + Sum(b)
  {
    if a == [] {
      assert a + b == b;
    } else {
      assert (a + b)[1..] == a[1..] + b;
      SumAppend(a[1..], b);
    }
  }

  function Zeros(n: nat): (z: bytes)
    ensures |z| == n
  {
    seq(n, _ => 0)
  }

  // ---- lists built one element at a time ----

  function FlatMap<A, B>(f: A -> seq<B>, xs: seq<A>): seq<B> {
    if xs == [] then [] else f(xs[0]) + FlatMap(f, xs[1..])
  }

  lemma {:induction false} FlatMapAppend<A, B>(f: A -> seq<B>, a: seq<A>, b: seq<A>)
    ensures FlatMap(f, a + b) == FlatMap(f, a) + FlatMap(f, b)
  {
    if a == [] {
      assert a + b == b;
    } else {
      assert (a + b)[1..] == a[1..] + b;
      FlatMapAppend(f, a[1..], b);
    }
  }

  lemma FlatMapOne<A, B>(f: A -> seq<B>, x: A)
    ensures FlatMap(f, [x]) == f(x)
  {
    assert FlatMap(f, [x]) == f(x) + FlatMap(f, []);
  }

  lemma {:induction false} FlatMapAt<A, B>(f: A -> seq<B>, xs: seq<A>, k: nat)
    requires k < |xs|
    ensures FlatMap(f, xs) == FlatMap(f, xs[..k]) + f(xs[k]) + FlatMap(f, xs[k + 1..])
  {
    if k > 0 {
      FlatMapAt(f, xs[1..], k - 1);
      assert xs[..k][1..] == xs[1..][..k - 1];
      assert xs[1..][k..] == xs[k + 1..];
    }
  }

  lemma FlatMapWithout<A, B>(f: A -> seq<B>, xs: seq<A>, k: nat)
    requires k < |xs|
    ensures multiset(FlatMap(f, xs)) == multiset(f(xs[k])) + multiset(FlatMap(f, xs[..k] + xs[k + 1..]))
  {
    FlatMapAt(f, xs, k);
    FlatMapAppend(f, xs[..k], xs[k + 1..]);
  }

  lemma SameWithout<T>(a: seq<T>, b: seq<T>, k: nat)
    requires a != [] && k < |b| && b[k] == a[0]
    requires multiset(a) == multiset(b)
    ensures multiset(a[1..]) == multiset(b[..k] + b[k + 1..])
  {
    assert a == [a[0]] + a[1..];
    assert multiset(a) - multiset{a[0]} == multiset(a[1..]);
    assert b == b[..k] + ([b[k]] + b[k + 1..]);
    assert multiset(b) == multiset(b[..k]) + (multiset{b[k]} + multiset(b[k + 1..]));
    assert multiset(b) - multiset{b[k]} == multiset(b[..k]) + multiset(b[k + 1..]);
  }

  /** Reordering the inputs reorders the output and does nothing else. */
  lemma {:induction false} FlatMapIgnoresOrder<A, B>(f: A -> seq<B>, a: seq<A>, b: seq<A>)
    requires multiset(a) == multiset(b)
    ensures multiset(FlatMap(f, a)) == multiset(FlatMap(f, b))
    decreases |a|
  {
    if a == [] {
      assert |multiset(b)| == 0;
    } else {
      assert a[0] in multiset(b);
      var k :| 0 <= k < |b| && b[k] == a[0];
      SameWithout(a, b, k);
      FlatMapWithout(f, a, 0);
      FlatMapWithout(f, b, k);
      assert a[..0] + a[1..] == a[1..];
      FlatMapIgnoresOrder(f, a[1..], b[..k] + b[k + 1..]);
    }
  }

  lemma {:induction false} FlatMapSingletons<A, B>(f: A -> seq<B>, xs: seq<A>, ys: seq<B>)
    requires |xs| == |ys|
    requires forall k :: 0 <= k < |xs| ==> f(xs[k]) == [ys[k]]
    ensures FlatMap(f, xs) == ys
  {
    if xs != [] {
      FlatMapSingletons(f, xs[1..], ys[1..]);
      assert [ys[0]] + ys[1..] == ys;
    }
  }
}
