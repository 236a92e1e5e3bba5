/** The byte ring that pipes and stream sockets share: `len` bytes from `head`
    on, wrapping at the end of the buffer. */
module Rings {

  type Byte = bv8

  function Min(a: nat, b: nat): nat { if a < b then a else b }

  lemma WrapOnce(x: nat, cap: nat)
    requires 0 < cap && x < 2 * cap
    ensures x % cap == if x < cap then x else x - cap
  {
    if x >= cap {
      var q, r := x / cap, x % cap;
      assert x == q * cap + r;
      assert q >= 2 ==> q * cap >= 2 * cap;
      assert q != 0;
    }
  }

  class ByteRing {
    const buf: array<Byte>
    var head: nat
    var len: nat
    ghost var data: seq<Byte>

    function Slot(i: nat): nat
      requires head < buf.Length
      reads this
    {
      (head + i) % buf.Length
    }

    ghost predicate Valid()
      reads this, buf
    {
      && head < buf.Length && len == |data| <= buf.Length
      && forall i :: 0 <= i < len ==> data[i] == buf[Slot(i)]
    }

    constructor (capacity: nat)
      requires capacity > 0
      ensures Valid() && fresh(buf) && data == [] && buf.Length == capacity
    {
      buf := new Byte[capacity](_ => 0);
      head, len := 0, 0;
      data := [];
    }

    method CopyOut(k: nat) returns (dst: seq<Byte>)
      requires Valid() && k <= len
      ensures dst == data[..k]
    {
      dst := [];
      for i := 0 to k
        invariant dst == data[..i]
      {
        dst := dst + [buf[Slot(i)]];
      }
    }

    /** Take `k` bytes out at the front. */
    method Drop(k: nat)
      requires Valid() && k <= len
      modifies this`head, this`len, this`data
      ensures Valid() && data == old(data)[k..]
    {
      ghost var h, d := head, data;
      WrapOnce(head + k, buf.Length);
      head := (head + k) % buf.Length;
      len := len - k;
      data := data[k..];
      forall i | 0 <= i < len ensures data[i] == buf[Slot(i)] {
        assert data[i] == d[k + i];
        WrapOnce(head + i, buf.Length);
        WrapOnce(h + (k + i), buf.Length);
      }
    }

    /** Put bytes in at the back until all of `src` is in or the ring is full. */
    method CopyIn(src: seq<Byte>, done: nat) returns (now: nat)
      requires Valid() && done <= |src|
      modifies this`len, this`data, buf
      ensures Valid() && now == done + Min(|src| - done, buf.Length - |old(data)|)
      ensures data == old(data) + src[done..now]
    {
      hide Valid;
      Bounds();
      now := done;
      assert src[done..now] == [] && old(data) + [] == old(data);
      while now < |src| && len < buf.Length
        invariant Valid() && done <= now <= |src| && len == |data| <= buf.Length
        invariant now - done + |old(data)| == len && data == old(data) + src[done..now]
      {
        assert src[done..now + 1] == src[done..now] + [src[now]];
        Append(src[now]);
        Bounds();
        now := now + 1;
      }
    }

    /** What is in the ring fits it. */
    lemma Bounds()
      requires Valid()
      ensures len == |data| <= buf.Length
    {
    }

    method Append(b: Byte)
      requires Valid() && len < buf.Length
      modifies this`len, this`data, buf
      ensures Valid() && data == old(data) + [b]
    {
      ghost var at := Slot(len);
      WrapOnce(head + len, buf.Length);
      buf[(head + len) % buf.Length] := b;
      data := data + [b];
      len := len + 1;
      forall i | 0 <= i < len ensures data[i] == buf[Slot(i)] {
        WrapOnce(head + i, buf.Length);
      }
    }
  }
}
