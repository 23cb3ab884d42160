/** The TCP option walk that lowers the MSS of a SYN in place (section 3.7.1 of RFC 9293). */
module MssClamp {
  import opened Bytes

  /** Offset of the first four-byte MSS option the walk reaches. */
  function FindMss(raw: bytes, offset: nat, limit: nat): (r: Option<nat>)
    requires limit <= |raw|
    ensures r.Some? ==> offset <= r.value && r.value + 4 <= limit && raw[r.value] == 2 && raw[r.value + 1] == 4
    decreases limit - offset
  {
    if offset >= limit || raw[offset] == 0 then None
    else if raw[offset] == 1 then FindMss(raw, offset + 1, limit)
    else if offset + 1 >= limit || raw[offset + 1] < 2 || offset + raw[offset + 1] as int > limit then None
    else if raw[offset] == 2 && raw[offset + 1] == 4 then Some(offset)
    else FindMss(raw, offset + raw[offset + 1] as int, limit)
  }

  function Limit(headerLen: int, length: nat): nat {
    if headerLen < 0 then 0 else Min(headerLen, length)
  }

  function MssAt(raw: bytes, o: nat): nat
    requires o + 4 <= |raw|
  {
    FromBe(raw[o + 2..o + 4])
  }

  function SetMss(raw: bytes, o: nat, mss: u16): (r: bytes)
    requires o + 4 <= |raw|
    ensures |r| == |raw|
  {
    raw[o + 2 := mss / 256][o + 3 := mss % 256]
  }

  function Clamped(raw: bytes, headerLen: int, mss: u16): (r: bytes)
    ensures |r| == |raw|
  {
    match FindMss(raw, 20, Limit(headerLen, |raw|))
    case None => raw
    case Some(o) => if MssAt(raw, o) > mss then SetMss(raw, o, mss) else raw
  }

  /** `_clamp_tcp_mss` on the packet's own buffer. */
  method ClampTcpMss(raw: array<byte>, headerLen: int, mss: u16) returns (changed: bool)
    modifies raw
    ensures raw[..] == Clamped(old(raw[..]), headerLen, mss)
    ensures changed <==> raw[..] != old(raw[..])
  {
    var limit := Limit(headerLen, raw.Length);
    ghost var before := raw[..];
    var offset := 20;
    while offset < limit
      invariant 0 <= offset
      invariant raw[..] == before
      invariant FindMss(before, 20, limit) == FindMss(before, offset, limit)
      decreases limit - offset
    {
      var kind := raw[offset];
      if kind == 0 {
        break;
      }
      if kind == 1 {
        offset := offset + 1;
        continue;
      }
      if offset + 1 >= limit {
        break;
      }
      var length := raw[offset + 1] as int;
      if length < 2 || offset + length > limit {
        break;
      }
      if kind == 2 && length == 4 {
        assert raw[offset + 2..offset + 4] == before[offset + 2..offset + 4];
        var current := FromBe(raw[offset + 2..offset + 4]);
        if current > mss {
          SetMssReads(before, offset, mss);
          raw[offset + 2], raw[offset + 3] := mss / 256, mss % 256;
          assert raw[..] == SetMss(before, offset, mss);
          return true;
        }
        return false;
      }
      offset := offset + length;
    }
    return false;
  }

  lemma SetMssReads(raw: bytes, o: nat, mss: u16)
    requires o + 4 <= |raw|
    ensures MssAt(SetMss(raw, o, mss), o) == mss
    ensures MssAt(raw, o) != mss ==> SetMss(raw, o, mss) != raw
  {
    var r := SetMss(raw, o, mss);
    assert r[o + 2..o + 4] == [mss / 256, mss % 256];
    FromBe2(r[o + 2..o + 4]);
  }

  /** The kind/length skeleton the walk sees, MSS options included. */
  function Skeleton(raw: bytes, offset: nat, limit: nat): seq<(nat, byte, nat)>
    requires limit <= |raw|
    decreases limit - offset
  {
    if offset >= limit || raw[offset] == 0 then []
    else if raw[offset] == 1 then [(offset, 1, 1)] + Skeleton(raw, offset + 1, limit)
    else if offset + 1 >= limit || raw[offset + 1] < 2 || offset + raw[offset + 1] as int > limit then
      [(offset, raw[offset], 0)]
    else [(offset, raw[offset], raw[offset + 1])] + Skeleton(raw, offset + raw[offset + 1] as int, limit)
  }

  lemma {:induction false} SkeletonAfter(raw: bytes, o: nat, mss: u16, offset: nat, limit: nat)
    requires o + 4 <= limit <= |raw| && offset >= o + 4
    ensures Skeleton(SetMss(raw, o, mss), offset, limit) == Skeleton(raw, offset, limit)
    decreases limit - offset
  {
    if offset < limit && raw[offset] != 0 {
      if raw[offset] == 1 {
        SkeletonAfter(raw, o, mss, offset + 1, limit);
      } else if offset + 1 < limit && raw[offset + 1] >= 2 && offset + raw[offset + 1] as int <= limit {
        SkeletonAfter(raw, o, mss, offset + raw[offset + 1] as int, limit);
      }
    }
  }

  lemma {:induction false} SkeletonKept(raw: bytes, o: nat, mss: u16, offset: nat, limit: nat)
    requires limit <= |raw| && FindMss(raw, offset, limit) == Some(o)
    ensures FindMss(SetMss(raw, o, mss), offset, limit) == Some(o)
    ensures Skeleton(SetMss(raw, o, mss), offset, limit) == Skeleton(raw, offset, limit)
    decreases limit - offset
  {
    if raw[offset] == 1 {
      SkeletonKept(raw, o, mss, offset + 1, limit);
    } else if offset == o {
      SkeletonAfter(raw, o, mss, o + 4, limit);
    } else {
      SkeletonKept(raw, o, mss, offset + raw[offset + 1] as int, limit);
    }
  }

  /** Main result: the clamp touches at most the two value bytes of the first MSS option, leaves there
      the smaller of the old value and the bound, keeps the option skeleton, and is idempotent. */
  lemma ClampMeaning(raw: bytes, headerLen: int, mss: u16)
    ensures var limit := Limit(headerLen, |raw|);
            var out := Clamped(raw, headerLen, mss);
            && Skeleton(out, 20, limit) == Skeleton(raw, 20, limit)
            && FindMss(out, 20, limit) == FindMss(raw, 20, limit)
            && Clamped(out, headerLen, mss) == out
            && (match FindMss(raw, 20, limit)
                case None => out == raw
                case Some(o) =>
                  && MssAt(out, o) == Min(MssAt(raw, o), mss)
                  && forall k :: 0 <= k < |raw| && k != o + 2 && k != o + 3 ==> out[k] == raw[k])
  {
    var limit := Limit(headerLen, |raw|);
    match FindMss(raw, 20, limit) {
      case None =>
      case Some(o) =>
        SkeletonKept(raw, o, mss, 20, limit);
        SetMssReads(raw, o, mss);
    }
  }
}
