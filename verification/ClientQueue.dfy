/** The broker's per-client queue as it is kept: encoded frames and a running byte count. */
module ClientQueues {
  import opened Bytes
  import opened Wire
  import opened Queueing

  datatype Received = Next(encoded: seq<byte>) | Closed | Wait

  class ClientQueue {
    var frames: seq<seq<byte>>
    var bytes: nat
    var closed: bool
    var exitQueued: bool
    var deadlineSet: bool

    /** The frames that are encoded in `frames`. */
    ghost var decoded: seq<Frame>

    ghost predicate Valid()
      reads this
    {
      && Encoded()
      && bytes == Size(decoded)
      && Ok(Meaning())
    }

    ghost function Meaning(): Queue
      reads this
    {
      Queue(decoded, closed, exitQueued)
    }

    constructor ()
      ensures Valid() && Meaning() == EMPTY && !deadlineSet
    {
      frames, bytes, decoded := [], 0, [];
      closed, exitQueued, deadlineSet := false, false, false;
    }

    method Send(encoded: seq<byte>, ghost f: Frame) returns (accepted: bool)
      requires Valid() && Sendable(f) && encoded == Encode(f)
      modifies this
      ensures Valid() && deadlineSet == old(deadlineSet)
      ensures accepted <==>
              !old(closed) &&
              if f.kind == EXIT then !old(exitQueued)
              else old(bytes) + Cost(old(decoded), f) <=
                   16_777_216 + if f.kind == PONG || f.kind == RESIZE_ACK then 65_536 else 0
      ensures accepted <==> Admits(old(Meaning()), f)
      ensures Meaning() == Queueing.Send(old(Meaning()), f)
    {
      SendKeepsOk(Meaning(), f);
      AdmittedIff(Meaning(), f);
      JoinSize(decoded, f);
      var n := |frames|;
      var tailIsOutput := n > 0 && frames[n - 1][5] == OUTPUT;
      var isOutput := encoded[5] == OUTPUT;
      var fullyMerged := isOutput && tailIsOutput &&
                         |encoded| - HEADER <= MAX_PAYLOAD_SIZE + HEADER - |frames[n - 1]|;
      var delta := |encoded| - if fullyMerged then HEADER else 0;
      var isExit := encoded[5] == EXIT;
      var control := encoded[5] == PONG || encoded[5] == RESIZE_ACK;
      var limit := CLIENT_QUEUE_BYTES + if control then CONTROL_SLACK else 0;
      if closed || (isExit && exitQueued) || (!isExit && bytes + delta > limit) {
        return false;
      }
      hide Ok, Tidy, Size, Join, Encode;
      exitQueued := exitQueued || isExit;
      Store(encoded, f);
      accepted := true;
    }

    ghost predicate Encoded()
      reads `frames, `decoded
    {
      |frames| == |decoded| && forall i :: 0 <= i < |frames| ==> frames[i] == Encode(decoded[i])
    }

    /** The second half of sending: fill the tail frame in place, patch its
        length, and queue whatever is left over. */
    method Store(encoded: seq<byte>, ghost f: Frame)
      requires Encoded() && encoded == Encode(f)
      requires frames != [] ==> |frames[|frames| - 1]| <= MAX_PAYLOAD_SIZE + HEADER
      modifies `frames, `bytes, `decoded
      ensures Encoded() && decoded == Join(old(decoded), f)
      ensures bytes == old(bytes) + |encoded| -
                       if |decoded| == |old(decoded)| then HEADER else 0
    {
      hide U32, Encode;
      var n := |frames|;
      bytes := bytes + |encoded|;
      var payload := encoded[HEADER..];
      assert payload == f.payload;
      if encoded[5] == OUTPUT && n > 0 && frames[n - 1][5] == OUTPUT {
        var count := Min(|payload|, MAX_PAYLOAD_SIZE + HEADER - |frames[n - 1]|);
        var tail := frames[n - 1] + payload[..count];
        tail := U32((|tail| - 4) % U32_SIZE) + tail[4..];
        Extended(decoded[n - 1], payload[..count]);
        frames := frames[..n - 1] + [tail];
        decoded := decoded[..n - 1] + [Frame(OUTPUT, decoded[n - 1].payload + payload[..count])];
        payload := payload[count..];
        if payload == [] {
          bytes := bytes - HEADER;
          return;
        }
      }
      if |payload| == |encoded| - HEADER {
        frames := frames + [encoded];
      } else {
        frames := frames + [Encode(Frame(OUTPUT, payload))];
      }
      decoded := decoded + [Frame(f.kind, payload)];
    }

    /** One look at the queue; the broker waits and looks again on `Wait`. */
    method Recv(now: bool) returns (r: Received)
      requires Valid()
      modifies this
      ensures Valid() && deadlineSet == old(deadlineSet)
      ensures var late := old(deadlineSet) && now;
              && Meaning() == AfterRecv(old(Meaning()), late)
              && var due := Due(old(Meaning()), late);
                 r == if due != [] then Next(Encode(due[0])) else if closed then Closed else Wait
    {
      RecvKeepsOk(Meaning(), deadlineSet && now);
      if deadlineSet && now {
        Retain();
      }
      if frames != [] {
        r := Next(frames[0]);
        bytes := bytes - |frames[0]|;
        frames, decoded := frames[1..], decoded[1..];
      } else {
        r := if closed then Closed else Wait;
      }
    }

    method Retain()
      requires Encoded()
      modifies `frames, `bytes, `decoded
      ensures Encoded()
      ensures decoded == OnlyExit(old(decoded)) && bytes == Size(decoded)
    {
      hide Encode, OnlyExit, Size;
      var kept: seq<seq<byte>>, sum := [], 0;
      ghost var keptDecoded: seq<Frame> := [];
      var n := |frames|;
      ghost var all := decoded;
      assert all[..0] == [];
      OnlyExitOfNothing();
      for i := 0 to n
        invariant frames == old(frames) && decoded == all
        invariant |kept| == |keptDecoded|
        invariant forall j :: 0 <= j < |kept| ==> kept[j] == Encode(keptDecoded[j])
        invariant keptDecoded == OnlyExit(all[..i])
        invariant sum == Size(keptDecoded)
      {
        OnlyExitSnoc(all[..i], all[i]);
        assert all[..i + 1] == all[..i] + [all[i]];
        if frames[i][5] == EXIT {
          SizeSnoc(keptDecoded, all[i]);
          kept, sum := kept + [frames[i]], sum + |frames[i]|;
          keptDecoded := keptDecoded + [all[i]];
        }
      }
      assert all[..n] == all;
      frames, bytes, decoded := kept, sum, keptDecoded;
    }

    method Close()
      requires Valid()
      modifies `closed
      ensures Valid() && Meaning() == old(Meaning()).(closed := true)
    {
      closed := true;
    }
  }

  /** Appending bytes to an encoded frame and rewriting its length field encodes the longer frame. */
  lemma Extended(f: Frame, more: seq<byte>)
    ensures var tail := Encode(f) + more;
            U32((|tail| - 4) % U32_SIZE) + tail[4..] == Encode(Frame(f.kind, f.payload + more))
  {
  }

  lemma OnlyExitOfNothing()
    ensures OnlyExit([]) == [] && Size([]) == 0
  {
  }

  lemma {:induction false} OnlyExitSnoc(fs: seq<Frame>, f: Frame)
    ensures OnlyExit(fs + [f]) == OnlyExit(fs) + if f.kind == EXIT then [f] else []
  {
    if fs == [] {
      assert [f][1..] == [] && fs + [f] == [f];
    } else {
      assert (fs + [f])[1..] == fs[1..] + [f] && (fs + [f])[0] == fs[0];
      OnlyExitSnoc(fs[1..], f);
      var head := if fs[0].kind == EXIT then [fs[0]] else [];
      var last := if f.kind == EXIT then [f] else [];
      assert head + (OnlyExit(fs[1..]) + last) == (head + OnlyExit(fs[1..])) + last;
    }
  }
}
