/** The gateway's queue of client frames.  Frames that arrive before the upstream connection
    is ready wait in the queue; opening flushes them; afterwards frames go straight through.
    Each method is one uninterrupted handler step, so any interleaving of client frames,
    opening and closing is a sequence of calls. */
module GatewayQueue {
  datatype Frame = Frame(id: nat, size: nat)

  datatype Upstream = Absent | Connecting | Open | Gone

  datatype Limits = Limits(maxPendingMessages: nat, maxPendingBytes: nat, maxBufferedBytes: nat)

  function TotalSize(frames: seq<Frame>): nat {
    if frames == [] then 0 else TotalSize(frames[..|frames| - 1]) + frames[|frames| - 1].size
  }

  lemma {:induction false} TotalSizeSplit(a: seq<Frame>, b: seq<Frame>)
    ensures TotalSize(a + b) == TotalSize(a) + TotalSize(b)
  {
    if b == [] {
      assert a + b == a;
    } else {
      assert (a + b)[..|a + b| - 1] == a + b[..|b| - 1];
      TotalSizeSplit(a, b[..|b| - 1]);
    }
  }

  class GatewayProxy {
    const limits: Limits
    var upstream: Upstream
    var ready: bool
    var closed: bool
    var pending: seq<Frame>
    var pendingBytes: nat
    /** What was handed to the upstream socket. */
    var sent: seq<Frame>
    /** The client frames that were sent or queued, in order of arrival. */
    var accepted: seq<Frame>

    /** While the connection lives nothing accepted is lost: it was sent or it waits, in
        order.  Closing drops the queue, so what was sent stays a prefix. */
    predicate Valid()
      reads this
    {
      && pendingBytes == TotalSize(pending) && pendingBytes <= limits.maxPendingBytes
      && |pending| <= limits.maxPendingMessages
      && (closed ==> pending == [])
      && (!closed ==> sent + pending == accepted)
      && (ready && !closed ==> pending == [] && upstream != Absent && upstream != Connecting)
      && sent <= accepted
    }

    constructor (limits: Limits)
      ensures Valid() && !closed && !ready && upstream == Absent && sent == [] && accepted == []
      ensures this.limits == limits
    {
      this.limits := limits;
      upstream, ready, closed := Absent, false, false;
      pending, pendingBytes, sent, accepted := [], 0, [], [];
    }

    method Cleanup()
      requires Valid()
      modifies this
      ensures Valid() && closed && sent == old(sent) && accepted == old(accepted) && ready == old(ready)
      ensures upstream ==
        if !old(closed) && (old(upstream) == Open || old(upstream) == Connecting) then Gone else old(upstream)
    {
      if closed { return; }
      closed := true;
      pending := [];
      pendingBytes := 0;
      if upstream == Open || upstream == Connecting {
        upstream := Gone;
      }
    }

    /** A client frame; `admitted` is the tracker's verdict, `buffered` what the upstream
        socket still holds. */
    method ClientFrame(frame: Frame, admitted: bool, buffered: nat)
      requires Valid()
      modifies this
      ensures Valid()
      ensures old(closed) ==> closed && sent == old(sent) && accepted == old(accepted)
      ensures ready == old(ready) && (!closed ==> upstream == old(upstream))
      ensures !closed ==> accepted == old(accepted) + [frame]
      ensures !closed ==> pending == if old(ready) then old(pending) else old(pending) + [frame]
      ensures closed ==> accepted == old(accepted)
      ensures sent == if !closed && old(ready) then old(sent) + [frame] else old(sent)
      ensures !old(closed) ==>
        (closed <==> !admitted || Refuses(old(upstream), old(ready), old(pending), frame, buffered))
    {
      if closed { return; }
      if !admitted {
        Cleanup();
        return;
      }
      if upstream == Open && ready {
        if buffered + frame.size > limits.maxBufferedBytes {
          Cleanup();
        } else {
          Send(frame);
        }
      } else if upstream != Gone {
        if |pending| >= limits.maxPendingMessages || pendingBytes + frame.size > limits.maxPendingBytes {
          Cleanup();
        } else {
          Enqueue(frame);
        }
      } else {
        Cleanup();
      }
    }

    method Enqueue(frame: Frame)
      requires Valid() && !closed && !ready
      requires |pending| < limits.maxPendingMessages && pendingBytes + frame.size <= limits.maxPendingBytes
      modifies this`pending, this`pendingBytes, this`accepted
      ensures Valid() && pending == old(pending) + [frame] && accepted == old(accepted) + [frame]
    {
      TotalSizeSplit(pending, [frame]);
      assert TotalSize([frame]) == frame.size;
      assert sent + (pending + [frame]) == (sent + pending) + [frame];
      pending := pending + [frame];
      pendingBytes := pendingBytes + frame.size;
      accepted := accepted + [frame];
    }

    method Send(frame: Frame)
      requires Valid() && !closed && ready
      modifies this`sent, this`accepted
      ensures Valid() && sent == old(sent) + [frame] && accepted == old(accepted) + [frame]
    {
      sent, accepted := sent + [frame], accepted + [frame];
    }

    /** A frame that would exceed a limit, or that no upstream is left for. */
    predicate Refuses(upstream: Upstream, ready: bool, pending: seq<Frame>, frame: Frame, buffered: nat)
    {
      if upstream == Open && ready then buffered + frame.size > limits.maxBufferedBytes
      else upstream == Gone || |pending| >= limits.maxPendingMessages
           || TotalSize(pending) + frame.size > limits.maxPendingBytes
    }

    method Connect()
      requires Valid() && upstream == Absent
      modifies this`upstream
      ensures Valid() && upstream == if closed then Absent else Connecting
    {
      if closed { return; }
      upstream := Connecting;
    }

    /** The upstream socket opened; the lease is validated again before the queue is
        flushed. */
    method Opened()
      requires Valid() && upstream == Connecting && !ready
      modifies this`upstream
      ensures Valid() && upstream == Open
    {
      upstream := Open;
    }

    /** The upstream socket begins to close or breaks; the proxy hears of it later, through
        `UpstreamClosed`, and until then may still hand frames to the socket. */
    method PeerBeginsClosing()
      requires Valid() && (upstream == Connecting || upstream == Open)
      modifies this`upstream
      ensures Valid() && upstream == Gone
    {
      upstream := Gone;
    }

    /** The flush, some time after the socket opened; `buffered[i]` is what the socket holds
        before the `i`th queued frame. */
    method Flush(valid: bool, buffered: seq<nat>)
      requires Valid() && !ready && |buffered| == |pending| && (!closed ==> upstream == Open || upstream == Gone)
      modifies this
      ensures Valid() && accepted == old(accepted)
      ensures old(closed) || !valid ==> closed && sent == old(sent)
      ensures !closed ==> ready && sent == old(sent) + old(pending) && pending == []
      ensures !closed ==>
        forall i :: 0 <= i < |buffered| ==> buffered[i] + old(pending)[i].size <= limits.maxBufferedBytes
      ensures closed && !old(closed) && valid ==>
        exists i :: 0 <= i < |buffered| && buffered[i] + old(pending)[i].size > limits.maxBufferedBytes
                    && sent == old(sent) + old(pending)[..i]
                    && forall j :: 0 <= j < i ==> buffered[j] + old(pending)[j].size <= limits.maxBufferedBytes
      ensures upstream == if !old(closed) && closed then Gone else old(upstream)
    {
      if closed { return; }
      if !valid {
        Cleanup();
        return;
      }
      var frames := pending;
      pending := [];
      var i := 0;
      while i < |frames|
        invariant 0 <= i <= |frames| && !closed && pending == [] && upstream == old(upstream) && !ready
        invariant accepted == old(accepted) && sent == old(sent) + frames[..i]
        invariant pendingBytes == TotalSize(frames[i..])
        invariant forall j :: 0 <= j < i ==> buffered[j] + frames[j].size <= limits.maxBufferedBytes
      {
        assert frames[i..] == [frames[i]] + frames[i + 1..];
        TotalSizeSplit([frames[i]], frames[i + 1..]);
        pendingBytes := pendingBytes - frames[i].size;
        if buffered[i] + frames[i].size > limits.maxBufferedBytes {
          closed, upstream, pendingBytes := true, Gone, 0;
          return;
        }
        sent := sent + [frames[i]];
        i := i + 1;
      }
      assert frames[..i] == frames && frames[i..] == [];
      ready := true;
    }

    method UpstreamClosed()
      requires Valid()
      modifies this
      ensures Valid() && closed && sent == old(sent) && accepted == old(accepted)
    {
      upstream := Gone;
      Cleanup();
    }
  }
}
