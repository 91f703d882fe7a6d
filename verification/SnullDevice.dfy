/** The packet lists of snull on the heap: two chains through the same `next` field, pushed and popped in place. */
module SnullDevice {
  import opened Basics

  class Packet {
    const dev: NetDevice  // where it is to be released
    var next: Packet?

    constructor (dev: NetDevice)
      ensures this.dev == dev && next == null
    {
      this.dev := dev;
      next := null;
    }
  }

  /** `list` is the chain that starts at `head`. */
  ghost predicate Chain(head: Packet?, list: seq<Packet>)
    reads list
  {
    if list == [] then head == null
    else head == list[0] && Chain(list[0].next, list[1..])
  }

  ghost predicate Distinct(list: seq<Packet>) {
    forall i, j :: 0 <= i < j < |list| ==> list[i] != list[j]
  }

  ghost predicate Apart(a: seq<Packet>, b: seq<Packet>) {
    forall p :: p in a ==> p !in b
  }

  /** The pool after the packets of `taken` have been released one after the other. */
  ghost function Released(taken: seq<Packet>, pool: seq<Packet>): seq<Packet> {
    if taken == [] then pool else [taken[|taken| - 1]] + Released(taken[..|taken| - 1], pool)
  }

  lemma ReleasedMore(taken: seq<Packet>, p: Packet, pool: seq<Packet>)
    ensures Released(taken + [p], pool) == [p] + Released(taken, pool)
  {
    assert (taken + [p])[..|taken|] == taken;
  }

  lemma {:induction false} ReleasedConserves(taken: seq<Packet>, pool: seq<Packet>)
    ensures multiset(Released(taken, pool)) == multiset(taken) + multiset(pool)
    decreases |taken|
  {
    if taken != [] {
      var rest, last := taken[..|taken| - 1], taken[|taken| - 1];
      ReleasedConserves(rest, pool);
      assert taken == rest + [last];
      assert multiset([last] + Released(rest, pool)) == multiset{last} + multiset(Released(rest, pool));
    }
  }

  class NetDevice {
    var ppool: Packet?
    var rxQueue: Packet?
    var stopped: bool
    var rxIntEnabled: bool
    var pollScheduled: bool
    var rxPackets: nat
    var rxDropped: nat
    ghost var pool: seq<Packet>
    ghost var queue: seq<Packet>

    ghost predicate Valid()
      reads this, pool, queue
    {
      Chain(ppool, pool) && Chain(rxQueue, queue) && Distinct(pool) && Distinct(queue) && Apart(pool, queue)
    }

    constructor ()
      ensures Valid() && pool == [] && queue == [] && !stopped && rxIntEnabled && !pollScheduled
      ensures rxPackets == 0 == rxDropped
    {
      ppool, rxQueue, stopped, rxIntEnabled, pollScheduled := null, null, false, true, false;
      rxPackets, rxDropped := 0, 0;
      pool, queue := [], [];
    }

    /** snull_setup_pool: as many packets as kmalloc grants before it first refuses. */
    method SetupPool(poolSize: nat, grants: seq<bool>)
      requires Valid() && queue == [] && |grants| == poolSize
      modifies this`ppool, this`pool
      ensures Valid() && |pool| <= poolSize
      ensures forall i :: 0 <= i < |pool| ==> grants[i] && fresh(pool[i]) && pool[i].dev == this
      ensures |pool| < poolSize ==> !grants[|pool|]
    {
      ppool, pool := null, [];
      var i := 0;
      while i < poolSize
        invariant 0 <= i <= poolSize && |pool| == i && Valid() && queue == []
        invariant forall k :: 0 <= k < i ==> grants[k] && fresh(pool[k]) && pool[k].dev == this
      {
        if !grants[i] {
          return;
        }
        var pkt := new Packet(this);
        pkt.next := ppool;
        ppool := pkt;
        pool := [pkt] + pool;
        i := i + 1;
      }
    }

    /** snull_get_tx_buffer. */
    method GetTxBuffer() returns (pkt: Packet)
      requires Valid() && pool != []
      modifies this`ppool, this`pool, this`stopped
      ensures Valid() && [pkt] + pool == old(pool)
      ensures stopped == (old(stopped) || pool == [])
    {
      pkt := ppool;
      ppool := pkt.next;
      pool := pool[1..];
      if ppool == null {
        stopped := true;
      }
    }

    /** snull_release_buffer, undisturbed: wakes the queue exactly when the packet ends an empty pool. */
    method ReleaseBuffer(pkt: Packet)
      requires Valid() && pkt !in pool && pkt !in queue
      modifies this`ppool, this`pool, this`stopped, pkt
      ensures Valid() && pool == [pkt] + old(pool)
      ensures stopped == (old(stopped) && old(pool) != [])
    {
      pkt.next := ppool;
      ppool := pkt;
      pool := [pkt] + pool;
      if stopped && pkt.next == null {
        stopped := false;
      }
    }

    /** snull_enqueue_buf: the newest packet comes first. */
    method EnqueueBuf(pkt: Packet)
      requires Valid() && pkt !in pool && pkt !in queue
      modifies this`rxQueue, this`queue, pkt
      ensures Valid() && queue == [pkt] + old(queue)
    {
      pkt.next := rxQueue;
      rxQueue := pkt;
      queue := [pkt] + queue;
    }

    /** snull_dequeue_buf. */
    method DequeueBuf() returns (pkt: Packet?)
      requires Valid()
      modifies this`rxQueue, this`queue
      ensures Valid()
      ensures old(queue) == [] ==> pkt == null && queue == []
      ensures old(queue) != [] ==> pkt != null && [pkt] + queue == old(queue)
    {
      pkt := rxQueue;
      if pkt != null {
        rxQueue := pkt.next;
        queue := queue[1..];
      }
    }

    /** The receive queue holds packets of `twin` and nothing else, and no list shares a packet with another. */
    ghost predicate Receiving(twin: NetDevice)
      reads this, pool, queue, twin, twin.pool, twin.queue
    {
      && Valid() && twin.Valid() && twin != this
      && (forall p :: p in queue ==> p.dev == twin)
      && Apart(queue, twin.pool) && Apart(queue, twin.queue) && Apart(pool, twin.pool) && Apart(pool, twin.queue)
    }

    /** One round of the loop in snull_poll: the packet is delivered or dropped, and goes home either way. */
    method PollOne(twin: NetDevice, granted: bool)
      requires Receiving(twin) && queue != []
      modifies this`rxQueue, this`queue, this`rxPackets, this`rxDropped, twin`ppool, twin`pool, twin`stopped, queue[0]
      ensures Receiving(twin) && (rxQueue == null <==> queue == [])
      ensures queue == old(queue)[1..] && twin.pool == [old(queue)[0]] + old(twin.pool)
      ensures rxPackets == old(rxPackets) + (if granted then 1 else 0)
      ensures rxDropped == old(rxDropped) + (if granted then 0 else 1)
    {
      var pkt := DequeueBuf();
      assert old(queue) == [pkt] + queue;
      assert pkt in old(queue);
      if granted {
        rxPackets := rxPackets + 1;
      } else {
        rxDropped := rxDropped + 1;
      }
      pkt.dev.ReleaseBuffer(pkt);
    }

    /** netif_rx_complete, and interrupts enabled again. */
    method Complete(ghost twin: NetDevice)
      requires Receiving(twin)
      modifies this`pollScheduled, this`rxIntEnabled
      ensures Receiving(twin) && !pollScheduled && rxIntEnabled
    {
      pollScheduled := false;
      rxIntEnabled := true;
    }

    /** snull_poll; `grants` are the answers of dev_alloc_skb.  It ends either with the queue empty, the poll
        completed and interrupts enabled, or with the quota used up; either way it shrinks the queue. */
    method Poll(twin: NetDevice, quota: nat, grants: seq<bool>) returns (more: bool, npackets: nat)
      requires Receiving(twin) && |grants| == |queue|
      modifies this, twin`ppool, twin`pool, twin`stopped, queue
      ensures Receiving(twin) && pool == old(pool) && twin.queue == old(twin.queue)
      ensures exists k :: 0 <= k <= |old(queue)| && queue == old(queue)[k..]
                          && twin.pool == Released(old(queue)[..k], old(twin.pool))
                          && rxPackets + rxDropped == old(rxPackets) + old(rxDropped) + k
      ensures rxPackets == old(rxPackets) + npackets && npackets <= quota
      ensures more <==> queue != []
      ensures more ==> npackets == quota && rxIntEnabled == old(rxIntEnabled) && pollScheduled == old(pollScheduled)
      ensures !more ==> rxIntEnabled && !pollScheduled
      ensures quota > 0 && old(queue) != [] ==> |queue| < |old(queue)|
    {
      npackets := 0;
      var k := 0;
      ghost var was := queue;
      assert rxQueue == null <==> queue == [];
      assert Released(was[..0], twin.pool) == twin.pool;
      hide NetDevice.Receiving, Released;
      while npackets < quota && rxQueue != null
        invariant Receiving(twin) && (rxQueue == null <==> queue == [])
        invariant pool == old(pool) && twin.queue == old(twin.queue)
        invariant k <= |was| && queue == was[k..]
        invariant twin.pool == Released(was[..k], old(twin.pool))
        invariant npackets <= k && npackets <= quota
        invariant rxPackets == old(rxPackets) + npackets && rxPackets + rxDropped == old(rxPackets) + old(rxDropped) + k
        invariant rxIntEnabled == old(rxIntEnabled) && pollScheduled == old(pollScheduled)
        decreases |queue|
      {
        assert was[..k + 1] == was[..k] + [was[k]] && queue[0] == was[k];
        ReleasedMore(was[..k], was[k], old(twin.pool));
        PollOne(twin, grants[k]);
        if grants[k] {
          npackets := npackets + 1;
        }
        k := k + 1;
      }
      more := rxQueue != null;
      if !more {
        Complete(twin);
      }
    }
  }
}
