/**
 The critical sections that fan output out: loops over the client map, in
 whatever order it iterates, refine one broadcast step of the broker.
 */
module Fanout {
  import opened Bytes
  import opened Wire
  import opened Queueing
  import opened Ring
  import opened ClientQueues
  import opened Broker

  class BrokerState {
    var clients: map<nat, ClientQueue>
    const ring: RingBuffer
    var writerId: nat

    ghost predicate Valid()
      reads this, clients.Values, ring, ring.buf
    {
      && ring.Valid()
      && ring.capacity == RING_CAPACITY
      && (forall id :: id in clients ==> clients[id].Valid())
      && (forall a, b :: a in clients && b in clients && a != b ==> clients[a] != clients[b])
    }

    /** The objects stand for the shared part of a broker state. */
    ghost predicate Stands(s: State)
      reads this, clients.Values, ring
    {
      && s.registered == clients.Keys && clients.Keys <= s.sessions.Keys
      && (forall id :: id in clients ==> s.sessions[id].queue == clients[id].Meaning())
      && writerId == s.writerId
      && s.recent == LastN(RING_CAPACITY, ring.pushed)
    }

    constructor ()
      ensures Valid() && Stands(INITIAL) && fresh(ring) && fresh(ring.buf)
    {
      ring := new RingBuffer(RING_CAPACITY);
      clients, writerId := map[], 0;
    }

    /** Send to everybody, then evict whoever refused. */
    method Broadcast(encoded: seq<byte>, ghost f: Frame, ghost s: State)
      requires Valid() && Stands(s) && Sendable(f) && encoded == Encode(f)
      modifies this, clients.Values
      ensures Valid() && Stands(Broker.Broadcast(s, f))
      ensures forall id :: id in old(clients) && id !in clients ==> old(clients)[id].closed
    {
      hide Encode, Sendable, Ok, Admits, Queueing.Send, Broker.Broadcast, Refusing, LastN;
      var dead := SendToAll(encoded, f, s);
      RefusingIs(s, f, dead);
      Evict(dead);
      BroadcastIs(s, f);
    }

    method SendToAll(encoded: seq<byte>, ghost f: Frame, ghost s: State) returns (dead: set<nat>)
      requires Valid() && Stands(s) && Sendable(f) && encoded == Encode(f)
      modifies clients.Values
      ensures Valid() && dead <= clients.Keys
      ensures forall id :: id in clients ==> clients[id].Meaning() == Queueing.Send(s.sessions[id].queue, f)
      ensures forall id :: id in clients ==> (id in dead <==> !Admits(s.sessions[id].queue, f))
    {
      hide ClientQueue.Valid, ClientQueue.Meaning, RingBuffer.Valid, Encode, Sendable, Admits, Queueing.Send, LastN;
      dead := {};
      var ids := clients.Keys;
      while ids != {}
        invariant ids <= clients.Keys && dead <= clients.Keys
        invariant forall id :: id in clients ==> clients[id].Valid()
        invariant forall id :: id in ids ==> clients[id].Meaning() == s.sessions[id].queue
        invariant forall id :: id in clients && id !in ids ==>
                    clients[id].Meaning() == Queueing.Send(s.sessions[id].queue, f)
        invariant forall id :: id in clients ==> (id in dead <==> id !in ids && !Admits(s.sessions[id].queue, f))
        decreases ids
      {
        var id :| id in ids;
        var accepted := clients[id].Send(encoded, f);
        if !accepted {
          dead := dead + {id};
        }
        ids := ids - {id};
      }
    }

    /** Drop the senders of the dead; whoever of them was the writer is so no longer. */
    method Evict(refused: set<nat>)
      requires Valid() && refused <= clients.Keys
      modifies this, clients.Values
      ensures Valid() && clients == old(clients) - refused
      ensures forall id :: id in clients ==> clients[id].Meaning() == old(clients[id].Meaning())
      ensures forall id :: id in refused ==> old(clients)[id].closed
      ensures writerId == if old(writerId) in refused then 0 else old(writerId)
    {
      hide ClientQueue.Valid, ClientQueue.Meaning, RingBuffer.Valid;
      ghost var all, holder, gone := clients, writerId, {};
      var dead := refused;
      while dead != {}
        invariant gone + dead == refused && gone !! dead
        invariant clients == all - gone && Valid() && clients.Values <= all.Values
        invariant forall id :: id in clients ==> clients[id].Meaning() == old(clients[id].Meaning())
        invariant forall id :: id in gone ==> all[id].closed
        invariant writerId == if holder in gone then 0 else holder
        decreases dead
      {
        var id :| id in dead;
        EvictOne(id);
        dead, gone := dead - {id}, gone + {id};
        assert clients == all - gone;
      }
    }

    method EvictOne(id: nat)
      requires Valid() && id in clients
      modifies this`clients, this`writerId, clients[id]
      ensures Valid() && clients == old(clients) - {id}
      ensures old(clients)[id].closed
      ensures forall k :: k in clients ==> clients[k].Meaning() == old(clients[k].Meaning())
      ensures writerId == if old(writerId) == id then 0 else old(writerId)
    {
      hide ClientQueue.Valid, RingBuffer.Valid;
      var c := clients[id];
      clients := clients - {id};
      c.Close();
      if writerId == id {
        writerId := 0;
      }
    }

    /** What the PTY reader does with one read. */
    method OnPtyRead(data: seq<byte>, ghost s: State)
      requires Valid() && Stands(s) && Enabled(s, PtyRead(data))
      modifies this, clients.Values, ring, ring.buf
      ensures Valid() && Stands(Apply(s, PtyRead(data)))
    {
      hide LastN, Encode, Admits, Queueing.Send, Broker.Broadcast, Ok;
      var encoded := Encode(Frame(OUTPUT, data));
      LastNAppend(RING_CAPACITY, ring.pushed, data);
      ring.Push(data);
      Broadcast(encoded, Frame(OUTPUT, data), s.(recent := LastN(RING_CAPACITY, s.recent + data)));
    }
  }

  lemma RefusingIs(s: State, f: Frame, dead: set<nat>)
    requires s.registered <= s.sessions.Keys && dead <= s.registered
    requires forall id :: id in s.registered ==> (id in dead <==> !Admits(s.sessions[id].queue, f))
    ensures dead == Refusing(s, f)
  {
    hide Admits;
  }

  /** The broker's broadcast step, read off client by client. */
  lemma BroadcastIs(s: State, f: Frame)
    requires s.registered <= s.sessions.Keys
    ensures var t := Broker.Broadcast(s, f);
            && t.registered == s.registered - Refusing(s, f) && t.sessions.Keys == s.sessions.Keys
            && t.writerId == (if s.writerId in Refusing(s, f) then 0 else s.writerId)
            && t.recent == s.recent
            && forall id :: id in t.registered ==> t.sessions[id].queue == Queueing.Send(s.sessions[id].queue, f)
  {
    hide Join, Events;
  }

  /** `replay_frames` into a client's own queue, refusals ignored. */
  method Replay(queue: ClientQueue, data: seq<byte>)
    requires queue.Valid()
    modifies queue
    ensures queue.Valid() && queue.Meaning() == SendAll(old(queue.Meaning()), ReplayFrames(data))
  {
    hide Encode, Sendable, Ok, Queueing.Send, ReplayFrames, SendAll;
    var rest := data;
    SendNothing(queue.Meaning());
    ReplayRejoins(data);
    while rest != []
      invariant queue.Valid()
      invariant SendAll(queue.Meaning(), ReplayFrames(rest)) == SendAll(old(queue.Meaning()), ReplayFrames(data))
      decreases |rest|
    {
      ghost var f, later := ReplayStep(queue.Meaning(), rest);
      var chunk := rest[..Min(|rest|, MAX_PAYLOAD_SIZE)];
      FirstChunk(rest);
      var _ := queue.Send(Encode(Frame(OUTPUT, chunk)), Frame(OUTPUT, chunk));
      rest := rest[|chunk|..];
    }
    SendNothing(queue.Meaning());
  }

  lemma FirstChunk(data: seq<byte>)
    requires data != []
    ensures var chunk := data[..Min(|data|, MAX_PAYLOAD_SIZE)];
            && Sendable(Frame(OUTPUT, chunk))
            && ReplayFrames(data) != [] && ReplayFrames(data)[0] == Frame(OUTPUT, chunk)
  {
    assert data[..|data|] == data;
  }
}
