/**
 * The notification hub: the socket server's connection handlers (`setupSocket`), which
 * put connections into rooms and republish order events to rooms.
 *
 * The handlers only call `socket.join`, `socket.emit` and `io.to(room).emit`; what those
 * calls do is the transport's, and this model states it as its assumption: a room is the
 * list of its member connections in join order, a member appears once, publishing to a
 * room hands one delivery to each current member in that order, and a connection that
 * goes away is removed from every room (and an emptied room is dropped).
 */
module Hub {

  import opened Domain

  /** `socket.id`. */
  type ConnId = string

  type Rooms = map<string, seq<ConnId>>

  const KitchenRoom: string := "kitchen"
  const WelcomeMessage: string := "Connected to order system"

  /** The room of the customer holding `queueNumber`. */
  function CustomerRoom(queueNumber: string): string
  {
    "customer-" + queueNumber
  }

  /** Customer rooms never coincide with the kitchen, and each queue number has its own. */
  lemma CustomerRoomsDistinct(q1: string, q2: string)
    ensures CustomerRoom(q1) != KitchenRoom
    ensures CustomerRoom(q1) == CustomerRoom(q2) <==> q1 == q2
  {
    assert CustomerRoom(q1)[0] == 'c';
    if CustomerRoom(q1) == CustomerRoom(q2) {
      assert q1 == CustomerRoom(q1)[9..];
    }
    assert |KitchenRoom| == 7;
  }

  /** The server-to-client events. */
  datatype Event = Connected | OrderReceived | StatusUpdated | OrderUpdated

  /** The event names on the wire. */
  function WireName(e: Event): string
  {
    match e
    case Connected => "connected"
    case OrderReceived => "order-received"
    case StatusUpdated => "status-updated"
    case OrderUpdated => "order-updated"
  }

  /** The payload of `order-status-update`, as the kitchen sends it. */
  datatype StatusUpdate = StatusUpdate(orderId: string, status: string, queueNumber: string)

  datatype Payload =
    | Welcome(message: string, timestamp: string)
    | OrderBody(order: Order)
    | StatusNotice(orderId: string, status: string)
    | StatusChange(update: StatusUpdate)

  /** One event handed to one connection. */
  datatype Delivery = Delivery(to: ConnId, event: Event, payload: Payload)

  /** One `io.to(room).emit(event, payload)`. */
  datatype Publication = Publication(room: string, event: Event, payload: Payload)

  predicate NoDup<T(==)>(s: seq<T>)
  {
    forall i, j | 0 <= i < j < |s| :: s[i] != s[j]
  }

  /** The current members of a room; a room nobody joined has none. */
  function Members(rooms: Rooms, room: string): seq<ConnId>
  {
    if room in rooms then rooms[room] else []
  }

  /** `socket.join(room)`: appended once, a second join changes nothing. */
  function Joined(rooms: Rooms, room: string, c: ConnId): (r: Rooms)
    ensures r.Keys == rooms.Keys + {room}
    ensures c in Members(r, room)
    ensures forall other | other != room :: Members(r, other) == Members(rooms, other)
    ensures Members(r, room) == if c in Members(rooms, room) then Members(rooms, room) else Members(rooms, room) + [c]
  {
    var ms := Members(rooms, room);
    if c in ms then rooms else rooms[room := ms + [c]]
  }

  /** Joining a room twice leaves the rooms as one join left them. */
  lemma JoinIdempotent(rooms: Rooms, room: string, c: ConnId)
    ensures Joined(Joined(rooms, room, c), room, c) == Joined(rooms, room, c)
  {
  }

  /** Joining keeps every room free of duplicates. */
  lemma JoinKeepsNoDup(rooms: Rooms, room: string, c: ConnId)
    requires forall r | r in rooms :: NoDup(rooms[r])
    ensures forall r | r in Joined(rooms, room, c) :: NoDup(Joined(rooms, room, c)[r])
  {
    var j := Joined(rooms, room, c);
    forall r | r in j ensures NoDup(j[r]) {
      assert j[r] == Members(j, r);
    }
  }

  /** `ms` without `c`, order kept. */
  function Without(ms: seq<ConnId>, c: ConnId): (r: seq<ConnId>)
    ensures forall x :: x in r <==> x in ms && x != c
    ensures NoDup(ms) ==> NoDup(r)
    ensures |r| <= |ms|
  {
    if ms == [] then []
    else
      var rest := Without(ms[..|ms| - 1], c);
      var last := ms[|ms| - 1];
      assert forall x :: x in ms <==> x in ms[..|ms| - 1] || x == last;
      assert NoDup(ms) ==> NoDup(ms[..|ms| - 1]) && last !in rest;
      rest + (if last == c then [] else [last])
  }

  /** What the transport does when `c` goes away: it leaves every room; empty rooms go. */
  function LeftAll(rooms: Rooms, c: ConnId): (r: Rooms)
    ensures forall room :: Members(r, room) == Without(Members(rooms, room), c)
    ensures forall room | room in r :: r[room] != []
  {
    map room | room in rooms && Without(rooms[room], c) != [] :: Without(rooms[room], c)
  }

  lemma {:induction false} WithoutIdempotent(ms: seq<ConnId>, c: ConnId)
    ensures Without(Without(ms, c), c) == Without(ms, c)
  {
    if ms != [] {
      WithoutIdempotent(ms[..|ms| - 1], c);
      var rest := Without(ms[..|ms| - 1], c);
      var tail := if ms[|ms| - 1] == c then [] else [ms[|ms| - 1]];
      WithoutAppend(rest, tail, c);
    }
  }

  lemma {:induction false} WithoutAppend(a: seq<ConnId>, b: seq<ConnId>, c: ConnId)
    ensures Without(a + b, c) == Without(a, c) + Without(b, c)
    decreases |b|
  {
    if b != [] {
      assert (a + b)[..|a + b| - 1] == a + b[..|b| - 1];
      WithoutAppend(a, b[..|b| - 1], c);
    } else {
      assert a + b == a;
    }
  }

  /** A connection that left is in no room, and leaving twice is leaving once. */
  lemma LeaveRemovesEverywhere(rooms: Rooms, c: ConnId)
    ensures forall room :: c !in Members(LeftAll(rooms, c), room)
    ensures LeftAll(LeftAll(rooms, c), c) == LeftAll(rooms, c)
  {
    var once := LeftAll(rooms, c);
    var twice := LeftAll(once, c);
    forall room | room in once ensures Without(once[room], c) == once[room] {
      WithoutIdempotent(rooms[room], c);
    }
    assert twice.Keys == once.Keys;
  }

  /** The deliveries of one publication: one per member, in member order. */
  function Fanout(members: seq<ConnId>, event: Event, payload: Payload): seq<Delivery>
  {
    if members == [] then []
    else Fanout(members[..|members| - 1], event, payload) + [Delivery(members[|members| - 1], event, payload)]
  }

  /** The deliveries of a sequence of publications, in publication order. */
  function Deliver(rooms: Rooms, pubs: seq<Publication>): seq<Delivery>
  {
    if pubs == [] then []
    else
      var p := pubs[|pubs| - 1];
      Deliver(rooms, pubs[..|pubs| - 1]) + Fanout(Members(rooms, p.room), p.event, p.payload)
  }

  /** What one connection receives out of a stream of deliveries. */
  function DeliveriesTo(ds: seq<Delivery>, c: ConnId): seq<Delivery>
  {
    if ds == [] then []
    else DeliveriesTo(ds[..|ds| - 1], c) + (if ds[|ds| - 1].to == c then [ds[|ds| - 1]] else [])
  }

  lemma {:induction false} DeliveriesToAppend(a: seq<Delivery>, b: seq<Delivery>, c: ConnId)
    ensures DeliveriesTo(a + b, c) == DeliveriesTo(a, c) + DeliveriesTo(b, c)
    decreases |b|
  {
    if b == [] {
      assert a + b == a;
    } else {
      assert (a + b)[..|a + b| - 1] == a + b[..|b| - 1];
      DeliveriesToAppend(a, b[..|b| - 1], c);
    }
  }

  /**
   * A publication reaches each member exactly once and nobody else: a connection gets one
   * copy if it is a member when the publication happens and none otherwise (no replay of
   * earlier publications, no echo to a sender that is not a member, and nothing at all
   * from a room without members).
   */
  lemma {:induction false} FanoutReachesMembersOnce(members: seq<ConnId>, event: Event, payload: Payload, c: ConnId)
    requires NoDup(members)
    ensures DeliveriesTo(Fanout(members, event, payload), c)
         == if c in members then [Delivery(c, event, payload)] else []
  {
    if members != [] {
      var init := members[..|members| - 1];
      var last := members[|members| - 1];
      assert forall x :: x in members <==> x in init || x == last;
      FanoutReachesMembersOnce(init, event, payload, c);
      DeliveriesToAppend(Fanout(init, event, payload), [Delivery(last, event, payload)], c);
      assert DeliveriesTo([Delivery(last, event, payload)], c)
          == if last == c then [Delivery(last, event, payload)] else [];
    }
  }

  /** A publication yields one delivery per member, in member order, all alike. */
  lemma {:induction false} FanoutInMemberOrder(members: seq<ConnId>, event: Event, payload: Payload)
    ensures |Fanout(members, event, payload)| == |members|
    ensures forall i | 0 <= i < |members| :: Fanout(members, event, payload)[i] == Delivery(members[i], event, payload)
  {
    if members != [] {
      FanoutInMemberOrder(members[..|members| - 1], event, payload);
    }
  }

  /** `new-order`: the order goes unchanged to the kitchen as `order-received`. */
  function NewOrderRoutes(order: Order): seq<Publication>
  {
    [Publication(KitchenRoom, OrderReceived, OrderBody(order))]
  }

  /**
   * `order-status-update`: first `status-updated` with only the id and status to the
   * customer's room, then `order-updated` with the whole update to the kitchen.
   */
  function StatusRoutes(u: StatusUpdate): seq<Publication>
  {
    [ Publication(CustomerRoom(u.queueNumber), StatusUpdated, StatusNotice(u.orderId, u.status)),
      Publication(KitchenRoom, OrderUpdated, StatusChange(u)) ]
  }

  /**
   * Who receives what from a relayed new order: exactly the kitchen members, one copy
   * each, the payload unchanged; a connection outside the kitchen (the sender included)
   * receives nothing.
   */
  lemma NewOrderReachesKitchenOnly(rooms: Rooms, order: Order, c: ConnId)
    requires forall r | r in rooms :: NoDup(rooms[r])
    ensures DeliveriesTo(Deliver(rooms, NewOrderRoutes(order)), c)
         == if c in Members(rooms, KitchenRoom) then [Delivery(c, OrderReceived, OrderBody(order))] else []
  {
    var pubs := NewOrderRoutes(order);
    assert pubs[..0] == [];
    assert Deliver(rooms, pubs) == Fanout(Members(rooms, KitchenRoom), OrderReceived, OrderBody(order));
    FanoutReachesMembersOnce(Members(rooms, KitchenRoom), OrderReceived, OrderBody(order), c);
  }

  /**
   * Who receives what from a status update, for every queue number and status: a member
   * of the customer's room gets `status-updated {orderId, status}`, a member of the
   * kitchen gets `order-updated` with the full update (the customer notice first when a
   * connection is in both), and every other connection gets nothing.
   */
  lemma StatusUpdateReachesEachAudience(rooms: Rooms, u: StatusUpdate, c: ConnId)
    requires forall r | r in rooms :: NoDup(rooms[r])
    ensures DeliveriesTo(Deliver(rooms, StatusRoutes(u)), c)
         == (if c in Members(rooms, CustomerRoom(u.queueNumber))
             then [Delivery(c, StatusUpdated, StatusNotice(u.orderId, u.status))] else [])
          + (if c in Members(rooms, KitchenRoom)
             then [Delivery(c, OrderUpdated, StatusChange(u))] else [])
  {
    var pubs := StatusRoutes(u);
    var toCustomer := Fanout(Members(rooms, CustomerRoom(u.queueNumber)), StatusUpdated, StatusNotice(u.orderId, u.status));
    var toKitchen := Fanout(Members(rooms, KitchenRoom), OrderUpdated, StatusChange(u));
    assert pubs[..1][..0] == [] && pubs[..1] == [pubs[0]];
    assert Deliver(rooms, pubs[..1]) == toCustomer;
    assert Deliver(rooms, pubs) == toCustomer + toKitchen;
    DeliveriesToAppend(toCustomer, toKitchen, c);
    FanoutReachesMembersOnce(Members(rooms, CustomerRoom(u.queueNumber)), StatusUpdated, StatusNotice(u.orderId, u.status), c);
    FanoutReachesMembersOnce(Members(rooms, KitchenRoom), OrderUpdated, StatusChange(u), c);
  }

  /** The socket server: live connections, rooms, and everything sent so far. */
  class Server {
    var connections: set<ConnId>
    var rooms: Rooms
    /** Every delivery the server has handed to the transport, oldest first. */
    var outbox: seq<Delivery>

    /** Rooms are non-empty, duplicate-free, and hold only live connections. */
    ghost predicate Valid()
      reads this
    {
      forall r | r in rooms :: rooms[r] != [] && NoDup(rooms[r]) && forall c | c in rooms[r] :: c in connections
    }

    constructor ()
      ensures Valid()
      ensures connections == {} && rooms == map[] && outbox == []
    {
      connections := {};
      rooms := map[];
      outbox := [];
    }

    /** `io.on('connection')`: register the socket and send it the one welcome message. */
    method Connect(c: ConnId, timestamp: string)
      requires Valid() && c !in connections
      modifies this
      ensures Valid()
      ensures connections == old(connections) + {c} && rooms == old(rooms)
      ensures outbox == old(outbox) + [Delivery(c, Connected, Welcome(WelcomeMessage, timestamp))]
    {
      connections := connections + {c};
      outbox := outbox + [Delivery(c, Connected, Welcome(WelcomeMessage, timestamp))];
    }

    /** `socket.join(room)`. */
    method Join(c: ConnId, room: string)
      requires Valid() && c in connections
      modifies this
      ensures Valid()
      ensures rooms == Joined(old(rooms), room, c)
      ensures connections == old(connections) && outbox == old(outbox)
    {
      JoinKeepsNoDup(rooms, room, c);
      rooms := Joined(rooms, room, c);
    }

    /** `join-kitchen`: the connection joins `kitchen`; no other membership changes. */
    method JoinKitchen(c: ConnId)
      requires Valid() && c in connections
      modifies this
      ensures Valid()
      ensures rooms == Joined(old(rooms), KitchenRoom, c)
      ensures connections == old(connections) && outbox == old(outbox)
    {
      Join(c, KitchenRoom);
    }

    /** `join-customer`: the connection joins `customer-<queueNumber>`. */
    method JoinCustomer(c: ConnId, queueNumber: string)
      requires Valid() && c in connections
      modifies this
      ensures Valid()
      ensures rooms == Joined(old(rooms), CustomerRoom(queueNumber), c)
      ensures connections == old(connections) && outbox == old(outbox)
    {
      Join(c, CustomerRoom(queueNumber));
    }

    /** `io.to(room).emit(event, payload)`: one delivery per current member, in order. */
    method Publish(p: Publication)
      requires Valid()
      modifies this
      ensures Valid()
      ensures rooms == old(rooms) && connections == old(connections)
      ensures outbox == old(outbox) + Fanout(Members(rooms, p.room), p.event, p.payload)
    {
      var members := Members(rooms, p.room);
      var i := 0;
      while i < |members|
        invariant 0 <= i <= |members|
        invariant rooms == old(rooms) && connections == old(connections)
        invariant outbox == old(outbox) + Fanout(members[..i], p.event, p.payload)
      {
        assert members[..i + 1][..i] == members[..i];
        outbox := outbox + [Delivery(members[i], p.event, p.payload)];
        i := i + 1;
      }
      assert members[..i] == members;
    }

    /** Publications one after another. */
    method PublishAll(pubs: seq<Publication>)
      requires Valid()
      modifies this
      ensures Valid()
      ensures rooms == old(rooms) && connections == old(connections)
      ensures outbox == old(outbox) + Deliver(rooms, pubs)
    {
      var i := 0;
      while i < |pubs|
        invariant 0 <= i <= |pubs|
        invariant Valid()
        invariant rooms == old(rooms) && connections == old(connections)
        invariant outbox == old(outbox) + Deliver(rooms, pubs[..i])
      {
        assert pubs[..i + 1][..i] == pubs[..i];
        Publish(pubs[i]);
        i := i + 1;
      }
      assert pubs[..i] == pubs;
    }

    /** `new-order`: relay the order to the kitchen as `order-received`. */
    method NewOrder(c: ConnId, order: Order)
      requires Valid() && c in connections
      modifies this
      ensures Valid()
      ensures rooms == old(rooms) && connections == old(connections)
      ensures outbox == old(outbox) + Deliver(rooms, NewOrderRoutes(order))
    {
      PublishAll(NewOrderRoutes(order));
    }

    /** `order-status-update`: the customer notice, then the kitchen notice. */
    method OrderStatusUpdate(c: ConnId, data: StatusUpdate)
      requires Valid() && c in connections
      modifies this
      ensures Valid()
      ensures rooms == old(rooms) && connections == old(connections)
      ensures outbox == old(outbox) + Deliver(rooms, StatusRoutes(data))
    {
      PublishAll(StatusRoutes(data));
    }

    /** The `disconnect` handler: it only logs, so the server's state is untouched. */
    method OnDisconnect(c: ConnId)
      requires Valid()
      ensures unchanged(this)
    {
    }

    /**
     * The transport's own cleanup when a connection goes away (assumed, not in the
     * handlers): it leaves every room and is forgotten; unknown ids change nothing.
     */
    method DropConnection(c: ConnId)
      requires Valid()
      modifies this
      ensures Valid()
      ensures rooms == LeftAll(old(rooms), c)
      ensures connections == old(connections) - {c} && outbox == old(outbox)
    {
      rooms := LeftAll(rooms, c);
      connections := connections - {c};
    }
  }
}
