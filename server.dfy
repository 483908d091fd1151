/**
 * The custom HTTP server that hosts the pages and the socket hub: the rule that keeps
 * socket traffic away from the page handler, the process-wide hub handle, and worked
 * runs of the hub's handlers (its handler set is the same as the library copy's).
 */
module HttpServer {

  import opened Wrappers
  import opened Text
  import opened Domain
  import opened Hub

  /** The path the socket transport is mounted on. */
  const SocketPath: string := "/api/socketio"

  /**
   * Whether a request is passed to the page handler: unless its URL starts with the
   * socket path. A request without a URL is passed on (`req.url?.startsWith` is falsy).
   */
  function PassesToPages(url: Option<string>): (r: bool)
    ensures r <==> url.None? || !(SocketPath <= url.value)
  {
    if url.None? then true
    else
      StartsWithIsPrefix(url.value, SocketPath);
      !StartsWith(url.value, SocketPath)
  }

  /** The process: the global hub handle, `null` until startup installs the hub. */
  class Runtime {
    var globalIO: Server?

    constructor ()
      ensures globalIO == null
    {
      globalIO := null;
    }

    /** Startup: after the handlers are attached, the hub becomes the global handle. */
    method Start(io: Server)
      modifies this
      ensures globalIO == io
    {
      globalIO := io;
    }

    /** `getGlobalIO()`: the handle as it stands, `null` before startup. */
    method GetGlobalIO() returns (io: Server?)
      ensures io == globalIO
    {
      io := globalIO;
    }
  }

  /** Before startup the handle is `null`; after it, every read gives the started hub. */
  method HandleLifecycle() returns (before: Server?, after: Server?, started: Server)
    ensures before == null
    ensures after == started
  {
    var process := new Runtime();
    before := process.GetGlobalIO();
    started := new Server();
    process.Start(started);
    after := process.GetGlobalIO();
  }

  /**
   * Two kitchen screens `k1` and `k2` and a third connection `p` that relays a new order:
   * both screens receive `order-received` with the order unchanged, and `p`, which never
   * joined the kitchen, receives nothing back.
   */
  method KitchenRelayRun(order: Order) returns (sent: seq<Delivery>)
    ensures sent == [Delivery("k1", OrderReceived, OrderBody(order)), Delivery("k2", OrderReceived, OrderBody(order))]
  {
    var io := new Server();
    io.Connect("k1", "t0");
    io.Connect("k2", "t0");
    io.Connect("p", "t0");
    io.JoinKitchen("k1");
    assert Members(io.rooms, KitchenRoom) == ["k1"];
    io.JoinKitchen("k2");
    assert Members(io.rooms, KitchenRoom) == ["k1", "k2"];
    var before := io.outbox;
    io.NewOrder("p", order);
    KitchenDeliveries(io.rooms, ["k1", "k2"], NewOrderRoutes(order));
    FanoutTwo("k1", "k2", OrderReceived, OrderBody(order));
    assert io.outbox == before + Fanout(["k1", "k2"], OrderReceived, OrderBody(order));
    sent := io.outbox[|before|..];
  }

  /**
   * Customer `a` waits in room `customer-Q-005`, kitchen screen `b` is in `kitchen`, `c`
   * joined nothing; `b` relays READY for order `o1`: `a` gets only the id and status, `b`
   * the full update, and `c` nothing.
   */
  method StatusRelayRun() returns (sent: seq<Delivery>)
    ensures sent == [ Delivery("a", StatusUpdated, StatusNotice("o1", "READY")),
                      Delivery("b", OrderUpdated, StatusChange(StatusUpdate("o1", "READY", "Q-005"))) ]
  {
    var io := new Server();
    io.Connect("a", "t0");
    io.Connect("b", "t0");
    io.Connect("c", "t0");
    var customer := CustomerRoom("Q-005");
    CustomerRoomsDistinct("Q-005", "Q-005");
    assert customer != KitchenRoom;
    assert io.rooms == map[];
    io.JoinCustomer("a", "Q-005");
    assert io.rooms == map[customer := ["a"]] by {
      var none: seq<ConnId> := [];
      assert Members(map[], customer) == none && none + ["a"] == ["a"];
    }
    io.JoinKitchen("b");
    assert io.rooms == map[customer := ["a"], KitchenRoom := ["b"]] by {
      var none: seq<ConnId> := [];
      assert Members(map[customer := ["a"]], KitchenRoom) == none && none + ["b"] == ["b"];
    }
    assert Members(io.rooms, customer) == ["a"] && Members(io.rooms, KitchenRoom) == ["b"];
    var before := io.outbox;
    var u := StatusUpdate("o1", "READY", "Q-005");
    io.OrderStatusUpdate("b", u);
    StatusDeliveries(io.rooms, u, ["a"], ["b"]);
    FanoutOne("a", StatusUpdated, StatusNotice("o1", "READY"));
    FanoutOne("b", OrderUpdated, StatusChange(u));
    assert io.outbox == before + [Delivery("a", StatusUpdated, StatusNotice("o1", "READY")),
                                  Delivery("b", OrderUpdated, StatusChange(u))];
    sent := io.outbox[|before|..];
  }

  /**
   * No replay and no dangling membership: an order published before `k` joins the
   * kitchen is not delivered to it, one published while it is a member is, and after the
   * transport drops `k` a further publication goes to nobody and still succeeds.
   */
  method JoinWindowRun(early: Order, onTime: Order, late: Order) returns (sent: seq<Delivery>)
    ensures sent == [Delivery("k", OrderReceived, OrderBody(onTime))]
  {
    var io := new Server();
    io.Connect("k", "t0");
    io.Connect("p", "t0");
    var before := io.outbox;
    io.NewOrder("p", early);
    KitchenDeliveries(io.rooms, [], NewOrderRoutes(early));
    assert io.outbox == before;
    io.JoinKitchen("k");
    assert Members(io.rooms, KitchenRoom) == ["k"];
    io.NewOrder("p", onTime);
    KitchenDeliveries(io.rooms, ["k"], NewOrderRoutes(onTime));
    assert ["k"][..0] == [];
    assert io.outbox == before + [Delivery("k", OrderReceived, OrderBody(onTime))];
    io.DropConnection("k");
    assert Without(["k"], "k") == [] by {
      assert ["k"][..0] == [];
    }
    assert Members(io.rooms, KitchenRoom) == [];
    io.NewOrder("p", late);
    KitchenDeliveries(io.rooms, [], NewOrderRoutes(late));
    sent := io.outbox[|before|..];
  }

  lemma KitchenDeliveries(rooms: Rooms, members: seq<ConnId>, pubs: seq<Publication>)
    requires |pubs| == 1 && pubs[0].room == KitchenRoom && Members(rooms, KitchenRoom) == members
    ensures Deliver(rooms, pubs) == Fanout(members, pubs[0].event, pubs[0].payload)
  {
    assert pubs[..0] == [];
  }

  lemma StatusDeliveries(rooms: Rooms, u: StatusUpdate, customers: seq<ConnId>, kitchen: seq<ConnId>)
    requires Members(rooms, CustomerRoom(u.queueNumber)) == customers && Members(rooms, KitchenRoom) == kitchen
    ensures Deliver(rooms, StatusRoutes(u))
         == Fanout(customers, StatusUpdated, StatusNotice(u.orderId, u.status)) + Fanout(kitchen, OrderUpdated, StatusChange(u))
  {
    var pubs := StatusRoutes(u);
    assert pubs[..1][..0] == [] && pubs[..1] == [pubs[0]];
    assert Deliver(rooms, pubs[..1]) == [] + Fanout(customers, StatusUpdated, StatusNotice(u.orderId, u.status));
    assert pubs[..|pubs| - 1] == pubs[..1];
  }

  lemma FanoutOne(c: ConnId, e: Event, p: Payload)
    ensures Fanout([c], e, p) == [Delivery(c, e, p)]
  {
    assert [c][..0] == [];
  }

  lemma FanoutTwo(c1: ConnId, c2: ConnId, e: Event, p: Payload)
    ensures Fanout([c1, c2], e, p) == [Delivery(c1, e, p), Delivery(c2, e, p)]
  {
    assert [c1, c2][..1] == [c1] && [c1][..0] == [];
    assert Fanout([c1], e, p) == [Delivery(c1, e, p)];
  }
}
