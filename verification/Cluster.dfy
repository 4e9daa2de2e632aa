/**
 A cluster of nodes as one state machine. Every handler call on one packet, every router-worker
 iteration, every message taken from a data channel and every executed database command is one
 atomic step, and steps of all nodes interleave freely.

 Queues are bags: the many workers of a node may finish in any order. `db.pend` is the bag of all
 commands queued or in a worker's hand on any node.

 `log` and `latest` are history: no step reads them except to ask that new packet ids are new.
 */
module Cluster {
  import opened Keys
  import opened Packets
  import opened Redis
  import opened Database
  import opened Sessions

  /** Where a packet is. The first four are the ends at which it left the system undelivered. */
  datatype Fate =
    | Rejected                              // malformed, not the sender's own, or its sender is not logged in
    | Refused                               // the router queue was full
    | Dropped                               // the target session was gone or not logged in at delivery
    | Spread                                // a group packet replaced by its expansion on another node
    | Queued(chan: string, item: Item)      // in the router queue of a node
    | Hop(chan: string)                     // published to another node
    | Buffered(sid: string)                 // in the buffer of a logged-in session
    | Storing                               // its index write is queued or in a worker's hand
    | Stored                                // in the offline index
    | Acked                                 // acknowledged

  /** A packet that entered the system, and where it is now. */
  datatype Track = Track(p: Packet, fate: Fate)

  datatype State = State(
    sess: map<string, Sess>,
    table: set<string>,                     // the sids in the session tables
    clean: multiset<string>,                // the clean channels
    routeQ: map<string, multiset<Item>>,    // router queue of each node
    dataCh: map<string, multiset<Packet>>,  // data channel of each node
    caches: map<string, Cache>,             // offline cache of each node
    db: Db,
    log: map<string, Track>,                // every packet that entered, by id
    latest: map<string, string>)            // bare address -> session that logged in last

  function Queue(s: State, chan: string): (r: multiset<Item>)
  {
    if chan in s.routeQ then s.routeQ[chan] else multiset{}
  }

  function Hops(s: State, chan: string): (r: multiset<Packet>)
  {
    if chan in s.dataCh then s.dataCh[chan] else multiset{}
  }

  function CacheAt(s: State, chan: string): (r: Cache)
  {
    if chan in s.caches then s.caches[chan] else map[]
  }

  // ---------------------------------------------------------------- running a handler in the cluster

  function View(s: State, sid: string): (r: Ctx)
    requires sid in s.sess
  {
    var me := s.sess[sid];
    Ctx(me, s.db, CacheAt(s, me.chan), Queue(s, me.chan), s.clean, [], false)
  }

  function Back(s: State, sid: string, c: Ctx): (r: State)
    requires sid in s.sess
  {
    var chan := s.sess[sid].chan;
    s.(sess := s.sess[sid := c.me], db := c.db, clean := c.clean,
       caches := s.caches[chan := c.cache], routeQ := s.routeQ[chan := c.routeQ])
  }

  /** The buffered packets of a session that closes are on their way to the store. */
  function FlushLog(s: State, sid: string): (r: map<string, Track>)
    requires sid in s.sess
  {
    if s.sess[sid].status.Close? then s.log
    else s.log + map id | id in s.sess[sid].buff && id in s.log :: s.log[id].(fate := Storing)
  }

  function CloseAt(s: State, sid: string): (r: State)
    requires sid in s.sess
  {
    Back(s, sid, CloseSession(View(s, sid))).(log := FlushLog(s, sid))
  }

  function AckLog(s: State, sid: string, id: string): (r: map<string, Track>)
    requires sid in s.sess
  {
    var me := s.sess[sid];
    var cache := CacheAt(s, me.chan);
    if BareOf(me.jid).None? then s.log
    else if id in cache then
      s.log + map x | x in cache[id] && x in s.log && BareOf(s.log[x].p.to) == BareOf(me.jid) ::
                  s.log[x].(fate := Acked)
    else if me.status.Login? && id in me.buff && id in s.log then s.log[id := s.log[id].(fate := Acked)]
    else s.log
  }

  function RouteFate(c: Ctx, p: Packet): (r: Fate)
  {
    match Judge(c.me, c.db.store, p)
    case Ignored => Rejected
    case Panics => Rejected
    case Unmatched => Rejected
    case Mine => Buffered(c.me.sid)
    case Online(v) => if |c.routeQ| < ROUTER_QUEUE_SIZE then Queued(c.me.chan, PacketItem(v, p)) else Refused
    case Offline => Storing
  }

  function Record(s: State, p: Packet, f: Fate): (r: State)
  {
    s.(log := s.log[p.id := Track(p, f)])
  }

  /** Node.routePacket. */
  function NodeRoute(s: State, chan: string, p: Packet): (r: State)
  {
    if BareOf(p.to).None? then s
    else match Get(s.db.store, SessionKey(Owner(p)))
         case Some(v) => s.(routeQ := s.routeQ[chan := Route(Queue(s, chan), PacketItem(v, p))])
         case None => s.(db := StorePacket(s.db, p))
  }

  function NodeFate(s: State, chan: string, p: Packet): (r: Fate)
  {
    if BareOf(p.to).None? then Rejected
    else match Get(s.db.store, SessionKey(Owner(p)))
         case Some(v) => if |Queue(s, chan)| < ROUTER_QUEUE_SIZE then Queued(chan, PacketItem(v, p)) else Refused
         case None => Storing
  }

  // ---------------------------------------------------------------- the router worker

  predicate Local(chan: string, it: Item)
  {
    it.channel == "" || it.channel == chan
  }

  /** fetchSession on a node. */
  predicate Found(s: State, chan: string, sid: string)
  {
    sid in s.table && sid in s.sess && s.sess[sid].chan == chan
  }

  function Delivered(s: State, sid: string, p: Packet): (r: State)
    requires sid in s.sess
  {
    var c := View(s, sid);
    Record(Back(s, sid, RoutePacket(c, p)), p, if c.me.status.Login? then RouteFate(c, p) else Dropped)
  }

  /** The state in which a worker has taken an item from the queue. */
  function Taken(s: State, chan: string, it: Item): (r: State)
  {
    s.(routeQ := s.routeQ[chan := Queue(s, chan) - multiset{it}])
  }

  function WorkOn(s: State, chan: string, it: Item, p: Packet, rpcOk: bool): (r: State)
  {
    if Local(chan, it) then
      if Found(s, chan, it.sid) then Delivered(s, it.sid, p) else Record(s, p, Dropped)
    else if rpcOk then
      Record(s.(dataCh := s.dataCh[it.channel := Hops(s, it.channel) + multiset{p}]), p, Hop(it.channel))
    else Record(s.(db := StorePacket(s.db, p)), p, Storing)
  }

  /** Router.worker on one item; `rpcOk` is the result of the remote call. */
  function Work(s: State, chan: string, it: Item, rpcOk: bool): (r: State)
  {
    var s1 := Taken(s, chan, it);
    match it.pkt
    case None =>
      if Local(chan, it) && Found(s1, chan, it.sid) && it.signal == KILL then CloseAt(s1, it.sid) else s1
    case Some(p) => WorkOn(s1, chan, it, p, rpcOk)
  }

  // ---------------------------------------------------------------- the other steps

  function Submitted(s: State, sid: string, p: Packet): (r: State)
    requires sid in s.sess
  {
    var c := View(s, sid);
    Record(Back(s, sid, RoutePacket(c, p)), p, RouteFate(c, p))
  }

  function AckAt(s: State, sid: string, id: string): (r: State)
    requires sid in s.sess
  {
    Back(s, sid, ServerAck(View(s, sid), id)).(log := AckLog(s, sid, id))
  }

  /** dataChannelHandler: a group packet is expanded again, the copies come as Expand. */
  function Arrived(s: State, chan: string, p: Packet): (r: State)
  {
    var s1 := s.(dataCh := s.dataCh[chan := Hops(s, chan) - multiset{p}]);
    if p.mtype == MSG_TYPE_GROUP_CHAT then Record(s1, p, Spread)
    else Record(NodeRoute(s1, chan, p), p, NodeFate(s1, chan, p))
  }

  function Written(s: State, cmd: Cmd): (r: State)
  {
    s.(db := Db(Exec(s.db.store, cmd), s.db.pend - multiset{cmd}),
       log := if cmd.HSet? && cmd.field.IdKey? && cmd.field.id in s.log
              then s.log[cmd.field.id := s.log[cmd.field.id].(fate := Stored)] else s.log)
  }

  datatype Event =
    | Accept(sid: string, chan: string, nodeid: string)
    | Register(sid: string)
    | Clean(sid: string)
    | Open(sid: string, w: Wire, auth: bool, order: seq<Key>)
    | Submit(sid: string, p: Packet)
    | Ack(sid: string, id: string)
    | Shut(sid: string)
    | Worker(chan: string, item: Item, rpcOk: bool)
    | Arrive(chan: string, p: Packet)
    | Push(chan: string, p: Packet)
    | Expand(chan: string, p: Packet)
    | Write(cmd: Cmd)
    | Expire(id: string)

  predicate UnusedId(s: State, p: Packet)
  {
    p.id !in s.log && PlainId(p.id)
  }

  /** A logged-in session routes a new packet of its own to an address that parses. */
  predicate RoutesOwn(s: State, sid: string, p: Packet)
  {
    && sid in s.sess && s.sess[sid].status.Login? && UnusedId(s, p)
    && BareOf(p.from).Some? && BareOf(p.from) == BareOf(s.sess[sid].jid) && BareOf(p.to).Some?
  }

  /** When a step can happen. A signal for a session of another node ends the process of the node whose worker
      takes it, so no step is defined for that. */
  ghost predicate Possible(s: State, e: Event)
  {
    match e
    case Accept(sid, _, _) => sid !in s.sess && sid != ""
    case Register(sid) => sid in s.sess
    case Clean(sid) => sid in s.clean
    case Open(sid, w, _, order) => sid in s.sess && s.sess[sid].status.Conn? && OrderFits(s.db.store, w, order)
    case Submit(sid, _) => sid in s.sess && !s.sess[sid].status.Conn?
    case Ack(sid, _) => sid in s.sess && !s.sess[sid].status.Conn?
    case Shut(sid) => sid in s.sess
    case Worker(chan, it, _) => it in Queue(s, chan) && (it.pkt.Some? || Local(chan, it))
    case Arrive(chan, p) => p in Hops(s, chan)
    case Push(_, _) => true
    case Expand(_, p) => p.mtype == MSG_TYPE_GROUP_CHAT
    case Write(cmd) => cmd in s.db.pend
    case Expire(_) => true
  }

  /** A packet that enters has an id of its own. */
  predicate Fresh(s: State, e: Event)
  {
    e.Submit? || e.Push? || e.Expand? ==> UnusedId(s, e.p)
  }

  ghost predicate Enabled(s: State, e: Event)
  {
    Possible(s, e) && Fresh(s, e)
  }

  ghost function Next(s: State, e: Event): (r: State)
    requires Possible(s, e)
  {
    match e
    // a connection is accepted; its session is entered in the table later
    case Accept(sid, chan, nodeid) => s.(sess := s.sess[sid := Sess(sid, chan, nodeid, Conn, "", map[])])
    case Register(sid) => s.(table := s.table + {sid})
    // Node.clean
    case Clean(sid) => s.(clean := s.clean - multiset{sid}, table := s.table - {sid})
    // the first packet of a connection
    case Open(sid, w, auth, order) => Opened(s, sid, w, auth, order)
    // a client's own packet, or one packet of the expansion of its group packet
    case Submit(sid, p) => Submitted(s, sid, p)
    case Ack(sid, id) => AckAt(s, sid, id)
    // read error, bad packet, or shutdown of the node
    case Shut(sid) => CloseAt(s, sid)
    case Worker(chan, it, rpcOk) => Work(s, chan, it, rpcOk)
    case Arrive(chan, p) => Arrived(s, chan, p)
    // a packet pushed in over RPC
    case Push(chan, p) => Record(s.(dataCh := s.dataCh[chan := Hops(s, chan) + multiset{p}]), p, Hop(chan))
    case Expand(chan, p) => Record(NodeRoute(s, chan, p), p, NodeFate(s, chan, p))
    // a database worker executes a command
    case Write(cmd) => Written(s, cmd)
    // a stored copy with a time to live runs out
    case Expire(id) => s.(db := s.db.(store := s.db.store - {IdKey(id)}))
  }

  /** openSession in the cluster. */
  ghost function Opened(s: State, sid: string, w: Wire, auth: bool, order: seq<Key>): (r: State)
    requires sid in s.sess && OrderFits(s.db.store, w, order)
  {
    var t := Back(s, sid, OpenSession(View(s, sid), w, auth, order));
    if Verify(w, auth).None? then t.(latest := s.latest[Addr(w.p.jid) := sid])
    else t.(log := FlushLog(s, sid))
  }

  /** A start after a drained shutdown: nothing connected or queued. The offline indexes may hold packets,
      each under its own id in the index of its recipient; the history knows exactly these. */
  ghost predicate Start(s: State)
  {
    && s.sess == map[] && s.table == {} && s.clean == multiset{}
    && s.routeQ == map[] && s.dataCh == map[] && s.caches == map[]
    && s.db.pend == multiset{} && s.latest == map[]
    && (forall k :: k in s.db.store ==> !k.SessionKey? && (k.IdKey? || s.db.store[k].Hash?))
    && (forall b, k :: k in Fields(s.db.store, OfflineIdx(b)) ==>
          k.IdKey? && k.id in s.log && Fields(s.db.store, OfflineIdx(b))[k] == PacketVal(s.log[k.id].p))
    && (forall id :: id in s.log ==>
          && s.log[id].p.id == id && PlainId(id) && BareOf(s.log[id].p.to).Some? && s.log[id].fate == Stored
          && (forall b :: IdKey(id) in Fields(s.db.store, OfflineIdx(b)) <==> b == Owner(s.log[id].p)))
  }
}
