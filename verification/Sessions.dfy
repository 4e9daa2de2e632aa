/**
 What the session handlers of core/session.go do, as functions of the session and of the shared
 services it uses: the database, the offline cache, the router queue and the clean channel.
 */
module Sessions {
  import opened Options
  import opened Jids
  import opened Keys
  import opened Packets
  import opened Redis
  import opened Database
  import Groups

  const ROUTER_QUEUE_SIZE: nat := 100000

  datatype Status = Conn | Login | Close

  datatype Sess = Sess(sid: string, chan: string, nodeid: string, status: Status, jid: string,
                       buff: map<string, Packet>)

  /** A routing order: a packet, or a signal when there is none. */
  datatype Item = Item(channel: string, sid: string, pkt: Option<Packet>, signal: nat)

  /** What a client sent. */
  datatype Wire = Garbage | Beat | Msg(p: Packet)

  /** What the session writes to its client. */
  datatype Out =
    | AuthFail(reason: string)
    | AuthOk(id: string, delay: seq<Packet>)
    | AckOf(id: string)
    | Notify
    | BeatBack
    | KillSignal
    | Deliver(p: Packet)

  type Cache = map<string, seq<string>>

  datatype Ctx = Ctx(me: Sess, db: Db, cache: Cache, routeQ: multiset<Item>, clean: multiset<string>,
                     out: seq<Out>, panicked: bool)

  // ---------------------------------------------------------------- addresses

  function BareOf(s: string): (r: Option<string>)
  {
    match NewJid(s)
    case None => None
    case Some(j) => Some(Bare(j))
  }

  function Addr(s: string): (r: string)
  {
    match BareOf(s)
    case None => ""
    case Some(b) => b
  }

  function Owner(p: Packet): (r: string)
  {
    Addr(p.to)
  }

  // ---------------------------------------------------------------- storing and closing

  function PutIdxCmd(p: Packet): (r: Cmd)
  {
    HSet(OfflineIdx(Owner(p)), IdKey(p.id), PacketVal(p))
  }

  function PutKeyCmd(p: Packet): (r: Cmd)
  {
    Set(IdKey(p.id), PacketVal(p))
  }

  /** StorePacket. */
  function StorePacket(db: Db, p: Packet): (r: Db)
  {
    PutIdx(db, OfflineIdx(Owner(p)), IdKey(p.id), PacketVal(p))
  }

  /** The commands that store every packet of a buffer. */
  function FlushCmds(buff: map<string, Packet>): (r: set<Cmd>)
  {
    (set id | id in buff :: PutIdxCmd(buff[id])) + (set id | id in buff :: PutKeyCmd(buff[id]))
  }

  function DropCmds(me: Sess): (r: multiset<Cmd>)
  {
    if me.status.Login? then
      multiset{HDel(NodeIdx(me.nodeid), SessionKey(Addr(me.jid))), Del(SessionKey(Addr(me.jid)))}
    else multiset{}
  }

  /** CloseSession, with the flush of the unacknowledged packets. */
  function CloseSession(c: Ctx): (r: Ctx)
  {
    if c.me.status.Close? then c
    else
      c.(me := c.me.(status := Close),
         clean := c.clean + multiset{c.me.sid},
         db := c.db.(pend := c.db.pend + DropCmds(c.me) + multiset(FlushCmds(c.me.buff))))
  }

  function Say(c: Ctx, o: Out): (r: Ctx)
  {
    c.(out := c.out + [o])
  }

  function Kill(c: Ctx): (r: Ctx)
  {
    CloseSession(Say(c, KillSignal))
  }

  // ---------------------------------------------------------------- routing

  /** Router.Route: refused without a trace when the queue is full. */
  function Route(q: multiset<Item>, it: Item): (r: multiset<Item>)
  {
    if |q| < ROUTER_QUEUE_SIZE then q + multiset{it} else q
  }

  /** The session a registry value names; other values read as an empty status. */
  function Named(v: Val): (r: (string, string))
  {
    match v
    case StatusVal(sid, chan, _, _) => (chan, sid)
    case PacketVal(_) => ("", "")
  }

  function PacketItem(v: Val, p: Packet): (r: Item)
  {
    Item(Named(v).0, Named(v).1, Some(p), 0)
  }

  function KillItem(v: Val): (r: Item)
  {
    Item(Named(v).0, Named(v).1, None, KILL)
  }

  /** What becomes of a packet that a session routes. */
  datatype Verdict = Ignored | Panics | Mine | Unmatched | Online(v: Val) | Offline

  function Judge(me: Sess, st: Store, p: Packet): (r: Verdict)
  {
    if !me.status.Login? then Ignored
    else if BareOf(p.to).None? then Panics
    else if BareOf(p.to) == BareOf(me.jid) then Mine
    else if BareOf(p.from).None? then Panics
    else if BareOf(p.from) != BareOf(me.jid) then Unmatched
    else match Get(st, SessionKey(Owner(p)))
         case Some(v) => Online(v)
         case None => Offline
  }

  /** RoutePacket. */
  function RoutePacket(c: Ctx, p: Packet): (r: Ctx)
  {
    match Judge(c.me, c.db.store, p)
    case Ignored => c
    case Panics => c.(panicked := true)
    case Mine => Say(c.(me := c.me.(buff := c.me.buff[p.id := p])), Deliver(p))
    case Unmatched => c
    case Online(v) => c.(routeQ := Route(c.routeQ, PacketItem(v, p)))
    case Offline => c.(db := StorePacket(c.db, p))
  }

  lemma RouteKeepsStatus(c: Ctx, p: Packet)
    ensures RoutePacket(c, p).me.status == c.me.status
  {
  }

  /** RoutePacketList; a panic leaves the rest of the list unrouted. */
  function RoutePacketList(c: Ctx, ps: seq<Packet>): (r: Ctx)
    decreases |ps|
  {
    if ps == [] || c.panicked then c else RoutePacketList(RoutePacket(c, ps[0]), ps[1..])
  }

  // ---------------------------------------------------------------- logging in

  function PacketsIn(fields: map<Key, Val>, order: seq<Key>): (r: seq<Packet>)
    requires forall k :: k in order ==> k in fields
  {
    if order == [] then []
    else
      var rest := PacketsIn(fields, order[1..]);
      match fields[order[0]]
      case PacketVal(p) => [p] + rest
      case StatusVal(_, _, _, _) => rest
  }

  function Ids(ps: seq<Packet>): (r: seq<string>)
    ensures |r| == |ps|
  {
    seq(|ps|, i requires 0 <= i < |ps| => ps[i].id)
  }

  const FAIL_TYPE := "fail_type"
  const FAIL_PACKET := "fail_packet"
  const FAIL_TOKEN := "fail_token"

  function StatusOf(me: Sess): (r: Val)
  {
    StatusVal(me.sid, me.chan, me.jid, me.nodeid)
  }

  /** verify, as the reason of the failure; None is success. */
  function Verify(w: Wire, auth: bool): (r: Option<string>)
  {
    match w
    case Msg(p) =>
      if p.mtype != MSG_TYPE_OPEN_SESSION then Some(FAIL_TYPE)
      else if BareOf(p.jid).None? then Some(FAIL_PACKET)
      else if !auth then Some(FAIL_TOKEN)
      else None
    case _ => Some(FAIL_PACKET)
  }

  /** The part of verify that asks for the previous session of the address to be killed; it precedes the
      password check. */
  function KillPrevious(c: Ctx, w: Wire): (r: Ctx)
  {
    match w
    case Msg(p) =>
      if p.mtype != MSG_TYPE_OPEN_SESSION || BareOf(p.jid).None? then c
      else (match Get(c.db.store, SessionKey(Addr(p.jid)))
            case Some(v) => c.(routeQ := Route(c.routeQ, KillItem(v)))
            case None => c)
    case _ => c
  }

  /** The offline packets a login of `jid` lists, given the order in which the store lists the index. */
  function DelayList(st: Store, jid: string, order: seq<Key>): (r: seq<Packet>)
    requires forall k :: k in order ==> k in Fields(st, OfflineIdx(Addr(jid)))
  {
    PacketsIn(Fields(st, OfflineIdx(Addr(jid))), order)
  }

  /** openSession after a successful verify. */
  function LogIn(c: Ctx, p: Packet, order: seq<Key>): (r: Ctx)
    requires forall k :: k in order ==> k in Fields(c.db.store, OfflineIdx(Addr(p.jid)))
  {
    var me := c.me.(jid := p.jid, status := Login);
    var delay := DelayList(c.db.store, p.jid, order);
    Say(c.(me := me,
           cache := if delay == [] then c.cache else c.cache[p.id := Ids(delay)],
           db := PutIdx(c.db, NodeIdx(me.nodeid), SessionKey(Addr(p.jid)), StatusOf(me))),
        AuthOk(p.id, delay))
  }

  ghost predicate OrderFits(st: Store, w: Wire, order: seq<Key>)
  {
    w.Msg? ==> Enumerates(order, Fields(st, OfflineIdx(Addr(w.p.jid))))
  }

  /** Every hash can be listed. */
  ghost function AnyOrder(fields: map<Key, Val>): (order: seq<Key>)
    ensures Enumerates(order, fields)
    decreases |fields|
  {
    if fields == map[] then []
    else
      var k :| k in fields;
      assert |fields - {k}| < |fields| by { assert (fields - {k}).Keys == fields.Keys - {k}; }
      var rest := AnyOrder(fields - {k});
      [k] + rest
  }

  /** So every first packet has a listing. */
  ghost function AnyListing(st: Store, w: Wire): (order: seq<Key>)
    ensures OrderFits(st, w, order)
  {
    if w.Msg? then AnyOrder(Fields(st, OfflineIdx(Addr(w.p.jid)))) else []
  }

  /** openSession. */
  ghost function OpenSession(c: Ctx, w: Wire, auth: bool, order: seq<Key>): (r: Ctx)
    requires OrderFits(c.db.store, w, order)
  {
    var c1 := KillPrevious(c, w);
    match Verify(w, auth)
    case Some(reason) => CloseSession(Say(c1, AuthFail(reason)))
    case None => LogIn(c1, w.p, order)
  }

  // ---------------------------------------------------------------- acknowledging

  function AckCmds(b: string, ids: seq<string>): (r: seq<Cmd>)
  {
    if ids == [] then []
    else [HDel(OfflineIdx(b), IdKey(ids[0])), Del(IdKey(ids[0]))] + AckCmds(b, ids[1..])
  }

  /** serverAck: a listed login answer deletes what it listed, anything else leaves the buffer. */
  function ServerAck(c: Ctx, id: string): (r: Ctx)
  {
    match BareOf(c.me.jid)
    case None => c.(panicked := true)
    case Some(b) =>
      if id in c.cache then c.(db := c.db.(pend := c.db.pend + multiset(AckCmds(b, c.cache[id]))))
      else c.(me := c.me.(buff := c.me.buff - {id}))
  }

  // ---------------------------------------------------------------- the packet handler

  /** One packet of a batch, with the answers of the outside: password check, listing order, group expansion. */
  datatype Input = Input(w: Wire, auth: bool, order: seq<Key>, group: Groups.Reply)

  ghost function Handle(c: Ctx, i: Input): (r: Ctx)
    requires OrderFits(c.db.store, i.w, i.order)
  {
    if c.me.status.Conn? then OpenSession(c, i.w, i.auth, i.order)
    else match i.w
      case Beat => if c.me.status.Login? then Say(c, BeatBack) else c
      case Garbage => CloseSession(Say(c, Notify))
      case Msg(p) =>
        if p.mtype == MSG_TYPE_STATE && p.to == SERVER_ACK then ServerAck(c, p.id)
        else if p.mtype == MSG_TYPE_GROUP_CHAT then
          (match i.group
           case Expanded(ps) => RoutePacketList(Say(c, AckOf(p.id)), Texts(ps))
           case Crashed => c.(panicked := true)
           case _ => Say(c, Notify))
        else RoutePacket(if p.ack != 0 then Say(c, AckOf(p.id)) else c, p)
  }

  ghost predicate OrdersFit(c: Ctx, ins: seq<Input>)
    decreases |ins|
  {
    ins == [] || c.panicked || (OrderFits(c.db.store, ins[0].w, ins[0].order) && OrdersFit(Handle(c, ins[0]), ins[1..]))
  }

  /** packetHandler on a batch; a panic abandons the rest. */
  ghost function HandleBatch(c: Ctx, ins: seq<Input>): (r: Ctx)
    requires OrdersFit(c, ins)
    decreases |ins|
  {
    if ins == [] || c.panicked then c else HandleBatch(Handle(c, ins[0]), ins[1..])
  }
}
