/**
 What the session handlers do, said of the session, the database and the client, branch by branch and
 without naming the functions that the handlers are made of.
 */
module SessionLaws {
  import opened Options
  import opened Jids
  import opened Keys
  import opened Packets
  import opened Redis
  import opened Database
  import opened Sessions

  lemma ParsesIfAt(s: string)
    ensures BareOf(s).Some? <==> '@' in s
  {
    ParsesIff(s);
  }

  /** Keys and comparisons are by user and domain; a resource plays no part. */
  lemma BareIgnoresResource(u: string, d: string, r: string)
    requires '@' !in u && '@' !in d && '/' !in d && '@' !in r
    ensures BareOf(u + "@" + d) == BareOf(u + "@" + d + "/" + r) == Some(u + "@" + d)
    ensures Addr(u + "@" + d) == Addr(u + "@" + d + "/" + r) == u + "@" + d
  {
    ParsesTo(u, d, r, "");
  }

  lemma MatchesIff(a: string, b: string)
    requires '@' in a
    ensures NewJid(a).Some? && (EqualWithoutResource(NewJid(a).value, b).None? <==> '@' !in b)
    ensures '@' in b ==> EqualWithoutResource(NewJid(a).value, b) == Some(BareOf(a) == BareOf(b))
  {
    ParsesIff(a);
    ParsesIff(b);
  }

  // ---------------------------------------------------------------- listing

  /** The fields of a hash that hold the packet. */
  function Holders(fields: map<Key, Val>, p: Packet): (r: set<Key>)
  {
    set k | k in fields && fields[k] == PacketVal(p)
  }

  function HoldersIn(fields: map<Key, Val>, order: seq<Key>, p: Packet): (r: set<Key>)
  {
    set k | k in order && k in fields && fields[k] == PacketVal(p)
  }

  lemma {:induction false} CountsListed(fields: map<Key, Val>, order: seq<Key>, p: Packet)
    requires forall k :: k in order ==> k in fields
    requires forall i, j :: 0 <= i < j < |order| ==> order[i] != order[j]
    ensures multiset(PacketsIn(fields, order))[p] == |HoldersIn(fields, order, p)|
    decreases |order|
  {
    if order != [] {
      CountsListed(fields, order[1..], p);
      FirstHolder(fields, order, p);
      FirstCounts(fields, order, p);
    }
  }

  lemma FirstHolder(fields: map<Key, Val>, order: seq<Key>, p: Packet)
    requires order != [] && forall k :: k in order ==> k in fields
    requires forall i, j :: 0 <= i < j < |order| ==> order[i] != order[j]
    ensures |HoldersIn(fields, order, p)| ==
            (if fields[order[0]] == PacketVal(p) then 1 else 0) + |HoldersIn(fields, order[1..], p)|
  {
    var k0, rest := order[0], order[1..];
    assert order == [k0] + rest && k0 !in rest;
    assert HoldersIn(fields, order, p) ==
           (if fields[k0] == PacketVal(p) then {k0} else {}) + HoldersIn(fields, rest, p);
  }

  lemma FirstCounts(fields: map<Key, Val>, order: seq<Key>, p: Packet)
    requires order != [] && forall k :: k in order ==> k in fields
    ensures multiset(PacketsIn(fields, order))[p] ==
            (if fields[order[0]] == PacketVal(p) then 1 else 0) + multiset(PacketsIn(fields, order[1..]))[p]
  {
    var rest := PacketsIn(fields, order[1..]);
    match fields[order[0]]
    case PacketVal(q) => assert multiset([q] + rest) == multiset{q} + multiset(rest);
    case StatusVal(_, _, _, _) =>
  }

  /** A login lists a packet as often as the offline index of the address holds it, and nothing else. */
  lemma ListsWhatIsStored(st: Store, jid: string, order: seq<Key>, p: Packet)
    requires Enumerates(order, Fields(st, OfflineIdx(Addr(jid))))
    ensures multiset(DelayList(st, jid, order))[p] == |Holders(Fields(st, OfflineIdx(Addr(jid))), p)|
  {
    var fields := Fields(st, OfflineIdx(Addr(jid)));
    CountsListed(fields, order, p);
    assert HoldersIn(fields, order, p) == Holders(fields, p);
  }

  // ---------------------------------------------------------------- logging in

  /** Why a first packet is refused. */
  function Reason(w: Wire): (r: string)
  {
    if !w.Msg? then "fail_packet"
    else if w.p.mtype != MSG_TYPE_OPEN_SESSION then "fail_type"
    else if '@' !in w.p.jid then "fail_packet"
    else "fail_token"
  }

  /** Who gets in: an open-session packet with an address that parses and the right password, and nobody else. */
  lemma LoginIff(c: Ctx, w: Wire, auth: bool, order: seq<Key>)
    requires OrderFits(c.db.store, w, order) && c.me.status.Conn?
    ensures OpenSession(c, w, auth, order).me.status.Login? <==>
            w.Msg? && w.p.mtype == MSG_TYPE_OPEN_SESSION && '@' in w.p.jid && auth
  {
    if w.Msg? { ParsesIfAt(w.p.jid); }
  }

  /** A refused client is told why and closed; nothing is registered or handed out. */
  lemma RefusedIs(c: Ctx, w: Wire, auth: bool, order: seq<Key>)
    requires OrderFits(c.db.store, w, order) && c.me.status.Conn?
    requires !(w.Msg? && w.p.mtype == MSG_TYPE_OPEN_SESSION && '@' in w.p.jid && auth)
    ensures var r := OpenSession(c, w, auth, order);
            && r.me == c.me.(status := Close) && r.clean == c.clean + multiset{c.me.sid}
            && r.db.store == c.db.store && r.cache == c.cache && r.panicked == c.panicked
            && r.out == c.out + [AuthFail(Reason(w))]
  {
    if w.Msg? { ParsesIfAt(w.p.jid); }
  }

  /** What a login leaves: the session and its registry entry. The entry is not written if the node's index is no
      hash. */
  lemma LoggedInIs(c: Ctx, w: Wire, auth: bool, order: seq<Key>)
    requires OrderFits(c.db.store, w, order) && c.me.status.Conn?
    requires w.Msg? && w.p.mtype == MSG_TYPE_OPEN_SESSION && '@' in w.p.jid && auth
    ensures var r := OpenSession(c, w, auth, order);
            && r.me == c.me.(status := Login, jid := w.p.jid) && r.db.pend == c.db.pend && r.clean == c.clean
            && r.panicked == c.panicked
  {
    ParsesIfAt(w.p.jid);
  }

  lemma RegistersIs(c: Ctx, w: Wire, auth: bool, order: seq<Key>)
    requires OrderFits(c.db.store, w, order) && c.me.status.Conn?
    requires w.Msg? && w.p.mtype == MSG_TYPE_OPEN_SESSION && '@' in w.p.jid && auth
    ensures var st, idx, key := c.db.store, NodeIdx(c.me.nodeid), SessionKey(Addr(w.p.jid));
            var v := StatusVal(c.me.sid, c.me.chan, w.p.jid, c.me.nodeid);
            OpenSession(c, w, auth, order).db.store ==
            if idx in st && st[idx].Str? then st else st[idx := Hash(Fields(st, idx)[key := v])][key := Str(v)]
  {
    ParsesIfAt(w.p.jid);
  }

  /** The answer lists what the offline index holds; if that is anything, its ids are remembered under the id of the
      login, in the order of the answer. */
  lemma AnswerLists(c: Ctx, w: Wire, auth: bool, order: seq<Key>) returns (pks: seq<Packet>, ids: seq<string>)
    requires OrderFits(c.db.store, w, order) && c.me.status.Conn?
    requires w.Msg? && w.p.mtype == MSG_TYPE_OPEN_SESSION && '@' in w.p.jid && auth
    ensures forall p :: multiset(pks)[p] == |Holders(Fields(c.db.store, OfflineIdx(Addr(w.p.jid))), p)|
    ensures |ids| == |pks| && forall i :: 0 <= i < |ids| ==> ids[i] == pks[i].id
    ensures var r := OpenSession(c, w, auth, order);
            && r.out == c.out + [AuthOk(w.p.id, pks)]
            && r.cache == if |pks| == 0 then c.cache else c.cache[w.p.id := ids]
  {
    ParsesIfAt(w.p.jid);
    pks := DelayList(c.db.store, w.p.jid, order);
    ids := Ids(pks);
    forall p ensures multiset(pks)[p] == |Holders(Fields(c.db.store, OfflineIdx(Addr(w.p.jid))), p)| {
      ListsWhatIsStored(c.db.store, w.p.jid, order, p);
    }
    AnswerIs(c, w, auth, order);
  }

  lemma AnswerIs(c: Ctx, w: Wire, auth: bool, order: seq<Key>)
    requires OrderFits(c.db.store, w, order) && Verify(w, auth).None?
    ensures var r, pks := OpenSession(c, w, auth, order), DelayList(c.db.store, w.p.jid, order);
            && r.out == c.out + [AuthOk(w.p.id, pks)]
            && r.cache == if pks == [] then c.cache else c.cache[w.p.id := Ids(pks)]
  {
  }

  // ---------------------------------------------------------------- closing

  /** The writes that store a packet: in its recipient's index, and under its own id. */
  predicate StoresOne(cmd: Cmd, p: Packet)
  {
    cmd == HSet(OfflineIdx(Addr(p.to)), IdKey(p.id), PacketVal(p)) || cmd == Set(IdKey(p.id), PacketVal(p))
  }

  /** What a close queues of one command: the two deletes of a logged-in session, and once each the two writes of
      every unacknowledged packet. */
  lemma CloseQueues(c: Ctx, cmd: Cmd)
    requires !c.me.status.Close?
    ensures var key := SessionKey(Addr(c.me.jid));
            CloseSession(c).db.pend[cmd] ==
            c.db.pend[cmd] +
            (if c.me.status.Login? && (cmd == HDel(NodeIdx(c.me.nodeid), key) || cmd == Del(key)) then 1 else 0) +
            (if exists id :: id in c.me.buff && StoresOne(cmd, c.me.buff[id]) then 1 else 0)
  {
    FlushedIff(c.me.buff, cmd);
    DropsIff(c.me, cmd);
    assert multiset(FlushCmds(c.me.buff))[cmd] == if cmd in FlushCmds(c.me.buff) then 1 else 0;
    assert CloseSession(c).db.pend == c.db.pend + DropCmds(c.me) + multiset(FlushCmds(c.me.buff));
  }

  lemma FlushedIff(buff: map<string, Packet>, cmd: Cmd)
    ensures cmd in FlushCmds(buff) <==> exists id :: id in buff && StoresOne(cmd, buff[id])
  {
  }

  lemma DropsIff(me: Sess, cmd: Cmd)
    ensures var key := SessionKey(Addr(me.jid));
            DropCmds(me)[cmd] ==
            if me.status.Login? && (cmd == HDel(NodeIdx(me.nodeid), key) || cmd == Del(key)) then 1 else 0
  {
  }

  /** The rest of a close: announced once, nothing read or told, and a second close changes nothing. */
  lemma CloseIs(c: Ctx)
    ensures var r := CloseSession(c);
            && r.me == c.me.(status := Close) && r.db.store == c.db.store && r.cache == c.cache && r.routeQ == c.routeQ
            && r.out == c.out && r.panicked == c.panicked
            && r.clean == (if c.me.status.Close? then c.clean else c.clean + multiset{c.me.sid})
            && CloseSession(r) == r
  {
  }

  /** A killed client is told, and closed. */
  lemma KillIs(c: Ctx)
    ensures Kill(c).out == c.out + [KillSignal] && Kill(c).me.status.Close?
    ensures Kill(c).(out := c.out) == CloseSession(c)
  {
  }

  // ---------------------------------------------------------------- routing

  /** A packet panics the handler of a logged-in session exactly if its recipient does not parse, or its sender does
      not and it is not for this session. */
  lemma RoutePanicsIff(c: Ctx, p: Packet)
    ensures RoutePacket(c, p).panicked <==>
            c.panicked || (c.me.status.Login? && ('@' !in p.to || ('@' !in p.from && BareOf(p.to) != BareOf(c.me.jid))))
  {
    ParsesIfAt(p.to);
    ParsesIfAt(p.from);
  }

  /** The packet is buffered and sent to the client exactly if it is for this session. */
  lemma RouteKeepsIff(c: Ctx, p: Packet)
    ensures var r, mine := RoutePacket(c, p), c.me.status.Login? && '@' in p.to && BareOf(p.to) == BareOf(c.me.jid);
            && r.me == (if mine then c.me.(buff := c.me.buff[p.id := p]) else c.me)
            && r.out == (if mine then c.out + [Deliver(p)] else c.out)
  {
    ParsesIfAt(p.to);
  }

  /** It leaves this session exactly if it comes from it and is for another. */
  predicate Leaves(c: Ctx, p: Packet)
  {
    && c.me.status.Login? && '@' in p.to && '@' in p.from
    && BareOf(p.to) != BareOf(c.me.jid) && BareOf(p.from) == BareOf(c.me.jid)
  }

  lemma RouteKeepsRest(c: Ctx, p: Packet)
    ensures var r := RoutePacket(c, p);
            r.cache == c.cache && r.clean == c.clean && r.db.store == c.db.store && (!Leaves(c, p) ==> r.db == c.db)
  {
    ParsesIfAt(p.to);
    ParsesIfAt(p.from);
  }

  /** Then it is queued for the session the registry names, if there is room, or both its writes are queued. */
  lemma RouteSendsIff(c: Ctx, p: Packet)
    ensures var entry := Get(c.db.store, SessionKey(Addr(p.to)));
            && (!Leaves(c, p) || entry.None? ==> RoutePacket(c, p).routeQ == c.routeQ)
            && (Leaves(c, p) && entry.Some? && entry.value.StatusVal? ==>
                  var it := Item(entry.value.chan, entry.value.sid, Some(p), 0);
                  RoutePacket(c, p).routeQ == if |c.routeQ| < 100000 then c.routeQ + multiset{it} else c.routeQ)
  {
    ParsesIfAt(p.to);
    ParsesIfAt(p.from);
  }

  lemma RouteStoresIff(c: Ctx, p: Packet, cmd: Cmd)
    ensures RoutePacket(c, p).db.pend[cmd] ==
            c.db.pend[cmd] +
            if Leaves(c, p) && Get(c.db.store, SessionKey(Addr(p.to))).None? && StoresOne(cmd, p) then 1 else 0
  {
    ParsesIfAt(p.to);
    ParsesIfAt(p.from);
  }

  /** A routed list: `cs[k]` is the session before the packet `k`. All packets are routed in order, unless one
      panics: that is then the last. */
  lemma {:induction false} ListIsRouted(c: Ctx, ps: seq<Packet>) returns (cs: seq<Ctx>)
    ensures 1 <= |cs| <= |ps| + 1 && cs[0] == c && cs[|cs| - 1] == RoutePacketList(c, ps)
    ensures forall k :: 0 <= k < |cs| - 1 ==> !cs[k].panicked && cs[k + 1] == RoutePacket(cs[k], ps[k])
    ensures |cs| <= |ps| ==> cs[|cs| - 1].panicked
    decreases |ps|
  {
    if ps == [] || c.panicked {
      cs := [c];
    } else {
      var rest := ListIsRouted(RoutePacket(c, ps[0]), ps[1..]);
      cs := [c] + rest;
    }
  }

  /** A list with addresses that parse is routed to its end. */
  lemma {:induction false} ListNeverPanics(c: Ctx, ps: seq<Packet>)
    requires !c.panicked && forall k :: 0 <= k < |ps| ==> '@' in ps[k].to && '@' in ps[k].from
    ensures !RoutePacketList(c, ps).panicked
    decreases |ps|
  {
    if ps != [] {
      RoutePanicsIff(c, ps[0]);
      ListNeverPanics(RoutePacket(c, ps[0]), ps[1..]);
    }
  }

  // ---------------------------------------------------------------- acknowledging

  /** The id that a command deletes from the index of `b`, or as a copy. */
  function Deletes(b: string, cmd: Cmd): (id: Option<string>)
  {
    match cmd
    case HDel(i, f) => if i == OfflineIdx(b) && f.IdKey? then Some(f.id) else None
    case Del(k) => if k.IdKey? then Some(k.id) else None
    case _ => None
  }

  /** An ack of a login answer queues, for each listing of an id, its two deletes, in the index of this session's
      address, and does nothing else. */
  lemma AckQueues(c: Ctx, id: string, cmd: Cmd)
    requires '@' in c.me.jid && id in c.cache
    ensures ServerAck(c, id) == c.(db := c.db.(pend := ServerAck(c, id).db.pend))
    ensures var x := Deletes(Addr(c.me.jid), cmd);
            ServerAck(c, id).db.pend[cmd] == c.db.pend[cmd] + if x.Some? then multiset(c.cache[id])[x.value] else 0
  {
    ParsesIfAt(c.me.jid);
    AckCmdsAre(Addr(c.me.jid), c.cache[id], cmd);
  }

  lemma {:induction false} AckCmdsAre(b: string, ids: seq<string>, cmd: Cmd)
    ensures var x := Deletes(b, cmd);
            multiset(AckCmds(b, ids))[cmd] == if x.Some? then multiset(ids)[x.value] else 0
    decreases |ids|
  {
    if ids != [] {
      AckCmdsAre(b, ids[1..], cmd);
      AckCmdsFirst(b, ids, cmd);
      assert ids == [ids[0]] + ids[1..];
      assert multiset(ids) == multiset{ids[0]} + multiset(ids[1..]);
    }
  }

  lemma AckCmdsFirst(b: string, ids: seq<string>, cmd: Cmd)
    requires ids != []
    ensures multiset(AckCmds(b, ids))[cmd] ==
            (if Deletes(b, cmd) == Some(ids[0]) then 1 else 0) + multiset(AckCmds(b, ids[1..]))[cmd]
  {
    var two := [HDel(OfflineIdx(b), IdKey(ids[0])), Del(IdKey(ids[0]))];
    assert multiset(two)[cmd] == if Deletes(b, cmd) == Some(ids[0]) then 1 else 0;
    assert AckCmds(b, ids) == two + AckCmds(b, ids[1..]);
  }

  /** Any other ack takes the packet out of the buffer and does nothing else. */
  lemma AckRemoves(c: Ctx, id: string)
    requires '@' in c.me.jid && id !in c.cache
    ensures var r := ServerAck(c, id);
            && id !in r.me.buff
            && (forall x :: x != id && x in c.me.buff ==> x in r.me.buff && r.me.buff[x] == c.me.buff[x])
            && r == c.(me := r.me) && r.me == c.me.(buff := r.me.buff) && r.me.buff.Keys <= c.me.buff.Keys
  {
    ParsesIfAt(c.me.jid);
  }

  // ---------------------------------------------------------------- the packet handler

  predicate IsAck(w: Wire)
  {
    w.Msg? && w.p.mtype == 3 && w.p.to == "server_ack"
  }

  /** The ack of `id` has been done: its deletes are queued if it is the id of a login answer, and the packet has left
      the buffer if it is not. */
  predicate AckDone(jid: string, cache: Cache, buff: map<string, Packet>, pend: multiset<Cmd>, id: string)
  {
    if id in cache
    then forall x :: x in cache[id] ==> HDel(OfflineIdx(Addr(jid)), IdKey(x)) in pend && Del(IdKey(x)) in pend
    else id !in buff
  }

  /** An ack is carried out, and changes nothing but the buffer and the queued commands. */
  lemma AckIsHandled(c: Ctx, i: Input)
    requires OrderFits(c.db.store, i.w, i.order) && !c.me.status.Conn? && IsAck(i.w) && '@' in c.me.jid
    ensures var r := Handle(c, i);
            && AckDone(c.me.jid, c.cache, r.me.buff, r.db.pend, i.w.p.id)
            && r == c.(me := c.me.(buff := r.me.buff), db := c.db.(pend := r.db.pend))
  {
    var id := i.w.p.id;
    if id in c.cache {
      AckQueues(c, id, Del(IdKey(id)));
      forall x | x in c.cache[id]
        ensures HDel(OfflineIdx(Addr(c.me.jid)), IdKey(x)) in ServerAck(c, id).db.pend
        ensures Del(IdKey(x)) in ServerAck(c, id).db.pend
      {
        AckQueues(c, id, HDel(OfflineIdx(Addr(c.me.jid)), IdKey(x)));
        AckQueues(c, id, Del(IdKey(x)));
      }
    } else {
      AckRemoves(c, id);
    }
  }

  /** A session without an address panics on an ack. */
  lemma AckPanics(c: Ctx, i: Input)
    requires OrderFits(c.db.store, i.w, i.order) && !c.me.status.Conn? && IsAck(i.w) && '@' !in c.me.jid
    ensures Handle(c, i) == c.(panicked := true)
  {
    ParsesIfAt(c.me.jid);
  }

  lemma AckEffect(c: Ctx, i: Input)
    requires OrderFits(c.db.store, i.w, i.order) && !c.me.status.Conn? && IsAck(i.w)
    ensures var r := Handle(c, i);
            && (r.panicked || AckDone(r.me.jid, r.cache, r.me.buff, r.db.pend, i.w.p.id))
            && r.me.status == c.me.status
  {
    if '@' in c.me.jid {
      AckIsHandled(c, i);
    } else {
      AckPanics(c, i);
    }
  }

  /** A heartbeat is answered while logged in; what is no packet is answered and closes the session. */
  lemma BeatAndGarbage(c: Ctx, i: Input)
    requires OrderFits(c.db.store, i.w, i.order) && !c.me.status.Conn?
    ensures i.w.Beat? ==> Handle(c, i) == c.(out := c.out + if c.me.status.Login? then [BeatBack] else [])
    ensures i.w.Garbage? ==> Handle(c, i) == CloseSession(c).(out := c.out + [Notify])
  {
    assert c.out + [] == c.out;
  }

  /** A packet that is neither an ack nor for a group is acknowledged if it asks for it, and then routed. */
  lemma PlainIsHandled(c: Ctx, i: Input)
    requires OrderFits(c.db.store, i.w, i.order) && !c.me.status.Conn?
    requires i.w.Msg? && !IsAck(i.w) && i.w.p.mtype != 2
    ensures var said := c.out + if i.w.p.ack != 0 then [AckOf(i.w.p.id)] else [];
            Handle(c, i) == RoutePacket(c.(out := said), i.w.p)
  {
    assert c.out + [] == c.out;
  }

  /** A group packet is acknowledged and its copies are routed, or refused with a notice, or panics. */
  lemma GroupIsHandled(c: Ctx, i: Input)
    requires OrderFits(c.db.store, i.w, i.order) && !c.me.status.Conn?
    requires i.w.Msg? && i.w.p.mtype == 2
    ensures var said := c.(out := c.out + [AckOf(i.w.p.id)]);
            Handle(c, i) == match i.group
                            case Expanded(ps) => RoutePacketList(said, Texts(ps))
                            case NoPermission => c.(out := c.out + [Notify])
                            case NotFound => c.(out := c.out + [Notify])
                            case Crashed => c.(panicked := true)
  {
  }

  ghost predicate HandlesTo(c: Ctx, i: Input, r: Ctx)
  {
    !c.panicked && OrderFits(c.db.store, i.w, i.order) && r == Handle(c, i)
  }

  /** `cs[k]` is the session before the input `k`: all inputs are handled in order, unless one panics, which is then
      the last. */
  ghost predicate HandledInOrder(cs: seq<Ctx>, ins: seq<Input>)
  {
    && 1 <= |cs| <= |ins| + 1
    && (forall k :: 0 <= k < |cs| - 1 ==> HandlesTo(cs[k], ins[k], cs[k + 1]))
    && (|cs| <= |ins| ==> cs[|cs| - 1].panicked)
  }

  lemma HandledFirst(c: Ctx, ins: seq<Input>, rest: seq<Ctx>)
    requires ins != [] && HandledInOrder(rest, ins[1..]) && HandlesTo(c, ins[0], rest[0])
    ensures HandledInOrder([c] + rest, ins)
  {
    var cs := [c] + rest;
    forall k | 0 <= k < |cs| - 1 ensures HandlesTo(cs[k], ins[k], cs[k + 1]) {
      if k == 0 {
        assert cs[k] == c && cs[k + 1] == rest[0];
      } else {
        assert cs[k] == rest[k - 1] && cs[k + 1] == rest[k - 1 + 1] && ins[k] == ins[1..][k - 1];
        assert HandlesTo(rest[k - 1], ins[1..][k - 1], rest[k - 1 + 1]);
      }
    }
  }

  /** What a batch does to a session. */
  lemma {:induction false} BatchIsHandled(c: Ctx, ins: seq<Input>) returns (cs: seq<Ctx>)
    requires OrdersFit(c, ins)
    ensures HandledInOrder(cs, ins) && cs[0] == c && cs[|cs| - 1] == HandleBatch(c, ins)
    decreases |ins|
  {
    if ins == [] || c.panicked {
      cs := [c];
    } else {
      var rest := BatchIsHandled(Handle(c, ins[0]), ins[1..]);
      HandledFirst(c, ins, rest);
      cs := [c] + rest;
    }
  }
}
