/**
 The packet handler of a session takes only steps of the cluster: whatever batch a client sends, the
 session, the database, the cache and the queues end as they do after a list of single steps.
 */
module ClusterHandlers {
  import opened Keys
  import opened Packets
  import opened Redis
  import opened Sessions
  import opened SessionLaws
  import opened Cluster
  import opened ClusterPaths
  import Nodes

  /** The cluster holds what a handler sees. */
  predicate Mirrors(s: State, sid: string, c: Ctx)
  {
    && sid in s.sess && c.me == s.sess[sid]
    && c.db == s.db && c.cache == CacheAt(s, c.me.chan) && c.routeQ == Queue(s, c.me.chan) && c.clean == s.clean
  }

  /** The packets are plain, different, and not yet known. */
  predicate NewIds(known: set<string>, ps: seq<Packet>)
    decreases |ps|
  {
    ps == [] || (ps[0].id !in known && PlainId(ps[0].id) && NewIds(known + {ps[0].id}, ps[1..]))
  }

  /** The packets that a handled input routes. */
  function Sent(c: Ctx, i: Input): (r: seq<Packet>)
  {
    if c.me.status.Conn? || !i.w.Msg? || (i.w.p.mtype == MSG_TYPE_STATE && i.w.p.to == SERVER_ACK) then []
    else if i.w.p.mtype == MSG_TYPE_GROUP_CHAT then (if i.group.Expanded? then Texts(i.group.packets) else [])
    else [i.w.p]
  }

  /** Every packet a batch routes is new when it is routed. */
  ghost predicate BatchNew(known: set<string>, c: Ctx, ins: seq<Input>)
    requires OrdersFit(c, ins)
    decreases |ins|
  {
    || ins == [] || c.panicked
    || (&& NewIds(known, Sent(c, ins[0]))
        && BatchNew(known + (set p | p in Sent(c, ins[0]) :: p.id), Handle(c, ins[0]), ins[1..]))
  }

  lemma FirstId(ps: seq<Packet>)
    requires ps != []
    ensures (set p | p in ps :: p.id) == {ps[0].id} + set p | p in ps[1..] :: p.id
  {
    assert ps == [ps[0]] + ps[1..];
  }

  /** Equal up to what was written to the client. */
  predicate Alike(c: Ctx, d: Ctx)
  {
    c.me == d.me && c.db == d.db && c.cache == d.cache && c.routeQ == d.routeQ && c.clean == d.clean
  }

  lemma BackMirrors(s: State, sid: string, c: Ctx, d: Ctx)
    requires sid in s.sess && c.me.chan == s.sess[sid].chan && Alike(c, d)
    ensures Mirrors(Back(s, sid, c), sid, d)
  {
  }

  lemma RouteAlike(c: Ctx, d: Ctx, p: Packet)
    requires Alike(c, d)
    ensures Alike(RoutePacket(c, p), RoutePacket(d, p))
    ensures RoutePacket(c, p).me.status == c.me.status && RoutePacket(c, p).me.chan == c.me.chan
  {
  }

  lemma SubmitMirrors(s: State, sid: string, c: Ctx, p: Packet)
    requires Mirrors(s, sid, c)
    ensures Mirrors(Submitted(s, sid, p), sid, RoutePacket(c, p))
    ensures Submitted(s, sid, p).log.Keys == s.log.Keys + {p.id}
    ensures RoutePacket(c, p).me.status == c.me.status
  {
    var v := View(s, sid);
    RouteAlike(v, c, p);
    BackMirrors(s, sid, RoutePacket(v, p), RoutePacket(c, p));
  }

  lemma AckMirrors(s: State, sid: string, c: Ctx, id: string)
    requires Mirrors(s, sid, c)
    ensures Mirrors(AckAt(s, sid, id), sid, ServerAck(c, id))
    ensures AckAt(s, sid, id).log.Keys == s.log.Keys
  {
    var v := View(s, sid);
    AckAlike(v, c, id);
    BackMirrors(s, sid, ServerAck(v, id), ServerAck(c, id));
    AckKeepsIds(s, sid, id);
  }

  lemma AckAlike(c: Ctx, d: Ctx, id: string)
    requires Alike(c, d)
    ensures Alike(ServerAck(c, id), ServerAck(d, id)) && ServerAck(c, id).me.chan == c.me.chan
  {
  }

  lemma AckKeepsIds(s: State, sid: string, id: string)
    requires sid in s.sess
    ensures AckLog(s, sid, id).Keys == s.log.Keys
  {
  }

  lemma CloseMirrors(s: State, sid: string, c: Ctx)
    requires Mirrors(s, sid, c)
    ensures Mirrors(CloseAt(s, sid), sid, CloseSession(c))
    ensures CloseAt(s, sid).log.Keys == s.log.Keys
  {
  }

  lemma KickAlike(c: Ctx, d: Ctx, w: Wire)
    requires Alike(c, d)
    ensures Alike(KillPrevious(c, w), KillPrevious(d, w)) && KillPrevious(c, w).me == c.me
    ensures KillPrevious(c, w).db == c.db
  {
  }

  lemma OpenAlike(c: Ctx, d: Ctx, w: Wire, auth: bool, order: seq<Key>)
    requires Alike(c, d) && OrderFits(c.db.store, w, order)
    ensures Alike(OpenSession(c, w, auth, order), OpenSession(d, w, auth, order))
    ensures OpenSession(c, w, auth, order).me.chan == c.me.chan
  {
    var c1, d1 := KillPrevious(c, w), KillPrevious(d, w);
    KickAlike(c, d, w);
    match Verify(w, auth)
    case Some(reason) => CloseAlike(Say(c1, AuthFail(reason)), Say(d1, AuthFail(reason)));
    case None => LogInAlike(c1, d1, w.p, order);
  }

  lemma CloseAlike(c: Ctx, d: Ctx)
    requires Alike(c, d)
    ensures Alike(CloseSession(c), CloseSession(d)) && CloseSession(c).me.chan == c.me.chan
  {
  }

  lemma LogInAlike(c: Ctx, d: Ctx, p: Packet, order: seq<Key>)
    requires Alike(c, d) && forall k :: k in order ==> k in Fields(c.db.store, OfflineIdx(Addr(p.jid)))
    ensures Alike(LogIn(c, p, order), LogIn(d, p, order)) && LogIn(c, p, order).me.chan == c.me.chan
  {
  }

  lemma OpenMirrors(s: State, sid: string, c: Ctx, w: Wire, auth: bool, order: seq<Key>)
    requires Mirrors(s, sid, c) && OrderFits(s.db.store, w, order)
    ensures Mirrors(Opened(s, sid, w, auth, order), sid, OpenSession(c, w, auth, order))
    ensures Opened(s, sid, w, auth, order).log.Keys == s.log.Keys
  {
    var v := View(s, sid);
    OpenAlike(v, c, w, auth, order);
    BackMirrors(s, sid, OpenSession(v, w, auth, order), OpenSession(c, w, auth, order));
    assert FlushLog(s, sid).Keys == s.log.Keys;
  }

  /** The steps submit the packets in order, all of them unless the handler panicked. */
  predicate SubmitsUpTo(sid: string, ps: seq<Packet>, ev: seq<Event>, panicked: bool)
  {
    && |ev| <= |ps| && (forall k :: 0 <= k < |ev| ==> ev[k] == Submit(sid, ps[k]))
    && (|ev| < |ps| ==> panicked)
  }

  lemma SubmitsFirst(sid: string, ps: seq<Packet>, rest: seq<Event>, panicked: bool)
    requires ps != [] && SubmitsUpTo(sid, ps[1..], rest, panicked)
    ensures SubmitsUpTo(sid, ps, [Submit(sid, ps[0])] + rest, panicked)
  {
    var ev := [Submit(sid, ps[0])] + rest;
    forall k | 0 <= k < |ev| ensures ev[k] == Submit(sid, ps[k]) {
      if k > 0 {
        assert ev[k] == rest[k - 1] && ps[k] == ps[1..][k - 1];
      }
    }
  }

  /** A routed list is a list of single submissions, cut short by a panic. */
  lemma {:induction false} ListIsSteps(s: State, sid: string, c: Ctx, unique: bool, known: set<string>, ps: seq<Packet>)
    returns (ev: seq<Event>, t: State)
    requires Mirrors(s, sid, c) && !c.me.status.Conn? && (unique ==> s.log.Keys <= known && NewIds(known, ps))
    ensures Leads(s, ev, t, unique) && Mirrors(t, sid, RoutePacketList(c, ps))
    ensures SubmitsUpTo(sid, ps, ev, RoutePacketList(c, ps).panicked)
    ensures unique ==> t.log.Keys <= known + set p | p in ps :: p.id
    decreases |ps|
  {
    if ps == [] || c.panicked {
      ev, t := [], s;
    } else {
      var e := Submit(sid, ps[0]);
      SubmitMirrors(s, sid, c, ps[0]);
      var rest;
      rest, t := ListIsSteps(Submitted(s, sid, ps[0]), sid, RoutePacket(c, ps[0]), unique, known + {ps[0].id}, ps[1..]);
      ev := [e] + rest;
      LeadsThen(s, e, rest, t, unique);
      SubmitsFirst(sid, ps, rest, RoutePacketList(c, ps).panicked);
      FirstId(ps);
    }
  }

  /** The steps that handling an input takes, in the order in which they happen. */
  ghost predicate Takes(sid: string, c: Ctx, i: Input, r: Ctx, ev: seq<Event>)
  {
    if c.me.status.Conn? then ev == [Open(sid, i.w, i.auth, i.order)]
    else match i.w
      case Beat => ev == []
      case Garbage => ev == [Shut(sid)]
      case Msg(p) =>
        if p.mtype == MSG_TYPE_STATE && p.to == SERVER_ACK then ev == [Ack(sid, p.id)]
        else if p.mtype != MSG_TYPE_GROUP_CHAT then ev == [Submit(sid, p)]
        else if i.group.Expanded? then SubmitsUpTo(sid, Texts(i.group.packets), ev, r.panicked)
        else ev == []
  }

  /** Handling one packet. */
  lemma HandleIsSteps(s: State, sid: string, c: Ctx, unique: bool, known: set<string>, i: Input)
    returns (ev: seq<Event>, t: State)
    requires Mirrors(s, sid, c) && OrderFits(c.db.store, i.w, i.order)
    requires unique ==> s.log.Keys <= known && NewIds(known, Sent(c, i))
    ensures Leads(s, ev, t, unique) && Mirrors(t, sid, Handle(c, i)) && Takes(sid, c, i, Handle(c, i), ev)
    ensures c.me.status.Conn? ==> ev == [Open(sid, i.w, i.auth, i.order)]
    ensures !c.me.status.Conn? && i.w.Garbage? ==> ev == [Shut(sid)]
    ensures !c.me.status.Conn? && i.w.Beat? ==> ev == []
    ensures !c.me.status.Conn? && IsAck(i.w) ==> ev == [Ack(sid, i.w.p.id)]
    ensures !c.me.status.Conn? && i.w.Msg? && !IsAck(i.w) && i.w.p.mtype != 2 ==> ev == [Submit(sid, i.w.p)]
    ensures !c.me.status.Conn? && i.w.Msg? && i.w.p.mtype == 2 && i.group.Expanded? ==>
              SubmitsUpTo(sid, Texts(i.group.packets), ev, Handle(c, i).panicked)
    ensures unique ==> t.log.Keys <= known + set p | p in Sent(c, i) :: p.id
  {
    ev, t := [], s;
    if c.me.status.Conn? {
      var e := Open(sid, i.w, i.auth, i.order);
      OpenMirrors(s, sid, c, i.w, i.auth, i.order);
      LeadsOne(s, e, unique);
      ev, t := [e], Opened(s, sid, i.w, i.auth, i.order);
    } else if i.w.Garbage? {
      CloseMirrors(s, sid, Say(c, Notify));
      LeadsOne(s, Shut(sid), unique);
      ev, t := [Shut(sid)], CloseAt(s, sid);
    } else if i.w.Msg? {
      ev, t := MessageIsSteps(s, sid, c, unique, known, i);
    }
  }

  lemma MessageIsSteps(s: State, sid: string, c: Ctx, unique: bool, known: set<string>, i: Input)
    returns (ev: seq<Event>, t: State)
    requires Mirrors(s, sid, c) && OrderFits(c.db.store, i.w, i.order) && !c.me.status.Conn? && i.w.Msg?
    requires unique ==> s.log.Keys <= known && NewIds(known, Sent(c, i))
    ensures Leads(s, ev, t, unique) && Mirrors(t, sid, Handle(c, i)) && Takes(sid, c, i, Handle(c, i), ev)
    ensures unique ==> t.log.Keys <= known + set p | p in Sent(c, i) :: p.id
  {
    var p := i.w.p;
    if p.mtype == MSG_TYPE_STATE && p.to == SERVER_ACK {
      AckMirrors(s, sid, c, p.id);
      LeadsOne(s, Ack(sid, p.id), unique);
      ev, t := [Ack(sid, p.id)], AckAt(s, sid, p.id);
    } else if p.mtype == MSG_TYPE_GROUP_CHAT {
      ev, t := GroupIsSteps(s, sid, c, unique, known, i);
    } else {
      ev, t := PlainIsSteps(s, sid, c, unique, known, i);
    }
  }

  lemma PlainIsSteps(s: State, sid: string, c: Ctx, unique: bool, known: set<string>, i: Input)
    returns (ev: seq<Event>, t: State)
    requires Mirrors(s, sid, c) && OrderFits(c.db.store, i.w, i.order) && !c.me.status.Conn?
    requires i.w.Msg? && !(i.w.p.mtype == MSG_TYPE_STATE && i.w.p.to == SERVER_ACK)
    requires i.w.p.mtype != MSG_TYPE_GROUP_CHAT
    requires unique ==> s.log.Keys <= known && NewIds(known, Sent(c, i))
    ensures Leads(s, ev, t, unique) && Mirrors(t, sid, Handle(c, i)) && Takes(sid, c, i, Handle(c, i), ev)
    ensures unique ==> t.log.Keys <= known + set p | p in Sent(c, i) :: p.id
  {
    var p := i.w.p;
    var c1 := if p.ack != 0 then Say(c, AckOf(p.id)) else c;
    HandlePlain(c, i);
    SubmitMirrors(s, sid, c1, p);
    LeadsOne(s, Submit(sid, p), unique);
    ev, t := [Submit(sid, p)], Submitted(s, sid, p);
  }

  lemma HandlePlain(c: Ctx, i: Input)
    requires OrderFits(c.db.store, i.w, i.order) && !c.me.status.Conn?
    requires i.w.Msg? && !(i.w.p.mtype == MSG_TYPE_STATE && i.w.p.to == SERVER_ACK)
    requires i.w.p.mtype != MSG_TYPE_GROUP_CHAT
    ensures Handle(c, i) == RoutePacket(if i.w.p.ack != 0 then Say(c, AckOf(i.w.p.id)) else c, i.w.p)
    ensures Sent(c, i) == [i.w.p] && (set p | p in Sent(c, i) :: p.id) == {i.w.p.id}
  {
    assert i.w.p in Sent(c, i);
  }

  lemma GroupIsSteps(s: State, sid: string, c: Ctx, unique: bool, known: set<string>, i: Input)
    returns (ev: seq<Event>, t: State)
    requires Mirrors(s, sid, c) && OrderFits(c.db.store, i.w, i.order) && !c.me.status.Conn?
    requires i.w.Msg? && i.w.p.mtype == MSG_TYPE_GROUP_CHAT
    requires unique ==> s.log.Keys <= known && NewIds(known, Sent(c, i))
    ensures Leads(s, ev, t, unique) && Mirrors(t, sid, Handle(c, i)) && Takes(sid, c, i, Handle(c, i), ev)
    ensures unique ==> t.log.Keys <= known + set p | p in Sent(c, i) :: p.id
  {
    ev, t := [], s;
    if i.group.Expanded? {
      ev, t := ListIsSteps(s, sid, Say(c, AckOf(i.w.p.id)), unique, known, Texts(i.group.packets));
    }
  }

  function Flatten(parts: seq<seq<Event>>): (r: seq<Event>)
  {
    if parts == [] then [] else parts[0] + Flatten(parts[1..])
  }

  /** The inputs are handled one after the other, each with its own steps, up to a panic. */
  ghost predicate TakesAll(sid: string, c: Ctx, ins: seq<Input>, parts: seq<seq<Event>>)
    requires OrdersFit(c, ins)
    decreases |ins|
  {
    if ins == [] || c.panicked then parts == []
    else
      && parts != [] && Takes(sid, c, ins[0], Handle(c, ins[0]), parts[0])
      && TakesAll(sid, Handle(c, ins[0]), ins[1..], parts[1..])
  }

  /** The packet handler refines the cluster, with new ids if the ids are new. */
  lemma {:induction false} BatchIsSteps(s: State, sid: string, c: Ctx, unique: bool, known: set<string>,
                                        ins: seq<Input>)
    returns (parts: seq<seq<Event>>, t: State)
    requires Mirrors(s, sid, c) && OrdersFit(c, ins) && (unique ==> s.log.Keys <= known && BatchNew(known, c, ins))
    ensures Leads(s, Flatten(parts), t, unique) && Mirrors(t, sid, HandleBatch(c, ins)) && TakesAll(sid, c, ins, parts)
    ensures |parts| <= |ins| && (|parts| < |ins| ==> HandleBatch(c, ins).panicked)
    decreases |ins|
  {
    parts, t := [], s;
    if ins != [] && !c.panicked {
      var first, m := HandleIsSteps(s, sid, c, unique, known, ins[0]);
      var rest;
      var known1 := known + set p | p in Sent(c, ins[0]) :: p.id;
      rest, t := BatchIsSteps(m, sid, Handle(c, ins[0]), unique, known1, ins[1..]);
      parts := [first] + rest;
      LeadsOn(s, first, m, Flatten(rest), t, unique);
    }
  }

  // ---------------------------------------------------------------- the node

  /** What Route puts in a queue: a packet, or the kill signal. */
  predicate Routed(it: Item)
  {
    if it.pkt.Some? then it.signal == 0 else it.signal == KILL
  }

  lemma KillMirrors(s: State, sid: string, c: Ctx)
    requires Mirrors(s, sid, c)
    ensures Mirrors(CloseAt(s, sid), sid, Kill(c))
  {
    CloseMirrors(s, sid, Say(c, KillSignal));
  }

  lemma DeliverMirrors(s: State, sid: string, c: Ctx, p: Packet)
    requires Mirrors(s, sid, c)
    ensures Mirrors(Delivered(s, sid, p), sid, RoutePacket(c, p))
  {
    var v := View(s, sid);
    RouteAlike(v, c, p);
    BackMirrors(s, sid, RoutePacket(v, p), RoutePacket(c, p));
  }

  /** What a worker of a node does to the session an item names is the Worker step. */
  lemma ServeIsWork(s: State, chan: string, it: Item, rpcOk: bool, c: Ctx)
    requires Routed(it) && Local(chan, it) && Found(s, chan, it.sid) && Mirrors(Taken(s, chan, it), it.sid, c)
    ensures Mirrors(Work(s, chan, it, rpcOk), it.sid, Nodes.Node.Served(c, it))
  {
    var s1 := Taken(s, chan, it);
    match it.pkt
    case None => KillMirrors(s1, it.sid, c);
    case Some(p) => DeliverMirrors(s1, it.sid, c, p);
  }

  /** Node.routePacket is what the Arrive and Expand steps do to the database and the queue. */
  lemma DispatchIsNodeRoute(s: State, chan: string, p: Packet)
    ensures var t := NodeRoute(s, chan, p);
            (t.db, Queue(t, chan)) == Nodes.Dispatch(s.db, Queue(s, chan), p)
  {
    DispatchesDb(s, chan, p);
    DispatchesQueue(s, chan, p);
  }

  lemma DispatchesDb(s: State, chan: string, p: Packet)
    ensures NodeRoute(s, chan, p).db == Nodes.Dispatch(s.db, Queue(s, chan), p).0
  {
  }

  lemma DispatchesQueue(s: State, chan: string, p: Packet)
    ensures Queue(NodeRoute(s, chan, p), chan) == Nodes.Dispatch(s.db, Queue(s, chan), p).1
  {
  }
}
