/** Every step of the cluster keeps the invariant. */
module ClusterEvents {
  import opened Options
  import opened Keys
  import opened Packets
  import opened Redis
  import opened Database
  import opened Sessions
  import opened Cluster
  import opened ClusterInv
  import opened ClusterSteps
  import opened ClusterWrites

  // ---------------------------------------------------------------- connections and tables

  lemma AcceptOk(s: State, t: State, sid: string, chan: string, nodeid: string)
    requires Inv(s) && sid !in s.sess
    requires t == s.(sess := s.sess[sid := Sess(sid, chan, nodeid, Conn, "", map[])])
    ensures Inv(t)
  {
    AcceptLink(s, t, sid, chan, nodeid);
    MorePending(s.db, t.db);
    AcceptBuffers(s, t, sid, chan, nodeid);
    FrameQueues(s, t, {}, InLimbo, InLimbo);
    FrameHops(s, t, {}, InLimbo, InLimbo);
    FramePend(s, t, {}, InLimbo, InLimbo);
    FrameIndex(s, t, {}, InLimbo, InLimbo);
    FrameCaches(s, t, {}, InLimbo, InLimbo);
    FrameRegistry(s, t);
    FrameClean(s, t);
  }

  lemma AcceptLink(s: State, t: State, sid: string, chan: string, nodeid: string)
    requires sid !in s.sess && t == s.(sess := s.sess[sid := Sess(sid, chan, nodeid, Conn, "", map[])])
    ensures Link(s, t, {}, InLimbo, InLimbo) && SameStatus(s, t)
  {
  }

  lemma AcceptBuffers(s: State, t: State, sid: string, chan: string, nodeid: string)
    requires BuffersOk(s) && sid !in s.sess && t == s.(sess := s.sess[sid := Sess(sid, chan, nodeid, Conn, "", map[])])
    ensures BuffersOk(t)
  {
    forall x | x in t.sess ensures BufferOk(t, x) {
      if x != sid { assert BufferOk(s, x); }
    }
  }

  /** Table and clean channel are read by no other part of the invariant. */
  lemma TableOk(s: State, t: State)
    requires Inv(s) && t == s.(table := t.table, clean := t.clean) && CleanOk(t)
    ensures Inv(t)
  {
    StayLink(s, t);
    MorePending(s.db, t.db);
    FrameTransport(s, t, {}, InLimbo, InLimbo);
    FramePend(s, t, {}, InLimbo, InLimbo);
    FrameIndex(s, t, {}, InLimbo, InLimbo);
    FrameCaches(s, t, {}, InLimbo, InLimbo);
    FrameRegistry(s, t);
  }

  // ---------------------------------------------------------------- sessions

  lemma BackStays(s: State, sid: string, c: Ctx)
    requires sid in s.sess
    requires c.me == s.sess[sid] && c.db == s.db && c.clean == s.clean
    requires c.cache == CacheAt(s, s.sess[sid].chan) && c.routeQ == Queue(s, s.sess[sid].chan)
    ensures Equivalent(s, Back(s, sid, c))
  {
  }

  /** What a handler leaves behind, by what it did to its node's queue and cache. */
  lemma BackShape(s: State, sid: string, c: Ctx)
    requires sid in s.sess
    ensures var t, chan := Back(s, sid, c), s.sess[sid].chan;
            && t.sess == s.sess[sid := c.me] && t.db == c.db && t.clean == c.clean
            && t.log == s.log && t.table == s.table && t.latest == s.latest && SameHops(s, t)
            && (c.routeQ == Queue(s, chan) ==> SameQueues(s, t)) && (c.cache == CacheAt(s, chan) ==> SameCaches(s, t))
  {
  }

  lemma CloseShape(c: Ctx)
    requires !c.me.status.Close?
    ensures var d := CloseSession(c);
            && d.me == c.me.(status := Close) && d.routeQ == c.routeQ && d.cache == c.cache
            && d.clean == c.clean + multiset{c.me.sid}
            && d.db == c.db.(pend := c.db.pend + DropCmds(c.me) + multiset(FlushCmds(c.me.buff)))
  {
  }

  lemma CloseAtOk(s: State, sid: string)
    requires Inv(s) && sid in s.sess
    ensures Inv(CloseAt(s, sid))
  {
    var t := CloseAt(s, sid);
    if s.sess[sid].status.Close? {
      BackStays(s, sid, View(s, sid));
      StayOk(s, t);
    } else {
      assert BufferOk(s, sid);
      CloseAtCloses(s, sid);
      CloseOk(s, t, sid);
    }
  }

  lemma CloseAtCloses(s: State, sid: string)
    requires sid in s.sess && !s.sess[sid].status.Close? && s.sess[sid].sid == sid
    ensures Closes(s, CloseAt(s, sid), sid)
  {
    CloseShape(View(s, sid));
    BackShape(s, sid, CloseSession(View(s, sid)));
    FlushRefates(s, CloseAt(s, sid), sid);
    SameButLog(s, Back(s, sid, CloseSession(View(s, sid))), CloseAt(s, sid));
  }

  lemma SameButLog(s: State, t: State, u: State)
    requires u == t.(log := u.log)
    ensures SameQueues(s, t) ==> SameQueues(s, u)
    ensures SameHops(s, t) ==> SameHops(s, u)
    ensures SameCaches(s, t) ==> SameCaches(s, u)
  {
  }

  /** The state after verify has asked for the previous session to be killed. */
  ghost function AfterKill(s: State, sid: string, w: Wire): (r: State)
    requires sid in s.sess
  {
    Back(s, sid, KillPrevious(View(s, sid), w))
  }

  lemma AfterKillOk(s: State, sid: string, w: Wire)
    requires Inv(s) && sid in s.sess
    ensures Inv(AfterKill(s, sid, w))
  {
    var c := KillPrevious(View(s, sid), w);
    var t := AfterKill(s, sid, w);
    var chan := s.sess[sid].chan;
    if c.routeQ == Queue(s, chan) {
      BackStays(s, sid, c);
      StayOk(s, t);
    } else {
      var v := Get(s.db.store, SessionKey(Addr(w.p.jid))).value;
      KillQueued(s, t, sid, KillItem(v));
      SignalOk(s, t, KillItem(v));
    }
  }

  lemma KillQueued(s: State, t: State, sid: string, it: Item)
    requires sid in s.sess && t == s.(sess := s.sess[sid := s.sess[sid]], caches := t.caches, routeQ := t.routeQ)
    requires t.caches == s.caches[s.sess[sid].chan := CacheAt(s, s.sess[sid].chan)]
    requires t.routeQ == s.routeQ[s.sess[sid].chan := Queue(s, s.sess[sid].chan) + multiset{it}]
    ensures QueuesBut(s, t, it) && SameCaches(s, t) && SameHops(s, t) && t.sess == s.sess
  {
  }

  lemma OpenFails(s: State, sid: string, w: Wire, auth: bool, order: seq<Key>)
    requires sid in s.sess && s.sess[sid].status.Conn? && s.sess[sid].sid == sid
    requires OrderFits(s.db.store, w, order) && Verify(w, auth).Some?
    ensures Closes(AfterKill(s, sid, w), Opened(s, sid, w, auth, order), sid)
  {
    var u := AfterKill(s, sid, w);
    KickOnly(View(s, sid), w);
    assert u.sess == s.sess;
    OpenFailsIs(s, sid, w, auth, order);
    CloseAtCloses(u, sid);
  }

  lemma OpenFailsIs(s: State, sid: string, w: Wire, auth: bool, order: seq<Key>)
    requires sid in s.sess && OrderFits(s.db.store, w, order) && Verify(w, auth).Some?
    ensures sid in AfterKill(s, sid, w).sess && Opened(s, sid, w, auth, order) == CloseAt(AfterKill(s, sid, w), sid)
  {
    var c := KillPrevious(View(s, sid), w);
    var d := CloseSession(Say(c, AuthFail(Verify(w, auth).value)));
    KickOnly(View(s, sid), w);
    ViewAfterKill(s, sid, w);
    BackTwice(s, sid, c, CloseSession(c));
    assert Back(s, sid, CloseSession(c)) == Back(s, sid, d);
    assert AfterKill(s, sid, w).log == s.log && AfterKill(s, sid, w).sess == s.sess;
  }

  lemma KickOnly(c: Ctx, w: Wire)
    ensures KillPrevious(c, w) == c.(routeQ := KillPrevious(c, w).routeQ)
  {
  }

  lemma ViewAfterKill(s: State, sid: string, w: Wire)
    requires sid in s.sess
    ensures View(AfterKill(s, sid, w), sid) == KillPrevious(View(s, sid), w)
  {
  }

  lemma BackTwice(s: State, sid: string, c: Ctx, d: Ctx)
    requires sid in s.sess && c.me.chan == s.sess[sid].chan
    ensures Back(Back(s, sid, c), sid, d) == Back(s, sid, d)
  {
  }

  /** What a node sees after a handler has run on it. */
  lemma BackIs(s: State, sid: string, c: Ctx, chan: string)
    requires sid in s.sess && chan == s.sess[sid].chan
    ensures CacheAt(Back(s, sid, c), chan) == c.cache && Queue(Back(s, sid, c), chan) == c.routeQ
    ensures forall x :: x != chan ==> CacheAt(Back(s, sid, c), x) == CacheAt(s, x)
    ensures forall x :: x != chan ==> Queue(Back(s, sid, c), x) == Queue(s, x)
  {
  }

  lemma LogInLogsIn(s: State, t: State, sid: string, p: Packet, order: seq<Key>)
    requires sid in s.sess && s.sess[sid].status.Conn? && BareOf(p.jid).Some?
    requires forall k :: k in order ==> k in Fields(s.db.store, OfflineIdx(Addr(p.jid)))
    requires t == Back(s, sid, LogIn(View(s, sid), p, order)).(latest := s.latest[Addr(p.jid) := sid])
    ensures LogsIn(s, t, sid, p, order)
  {
    var c := LogIn(View(s, sid), p, order);
    LogInShape(View(s, sid), p, order);
    BackShape(s, sid, c);
    BackIs(s, sid, c, s.sess[sid].chan);
    SameButLatest(s, Back(s, sid, c), t);
  }

  lemma LogInShape(c: Ctx, p: Packet, order: seq<Key>)
    requires forall k :: k in order ==> k in Fields(c.db.store, OfflineIdx(Addr(p.jid)))
    ensures var d := LogIn(c, p, order);
            var delay := DelayList(c.db.store, p.jid, order);
            && d.me == c.me.(jid := p.jid, status := Login) && d.routeQ == c.routeQ && d.clean == c.clean
            && d.cache == (if delay == [] then c.cache else c.cache[p.id := Ids(delay)])
            && d.db == PutIdx(c.db, NodeIdx(d.me.nodeid), SessionKey(Addr(p.jid)), StatusOf(d.me))
  {
  }

  lemma SameButLatest(s: State, t: State, u: State)
    requires u == t.(latest := u.latest)
    ensures SameQueues(s, t) ==> SameQueues(s, u)
    ensures SameHops(s, t) ==> SameHops(s, u)
    ensures forall x :: CacheAt(u, x) == CacheAt(t, x)
  {
  }

  lemma OpenSucceeds(s: State, sid: string, w: Wire, auth: bool, order: seq<Key>)
    requires sid in s.sess && s.sess[sid].status.Conn? && OrderFits(s.db.store, w, order) && Verify(w, auth).None?
    ensures LogsIn(AfterKill(s, sid, w), Opened(s, sid, w, auth, order), sid, w.p, order)
  {
    var c := KillPrevious(View(s, sid), w);
    var u := AfterKill(s, sid, w);
    ViewAfterKill(s, sid, w);
    BackTwice(s, sid, c, LogIn(c, w.p, order));
    LogInLogsIn(u, Opened(s, sid, w, auth, order), sid, w.p, order);
  }

  lemma OpenOk(s: State, sid: string, w: Wire, auth: bool, order: seq<Key>)
    requires Inv(s) && sid in s.sess && s.sess[sid].status.Conn? && OrderFits(s.db.store, w, order)
    ensures Inv(Opened(s, sid, w, auth, order))
  {
    var u := AfterKill(s, sid, w);
    var t := Opened(s, sid, w, auth, order);
    AfterKillOk(s, sid, w);
    assert BufferOk(s, sid);
    if Verify(w, auth).None? {
      OpenSucceeds(s, sid, w, auth, order);
      LogInOk(u, t, sid, w.p, order);
    } else {
      OpenFails(s, sid, w, auth, order);
      CloseOk(u, t, sid);
    }
  }

  // ---------------------------------------------------------------- acknowledgements

  lemma AckAtList(s: State, sid: string, id: string)
    requires CachesOk(s) && sid in s.sess && BareOf(s.sess[sid].jid).Some? && id in CacheAt(s, s.sess[sid].chan)
    ensures AcksList(s, AckAt(s, sid, id), Addr(s.sess[sid].jid), CacheAt(s, s.sess[sid].chan)[id])
  {
    var ids := CacheAt(s, s.sess[sid].chan)[id];
    var c := ServerAck(View(s, sid), id);
    forall x | x in ids ensures Settled(s, x) {}
    AckLogRefates(s, sid, id);
    AckListShape(View(s, sid), id);
    BackShape(s, sid, c);
    SameButLog(s, Back(s, sid, c), AckAt(s, sid, id));
    assert s.sess[sid := s.sess[sid]] == s.sess;
  }

  lemma AckListShape(c: Ctx, id: string)
    requires BareOf(c.me.jid).Some? && id in c.cache
    ensures ServerAck(c, id) == c.(db := c.db.(pend := c.db.pend + multiset(AckCmds(Addr(c.me.jid), c.cache[id]))))
  {
  }

  lemma AckLogRefates(s: State, sid: string, id: string)
    requires sid in s.sess && BareOf(s.sess[sid].jid).Some? && id in CacheAt(s, s.sess[sid].chan)
    requires forall x :: x in CacheAt(s, s.sess[sid].chan)[id] ==> Settled(s, x)
    ensures Refate(s, s.(log := AckLog(s, sid, id)),
                   Waiting(s, Addr(s.sess[sid].jid), CacheAt(s, s.sess[sid].chan)[id]), Acked)
  {
  }

  lemma AckAtPacket(s: State, sid: string, id: string)
    requires sid in s.sess && !s.sess[sid].status.Conn? && BareOf(s.sess[sid].jid).Some?
    requires id !in CacheAt(s, s.sess[sid].chan)
    requires BufferOk(s, sid)
    ensures AcksPacket(s, AckAt(s, sid, id), sid, id)
  {
    AckPacketRefates(s, sid, id);
    var me := s.sess[sid];
    var c := View(s, sid).(me := me.(buff := me.buff - {id}));
    assert ServerAck(View(s, sid), id) == c;
    BackShape(s, sid, c);
    SameButLog(s, Back(s, sid, c), AckAt(s, sid, id));
  }

  lemma AckPacketRefates(s: State, sid: string, id: string)
    requires sid in s.sess && BareOf(s.sess[sid].jid).Some? && id !in CacheAt(s, s.sess[sid].chan) && BufferOk(s, sid)
    ensures Refate(s, s.(log := AckLog(s, sid, id)), AckedNow(s, sid, id), Acked)
  {
  }

  lemma AckOk(s: State, sid: string, id: string)
    requires Inv(s) && sid in s.sess && !s.sess[sid].status.Conn?
    ensures Inv(AckAt(s, sid, id))
  {
    var t := AckAt(s, sid, id);
    assert BufferOk(s, sid);
    if BareOf(s.sess[sid].jid).None? {
      BackStays(s, sid, ServerAck(View(s, sid), id));
      StayOk(s, t);
    } else if id in CacheAt(s, s.sess[sid].chan) {
      AckAtList(s, sid, id);
      AckListOk(s, t, Addr(s.sess[sid].jid), CacheAt(s, s.sess[sid].chan)[id]);
    } else {
      AckAtPacket(s, sid, id);
      AckPacketOk(s, t, sid, id);
    }
  }

  // ---------------------------------------------------------------- packets on their way

  /** A packet that has entered and is nowhere yet. */
  ghost predicate Loose(s: State, p: Packet)
  {
    Known(s, p) && Limbo(s.log[p.id].fate)
  }

  lemma ShapeOfQueue(s: State, chan: string, q: multiset<Item>, p: Packet, f: Fate)
    requires Known(s, p)
    ensures var t := Record(s.(routeQ := s.routeQ[chan := q]), p, f);
            Moves(s, t, p, f) && QueueIs(s, t, chan, q) && SameHops(s, t) && SameCaches(s, t) && t.db == s.db
  {
  }

  lemma ShapeOfHops(s: State, chan: string, q: multiset<Packet>, p: Packet, f: Fate)
    requires Known(s, p)
    ensures var t := Record(s.(dataCh := s.dataCh[chan := q]), p, f);
            Moves(s, t, p, f) && HopsAre(s, t, chan, q) && SameQueues(s, t) && SameCaches(s, t) && t.db == s.db
  {
  }

  lemma ShapeOfDb(s: State, d: Db, p: Packet, f: Fate)
    requires Known(s, p)
    ensures var t := Record(s.(db := d), p, f);
            Moves(s, t, p, f) && SameQueues(s, t) && SameHops(s, t) && SameCaches(s, t) && t.db == d
  {
  }

  lemma ShapeOfBack(s: State, sid: string, c: Ctx, p: Packet, f: Fate)
    requires Known(s, p) && sid in s.sess && c.me == s.sess[sid] && c.clean == s.clean
    requires c.cache == CacheAt(s, s.sess[sid].chan)
    ensures var t := Record(Back(s, sid, c), p, f);
            && Moves(s, t, p, f) && QueueIs(s, t, s.sess[sid].chan, c.routeQ) && SameHops(s, t) && SameCaches(s, t)
            && t.db == c.db
  {
    BackIs(s, sid, c, s.sess[sid].chan);
  }

  /** An entry in the log made twice. */
  lemma RecordTwice(s: State, p: Packet, f: Fate, g: Fate)
    ensures Record(Record(s, p, f), p, g) == Record(s, p, g)
  {
    assert s.log[p.id := Track(p, f)][p.id := Track(p, g)] == s.log[p.id := Track(p, g)];
  }

  lemma SameQueue(s: State, t: State, chan: string)
    requires QueueIs(s, t, chan, Queue(s, chan))
    ensures SameQueues(s, t)
  {
  }

  lemma RegistryServes(s: State, p: Packet, v: Val)
    requires RegistryOk(s) && BareOf(p.to).Some? && Get(s.db.store, SessionKey(Owner(p))) == Some(v)
    ensures var it := PacketItem(v, p);
            Serves(s, it.sid, BareOf(p.to)) && it.channel == s.sess[it.sid].chan
  {
    assert EntryOk(s, Owner(p));
  }

  lemma QueueOk(s: State, t: State, chan: string, v: Val, p: Packet)
    requires Inv(s) && Loose(s, p) && BareOf(p.to).Some? && Get(s.db.store, SessionKey(Owner(p))) == Some(v)
    requires QueueIs(s, t, chan, Route(Queue(s, chan), PacketItem(v, p)))
    requires t.db == s.db && SameHops(s, t) && SameCaches(s, t)
    requires Moves(s, t, p, if |Queue(s, chan)| < ROUTER_QUEUE_SIZE then Queued(chan, PacketItem(v, p)) else Refused)
    ensures Inv(t)
  {
    if |Queue(s, chan)| < ROUTER_QUEUE_SIZE {
      RegistryServes(s, p, v);
      LandQueued(s, t, chan, PacketItem(v, p), p);
    } else {
      SameQueue(s, t, chan);
      EndOk(s, t, p, Refused);
    }
  }

  /** Node.routePacket, for a packet that has entered. */
  lemma NodeRouteOk(s: State, chan: string, p: Packet)
    requires Inv(s) && Loose(s, p)
    ensures Inv(Record(NodeRoute(s, chan, p), p, NodeFate(s, chan, p)))
  {
    var f := NodeFate(s, chan, p);
    var t := Record(NodeRoute(s, chan, p), p, f);
    if BareOf(p.to).None? {
      ShapeOfDb(s, s.db, p, f);
      EndOk(s, t, p, Rejected);
    } else {
      match Get(s.db.store, SessionKey(Owner(p)))
      case Some(v) =>
        ShapeOfQueue(s, chan, Route(Queue(s, chan), PacketItem(v, p)), p, f);
        QueueOk(s, t, chan, v, p);
      case None =>
        ShapeOfDb(s, StorePacket(s.db, p), p, f);
        LandStoring(s, t, p);
    }
  }

  /** Routing does not look at the log, so the new entry can be made first. */
  lemma NodeRouteRecord(s: State, chan: string, p: Packet, f: Fate)
    ensures NodeFate(Record(s, p, f), chan, p) == NodeFate(s, chan, p)
    ensures NodeRoute(Record(s, p, f), chan, p) == Record(NodeRoute(s, chan, p), p, f)
  {
  }

  lemma NodeRouteTwice(s: State, chan: string, p: Packet, f: Fate)
    ensures var r := Record(s, p, f);
            Record(NodeRoute(r, chan, p), p, NodeFate(r, chan, p)) ==
            Record(NodeRoute(s, chan, p), p, NodeFate(s, chan, p))
  {
    NodeRouteRecord(s, chan, p, f);
    RecordTwice(NodeRoute(s, chan, p), p, f, NodeFate(s, chan, p));
  }

  lemma NodeRouteNew(s: State, chan: string, p: Packet, f: Fate)
    requires Inv(Record(s, p, f)) && Limbo(f)
    ensures Inv(Record(NodeRoute(s, chan, p), p, NodeFate(s, chan, p)))
  {
    NodeRouteTwice(s, chan, p, f);
    NodeRouteOk(Record(s, p, f), chan, p);
  }

  lemma ExpandOk(s: State, chan: string, p: Packet)
    requires Inv(s) && p.id !in s.log
    ensures Inv(Record(NodeRoute(s, chan, p), p, NodeFate(s, chan, p)))
  {
    RecordOk(s, p);
    NodeRouteNew(s, chan, p, Rejected);
  }

  lemma PushOk(s: State, chan: string, p: Packet)
    requires Inv(s) && p.id !in s.log
    ensures Inv(Record(s.(dataCh := s.dataCh[chan := Hops(s, chan) + multiset{p}]), p, Hop(chan)))
  {
    var u := Record(s, p, Rejected);
    var q := Hops(s, chan) + multiset{p};
    RecordOk(s, p);
    ShapeOfHops(u, chan, q, p, Hop(chan));
    RecordTwice(s.(dataCh := s.dataCh[chan := q]), p, Rejected, Hop(chan));
    LandHop(u, Record(u.(dataCh := u.dataCh[chan := q]), p, Hop(chan)), chan, p);
  }

  lemma HopKnown(s: State, chan: string, p: Packet)
    requires HopsOk(s) && p in Hops(s, chan)
    ensures Known(s, p)
  {
  }

  lemma ArriveOk(s: State, chan: string, p: Packet)
    requires Inv(s) && p in Hops(s, chan)
    ensures Inv(Arrived(s, chan, p))
  {
    var q := Hops(s, chan) - multiset{p};
    var s1 := s.(dataCh := s.dataCh[chan := q]);
    HopKnown(s, chan, p);
    var f := if p.mtype == MSG_TYPE_GROUP_CHAT then Spread else Dropped;
    ShapeOfHops(s, chan, q, p, f);
    LiftHop(s, Record(s1, p, f), chan, p, f);
    NodeRouteNew(s1, chan, p, f);
  }

  // ---------------------------------------------------------------- packets in sessions

  lemma RouteIgnored(s: State, sid: string, p: Packet, f: Fate)
    requires Inv(s) && Loose(s, p) && sid in s.sess && Limbo(f)
    requires var j := Judge(s.sess[sid], s.db.store, p); j.Ignored? || j.Panics? || j.Unmatched?
    ensures Inv(Record(Back(s, sid, RoutePacket(View(s, sid), p)), p, f))
  {
    var c := RoutePacket(View(s, sid), p);
    ShapeOfBack(s, sid, c, p, f);
    SameQueue(s, Record(Back(s, sid, c), p, f), s.sess[sid].chan);
    EndOk(s, Record(Back(s, sid, c), p, f), p, f);
  }

  lemma RouteMine(s: State, sid: string, p: Packet)
    requires Inv(s) && Loose(s, p) && sid in s.sess && Judge(s.sess[sid], s.db.store, p).Mine?
    ensures Inv(Record(Back(s, sid, RoutePacket(View(s, sid), p)), p, Buffered(sid)))
  {
    var t := Record(Back(s, sid, RoutePacket(View(s, sid), p)), p, Buffered(sid));
    MineShape(s, sid, p);
    LandBuffered(s, t, sid, p);
  }

  lemma MineShape(s: State, sid: string, p: Packet)
    requires Loose(s, p) && sid in s.sess && Judge(s.sess[sid], s.db.store, p).Mine?
    ensures var t := Record(Back(s, sid, RoutePacket(View(s, sid), p)), p, Buffered(sid));
            && Buffers(s, t, sid, p) && SameQueues(s, t) && SameHops(s, t) && SameCaches(s, t) && t.db == s.db
            && t.table == s.table && t.clean == s.clean && t.latest == s.latest
  {
    var c := RoutePacket(View(s, sid), p);
    BackShape(s, sid, c);
    SameButLog(s, Back(s, sid, c), Record(Back(s, sid, c), p, Buffered(sid)));
  }

  lemma RouteOnline(s: State, sid: string, p: Packet, v: Val)
    requires Inv(s) && Loose(s, p) && sid in s.sess && Judge(s.sess[sid], s.db.store, p) == Online(v)
    ensures Inv(Record(Back(s, sid, RoutePacket(View(s, sid), p)), p, RouteFate(View(s, sid), p)))
  {
    var c := RoutePacket(View(s, sid), p);
    ShapeOfBack(s, sid, c, p, RouteFate(View(s, sid), p));
    QueueOk(s, Record(Back(s, sid, c), p, RouteFate(View(s, sid), p)), s.sess[sid].chan, v, p);
  }

  lemma RouteOffline(s: State, sid: string, p: Packet)
    requires Inv(s) && Loose(s, p) && sid in s.sess && Judge(s.sess[sid], s.db.store, p).Offline?
    ensures Inv(Record(Back(s, sid, RoutePacket(View(s, sid), p)), p, Storing))
  {
    var c := RoutePacket(View(s, sid), p);
    ShapeOfBack(s, sid, c, p, Storing);
    SameQueue(s, Record(Back(s, sid, c), p, Storing), s.sess[sid].chan);
    LandStoring(s, Record(Back(s, sid, c), p, Storing), p);
  }

  /** RoutePacket in a session, for a packet that has entered. */
  lemma RouteOk(s: State, sid: string, p: Packet)
    requires Inv(s) && Loose(s, p) && sid in s.sess
    ensures Inv(Submitted(s, sid, p))
  {
    assert BufferOk(s, sid);
    var j := Judge(s.sess[sid], s.db.store, p);
    if j.Mine? {
      RouteMine(s, sid, p);
    } else if j.Online? {
      RouteOnline(s, sid, p, j.v);
    } else if j.Offline? {
      RouteOffline(s, sid, p);
    } else {
      RouteIgnored(s, sid, p, Rejected);
    }
  }

  lemma SubmitRecord(s: State, sid: string, p: Packet, f: Fate)
    requires sid in s.sess
    ensures View(Record(s, p, f), sid) == View(s, sid)
    ensures Submitted(Record(s, p, f), sid, p) == Submitted(s, sid, p)
    ensures Delivered(Record(s, p, f), sid, p) == Delivered(s, sid, p)
  {
    var b := Back(s, sid, RoutePacket(View(s, sid), p));
    assert Back(Record(s, p, f), sid, RoutePacket(View(s, sid), p)) == Record(b, p, f);
    RecordTwice(b, p, f, RouteFate(View(s, sid), p));
    RecordTwice(b, p, f, Dropped);
  }

  lemma SubmitOk(s: State, sid: string, p: Packet)
    requires Inv(s) && sid in s.sess && p.id !in s.log
    ensures Inv(Submitted(s, sid, p))
  {
    RecordOk(s, p);
    SubmitRecord(s, sid, p, Rejected);
    RouteOk(Record(s, p, Rejected), sid, p);
  }

  // ---------------------------------------------------------------- the router worker

  lemma ItemKnown(s: State, chan: string, it: Item)
    requires QueuesOk(s) && it in Queue(s, chan) && it.pkt.Some?
    ensures Known(s, it.pkt.value) && Serves(s, it.sid, BareOf(it.pkt.value.to)) && it.signal == 0
    ensures it.channel == s.sess[it.sid].chan
  {
    assert ItemOk(s, chan, it);
  }

  lemma TakenOk(s: State, chan: string, it: Item, p: Packet)
    requires Inv(s) && it in Queue(s, chan) && it.pkt == Some(p)
    ensures Inv(Record(Taken(s, chan, it), p, Dropped)) && BareOf(p.to).Some?
  {
    ItemKnown(s, chan, it);
    ShapeOfQueue(s, chan, Queue(s, chan) - multiset{it}, p, Dropped);
    LiftQueued(s, Record(Taken(s, chan, it), p, Dropped), chan, it, p, Dropped);
  }

  lemma DeliveredOk(s: State, sid: string, p: Packet)
    requires Inv(s) && Loose(s, p) && sid in s.sess
    ensures Inv(Delivered(s, sid, p))
  {
    if s.sess[sid].status.Login? {
      RouteOk(s, sid, p);
    } else {
      RouteIgnored(s, sid, p, Dropped);
    }
  }

  lemma PublishOk(u: State, s1: State, chan: string, p: Packet, rpcOk: bool)
    requires u == Record(s1, p, Dropped) && Inv(u) && BareOf(p.to).Some?
    ensures rpcOk ==> Inv(Record(s1.(dataCh := s1.dataCh[chan := Hops(s1, chan) + multiset{p}]), p, Hop(chan)))
    ensures !rpcOk ==> Inv(Record(s1.(db := StorePacket(s1.db, p)), p, Storing))
  {
    if rpcOk {
      var q := Hops(u, chan) + multiset{p};
      ShapeOfHops(u, chan, q, p, Hop(chan));
      RecordTwice(s1.(dataCh := s1.dataCh[chan := q]), p, Dropped, Hop(chan));
      LandHop(u, Record(u.(dataCh := u.dataCh[chan := q]), p, Hop(chan)), chan, p);
    } else {
      ShapeOfDb(u, StorePacket(u.db, p), p, Storing);
      RecordTwice(s1.(db := StorePacket(u.db, p)), p, Dropped, Storing);
      LandStoring(u, Record(u.(db := StorePacket(u.db, p)), p, Storing), p);
    }
  }

  lemma SignalTaken(s: State, chan: string, it: Item)
    requires Inv(s) && it in Queue(s, chan) && it.pkt.None?
    ensures Inv(Taken(s, chan, it)) && it.signal == KILL
  {
    assert ItemOk(s, chan, it);
    SignalShape(s, chan, it);
    SignalOk(s, Taken(s, chan, it), it);
  }

  lemma SignalShape(s: State, chan: string, it: Item)
    ensures QueuesBut(s, Taken(s, chan, it), it)
  {
  }

  lemma WorkOnOk(s: State, chan: string, it: Item, p: Packet, rpcOk: bool)
    requires Inv(Record(s, p, Dropped)) && BareOf(p.to).Some?
    ensures Inv(WorkOn(s, chan, it, p, rpcOk))
  {
    if !Local(chan, it) {
      PublishOk(Record(s, p, Dropped), s, it.channel, p, rpcOk);
    } else if Found(s, chan, it.sid) {
      SubmitRecord(s, it.sid, p, Dropped);
      DeliveredOk(Record(s, p, Dropped), it.sid, p);
    }
  }

  lemma WorkOk(s: State, chan: string, it: Item, rpcOk: bool)
    requires Inv(s) && it in Queue(s, chan) && (it.pkt.Some? || Local(chan, it))
    ensures Inv(Work(s, chan, it, rpcOk))
  {
    var s1 := Taken(s, chan, it);
    match it.pkt
    case None =>
      SignalTaken(s, chan, it);
      if Found(s1, chan, it.sid) {
        CloseAtOk(s1, it.sid);
      }
    case Some(p) =>
      TakenOk(s, chan, it, p);
      WorkOnOk(s1, chan, it, p, rpcOk);
  }

  // ---------------------------------------------------------------- all steps

  /** The invariant is kept by every step of every node. */
  lemma NextOk(s: State, e: Event)
    requires Inv(s) && Enabled(s, e)
    ensures Inv(Next(s, e))
  {
    match e
    case Open(sid, w, auth, order) => OpenOk(s, sid, w, auth, order);
    case Submit(sid, p) => SubmitOk(s, sid, p);
    case Ack(sid, id) => AckOk(s, sid, id);
    case Shut(sid) => CloseAtOk(s, sid);
    case Worker(chan, it, rpcOk) => WorkOk(s, chan, it, rpcOk);
    case Arrive(chan, p) => ArriveOk(s, chan, p);
    case Push(chan, p) => PushOk(s, chan, p);
    case Expand(chan, p) => ExpandOk(s, chan, p);
    case Write(cmd) => WriteOk(s, cmd);
    case _ => PlainNextOk(s, e);
  }

  lemma PlainNextOk(s: State, e: Event)
    requires Inv(s) && Enabled(s, e) && (e.Accept? || e.Register? || e.Clean? || e.Expire?)
    ensures Inv(Next(s, e))
  {
    match e
    case Accept(sid, chan, nodeid) => AcceptOk(s, Next(s, e), sid, chan, nodeid);
    case Register(sid) => TableOk(s, Next(s, e));
    case Clean(sid) => TableOk(s, Next(s, e));
    case Expire(id) => ExpireOk(s, Next(s, e), id);
  }
}
