/** Where packets can go: one step at a time, and which container a fate stands for. */
module ClusterFates {
  import opened Options
  import opened Keys
  import opened Packets
  import opened Redis
  import opened Sessions
  import opened Cluster
  import opened ClusterInv
  import opened ClusterSteps
  import opened ClusterEvents

  // ---------------------------------------------------------------- the containers

  ghost predicate InIndexOf(s: State, p: Packet)
  {
    var fields := Fields(s.db.store, OfflineIdx(Owner(p)));
    IdKey(p.id) in fields && fields[IdKey(p.id)] == PacketVal(p)
  }

  ghost predicate InBufferOf(s: State, sid: string, p: Packet)
  {
    && sid in s.sess && s.sess[sid].status.Login? && BareOf(s.sess[sid].jid) == BareOf(p.to)
    && p.id in s.sess[sid].buff && s.sess[sid].buff[p.id] == p
  }

  /** The packet is where the fate says, read off the containers; the ends are read off the log. */
  ghost predicate IsAt(s: State, p: Packet, f: Fate)
  {
    match f
    case Queued(chan, it) => it in Queue(s, chan) && it.pkt == Some(p)
    case Hop(chan) => p in Hops(s, chan)
    case Buffered(sid) => sid in s.sess && s.sess[sid].status.Login? && p.id in s.sess[sid].buff
    case Storing => PutIdxCmd(p) in s.db.pend
    case Stored => InIndexOf(s, p) && HDel(OfflineIdx(Owner(p)), IdKey(p.id)) !in s.db.pend
    case _ => At(s, p.id, f)
  }

  /** Conservation: every packet that entered is in exactly one place, once. */
  lemma ExactlyOnePlace(s: State, p: Packet, f: Fate)
    requires Inv(s) && Known(s, p)
    ensures IsAt(s, p, f) <==> f == s.log[p.id].fate
    ensures f.Queued? && IsAt(s, p, f) ==> Queue(s, f.chan)[f.item] == 1
    ensures f.Hop? && IsAt(s, p, f) ==> Hops(s, f.chan)[p] == 1
    ensures f.Storing? && IsAt(s, p, f) ==> s.db.pend[PutIdxCmd(p)] == 1
  {
    match f
    case Queued(chan, it) => PlaceQueued(s, p, chan, it);
    case Hop(chan) =>
    case Buffered(sid) => PlaceBuffered(s, p, sid);
    case Storing => PlaceStoring(s, p);
    case Stored => PlaceStored(s, p);
    case _ =>
  }

  lemma PlaceQueued(s: State, p: Packet, chan: string, it: Item)
    requires QueuesOk(s) && Known(s, p)
    ensures IsAt(s, p, Queued(chan, it)) <==> s.log[p.id].fate == Queued(chan, it)
    ensures IsAt(s, p, Queued(chan, it)) ==> Queue(s, chan)[it] == 1
  {
    assert it in Queue(s, chan) ==> ItemOk(s, chan, it);
  }

  lemma PlaceBuffered(s: State, p: Packet, sid: string)
    requires BuffersOk(s) && Known(s, p)
    ensures IsAt(s, p, Buffered(sid)) <==> s.log[p.id].fate == Buffered(sid)
    ensures IsAt(s, p, Buffered(sid)) ==> InBufferOf(s, sid, p)
  {
    assert sid in s.sess ==> BufferOk(s, sid);
  }

  lemma PlaceStoring(s: State, p: Packet)
    requires PendOk(s) && Known(s, p)
    ensures IsAt(s, p, Storing) <==> s.log[p.id].fate == Storing
    ensures IsAt(s, p, Storing) ==> s.db.pend[PutIdxCmd(p)] == 1
  {
    assert PutIdxCmd(p) in s.db.pend ==> CmdOk(s, PutIdxCmd(p));
  }

  lemma PlaceStored(s: State, p: Packet)
    requires IndexOk(s) && PendOk(s) && Known(s, p)
    ensures IsAt(s, p, Stored) <==> s.log[p.id].fate == Stored
    ensures s.log[p.id].fate == Stored ==> InIndexOf(s, p)
  {
    var b, k := Owner(p), IdKey(p.id);
    assert k in Fields(s.db.store, OfflineIdx(b)) ==> FieldOk(s, b, k);
    assert HDel(OfflineIdx(b), k) in s.db.pend ==> CmdOk(s, HDel(OfflineIdx(b), k));
  }

  // ---------------------------------------------------------------- right recipient

  /**
   A packet that a worker hands to a logged-in session is for that session: it is buffered and sent
   there, the handler does not panic, and it is not routed or stored again.
   */
  lemma RightRecipient(s: State, chan: string, it: Item, p: Packet)
    requires Inv(s) && it in Queue(s, chan) && it.pkt == Some(p) && Found(s, chan, it.sid)
    ensures BareOf(p.to).Some? && BareOf(p.to) == BareOf(s.sess[it.sid].jid)
    ensures s.sess[it.sid].status.Login? ==>
              && Judge(s.sess[it.sid], s.db.store, p) == Mine
              && var c := RoutePacket(View(s, it.sid), p);
              && !c.panicked && c.out == [Out.Deliver(p)]
              && c.routeQ == Queue(s, chan) && c.db == s.db && c.me.buff == s.sess[it.sid].buff[p.id := p]
  {
    ItemKnown(s, chan, it);
  }

  // ---------------------------------------------------------------- fates over one step

  /** The moves a packet can make. */
  predicate Advance(f: Fate, g: Fate)
  {
    match f
    case Queued(_, it) => g.Hop? || g == Buffered(it.sid) || g.Storing? || g.Dropped?
    case Hop(_) => g.Queued? || g.Refused? || g.Storing? || g.Spread? || g.Rejected?
    case Buffered(_) => g.Storing? || g.Acked?
    case Storing => g.Stored?
    case Stored => g.Acked?
    case _ => false
  }

  /** The step acknowledges `p`: its recipient acks it, or acks a login answer that listed it. */
  ghost predicate Acks(s: State, e: Event, p: Packet)
  {
    && e.Ack? && e.sid in s.sess && BareOf(s.sess[e.sid].jid) == BareOf(p.to)
    && (|| AcksListed(s, e, p)
        || (e.id !in CacheAt(s, s.sess[e.sid].chan) && e.id == p.id && InBufferOf(s, e.sid, p)))
  }

  ghost predicate AcksListed(s: State, e: Event, p: Packet)
  {
    && e.Ack? && e.sid in s.sess && BareOf(s.sess[e.sid].jid) == BareOf(p.to)
    && e.id in CacheAt(s, s.sess[e.sid].chan) && p.id in CacheAt(s, s.sess[e.sid].chan)[e.id]
  }

  /** The worker takes the item of `p`, and the session it names is gone or not logged in. */
  ghost predicate TargetGone(s: State, e: Event, p: Packet)
  {
    && e.Worker? && e.item.pkt == Some(p)
    && (Found(s, e.chan, e.item.sid) ==> !s.sess[e.item.sid].status.Login?)
  }

  /** Why a packet moves to where it is lost, to the store from a buffer, or to its acknowledgement. */
  ghost predicate Because(s: State, e: Event, t: State, p: Packet, f: Fate, g: Fate)
  {
    match g
    case Rejected => BareOf(p.to).None?
    case Spread => p.mtype == MSG_TYPE_GROUP_CHAT
    case Refused => e.Arrive? && e.p == p && |Queue(s, e.chan)| >= ROUTER_QUEUE_SIZE
    case Dropped => TargetGone(s, e, p)
    case Storing => f.Buffered? ==> f.sid in t.sess && t.sess[f.sid].status.Close?
    case Acked => Acks(s, e, p)
    case _ => true
  }

  ghost predicate FateStep(s: State, e: Event, t: State, p: Packet)
    requires Known(s, p)
  {
    && Known(t, p)
    && var f, g := s.log[p.id].fate, t.log[p.id].fate;
    && (f == g || (Advance(f, g) && Because(s, e, t, p, f, g)))
  }

  /** The entry of `id` after a close of `sid`. */
  ghost predicate FlushedTo(s: State, t: State, sid: string, id: string)
    requires sid in s.sess && id in s.log
  {
    id in t.log &&
    t.log[id] == if !s.sess[sid].status.Close? && id in s.sess[sid].buff then s.log[id].(fate := Storing) else s.log[id]
  }

  lemma FlushLogAt(s: State, t: State, sid: string, id: string)
    requires sid in s.sess && id in s.log && t.log == FlushLog(s, sid)
    ensures FlushedTo(s, t, sid, id)
  {
  }

  lemma FlushSteps(s: State, t: State, sid: string, p: Packet, e: Event)
    requires Known(s, p) && sid in s.sess && BufferOk(s, sid) && FlushedTo(s, t, sid, p.id)
    requires sid in t.sess && t.sess[sid].status.Close?
    ensures FateStep(s, e, t, p)
  {
    if !s.sess[sid].status.Close? && p.id in s.sess[sid].buff {
      BufferedFate(s, sid, p.id);
      Moved(s, e, t, p, Storing);
    } else {
      Moved(s, e, t, p, s.log[p.id].fate);
    }
  }

  lemma Moved(s: State, e: Event, t: State, p: Packet, g: Fate)
    requires Known(s, p) && p.id in t.log && t.log[p.id] == s.log[p.id].(fate := g)
    requires var f := s.log[p.id].fate; f == g || (Advance(f, g) && Because(s, e, t, p, f, g))
    ensures FateStep(s, e, t, p)
  {
  }

  lemma BufferedFate(s: State, sid: string, id: string)
    requires sid in s.sess && BufferOk(s, sid) && !s.sess[sid].status.Close? && id in s.sess[sid].buff
    ensures At(s, id, Buffered(sid))
  {
  }

  lemma CloseAtClosed(s: State, sid: string)
    requires sid in s.sess
    ensures sid in CloseAt(s, sid).sess && CloseAt(s, sid).sess[sid].status.Close?
  {
  }

  lemma ShutSteps(s: State, sid: string, p: Packet, e: Event)
    requires BuffersOk(s) && Known(s, p) && sid in s.sess
    ensures FateStep(s, e, CloseAt(s, sid), p)
  {
    CloseAtClosed(s, sid);
    BufferOkAt(s, sid);
    FlushLogAt(s, CloseAt(s, sid), sid, p.id);
    FlushSteps(s, CloseAt(s, sid), sid, p, e);
  }

  lemma AckSteps(s: State, sid: string, id: string, p: Packet)
    requires BuffersOk(s) && CachesOk(s) && Known(s, p) && sid in s.sess
    ensures FateStep(s, Ack(sid, id), AckAt(s, sid, id), p)
  {
    BufferOkAt(s, sid);
    if BareOf(s.sess[sid].jid).Some? {
      if id in CacheAt(s, s.sess[sid].chan) {
        CachedSettled(s, s.sess[sid].chan, id);
        AckLogRefates(s, sid, id);
        AckListSteps(s, sid, id, p);
      } else {
        AckPacketRefates(s, sid, id);
        AckPacketSteps(s, sid, id, p);
      }
    }
  }

  lemma BufferOkAt(s: State, sid: string)
    requires BuffersOk(s) && sid in s.sess
    ensures BufferOk(s, sid)
  {
  }

  lemma CachedSettled(s: State, chan: string, l: string)
    requires CachesOk(s) && l in CacheAt(s, chan)
    ensures forall x :: x in CacheAt(s, chan)[l] ==> Settled(s, x)
  {
  }

  lemma AckListSteps(s: State, sid: string, id: string, p: Packet)
    requires Known(s, p) && sid in s.sess && BareOf(s.sess[sid].jid).Some? && id in CacheAt(s, s.sess[sid].chan)
    requires Refate(s, s.(log := AckLog(s, sid, id)),
                    Waiting(s, Addr(s.sess[sid].jid), CacheAt(s, s.sess[sid].chan)[id]), Acked)
    ensures FateStep(s, Ack(sid, id), AckAt(s, sid, id), p)
  {
    var ids := Waiting(s, Addr(s.sess[sid].jid), CacheAt(s, s.sess[sid].chan)[id]);
    AckAtLog(s, sid, id);
    if p.id in ids {
      WaitingIsListed(s, sid, id, p);
    }
    RefatedSteps(s, Ack(sid, id), AckAt(s, sid, id), ids, p);
  }

  /** The ids in `ids` become acked, each for its reason. */
  lemma RefatedSteps(s: State, e: Event, t: State, ids: set<string>, p: Packet)
    requires Known(s, p) && Refate(s, s.(log := t.log), ids, Acked)
    requires p.id in ids ==> Advance(s.log[p.id].fate, Acked) && Acks(s, e, p)
    ensures FateStep(s, e, t, p)
  {
    if p.id in ids {
      Moved(s, e, t, p, Acked);
    } else {
      Moved(s, e, t, p, s.log[p.id].fate);
    }
  }

  lemma AckAtLog(s: State, sid: string, id: string)
    requires sid in s.sess
    ensures AckAt(s, sid, id).log == AckLog(s, sid, id)
  {
  }

  lemma WaitingIsListed(s: State, sid: string, id: string, p: Packet)
    requires Known(s, p) && sid in s.sess && BareOf(s.sess[sid].jid).Some? && id in CacheAt(s, s.sess[sid].chan)
    requires p.id in Waiting(s, Addr(s.sess[sid].jid), CacheAt(s, s.sess[sid].chan)[id])
    ensures s.log[p.id].fate == Stored && AcksListed(s, Ack(sid, id), p)
  {
  }

  lemma AckPacketSteps(s: State, sid: string, id: string, p: Packet)
    requires Known(s, p) && sid in s.sess && BareOf(s.sess[sid].jid).Some? && id !in CacheAt(s, s.sess[sid].chan)
    requires BufferOk(s, sid) && Refate(s, s.(log := AckLog(s, sid, id)), AckedNow(s, sid, id), Acked)
    ensures FateStep(s, Ack(sid, id), AckAt(s, sid, id), p)
  {
    AckAtLog(s, sid, id);
    if p.id in AckedNow(s, sid, id) {
      assert InBufferOf(s, sid, p);
    }
    RefatedSteps(s, Ack(sid, id), AckAt(s, sid, id), AckedNow(s, sid, id), p);
  }

  lemma NodeFateSteps(s: State, chan: string, p: Packet)
    ensures var g := NodeFate(s, chan, p);
            && (g.Queued? || g.Refused? || g.Storing? || g.Rejected?)
            && (g.Refused? ==> |Queue(s, chan)| >= ROUTER_QUEUE_SIZE)
            && (g.Rejected? ==> BareOf(p.to).None?)
  {
  }

  /** Where a worker takes the packet of its item. */
  ghost function WorkFate(s: State, chan: string, it: Item, rpcOk: bool, p: Packet): (r: Fate)
  {
    if Local(chan, it) then
      if Found(s, chan, it.sid) && s.sess[it.sid].status.Login? then RouteFate(View(s, it.sid), p) else Dropped
    else if rpcOk then Hop(it.channel)
    else Storing
  }

  lemma WorkLog(s: State, chan: string, it: Item, rpcOk: bool, p: Packet)
    ensures WorkOn(s, chan, it, p, rpcOk).log == s.log[p.id := Track(p, WorkFate(s, chan, it, rpcOk, p))]
  {
    if Local(chan, it) && Found(s, chan, it.sid) {
      DeliveredLog(s, it.sid, p);
    }
  }

  lemma DeliveredLog(s: State, sid: string, p: Packet)
    requires sid in s.sess
    ensures Delivered(s, sid, p).log ==
            s.log[p.id := Track(p, if s.sess[sid].status.Login? then RouteFate(View(s, sid), p) else Dropped)]
  {
  }

  lemma SubmittedLog(s: State, sid: string, p: Packet)
    requires sid in s.sess
    ensures Submitted(s, sid, p).log == s.log[p.id := Track(p, RouteFate(View(s, sid), p))]
  {
  }

  lemma NodeRouteLog(s: State, chan: string, p: Packet, f: Fate)
    ensures Record(NodeRoute(s, chan, p), p, f).log == s.log[p.id := Track(p, f)]
  {
  }

  lemma SameSteps(s: State, t: State, p: Packet, e: Event)
    requires Known(s, p) && t.log == s.log
    ensures FateStep(s, e, t, p)
  {
  }

  lemma WorkFateAdvances(s: State, chan: string, it: Item, rpcOk: bool, p: Packet)
    requires QueuesOk(s) && BuffersOk(s) && it in Queue(s, chan) && it.pkt == Some(p)
    ensures At(s, p.id, Queued(chan, it)) && Advance(Queued(chan, it), WorkFate(Taken(s, chan, it), chan, it, rpcOk, p))
  {
    assert ItemOk(s, chan, it);
    if Found(s, chan, it.sid) {
      BufferNamed(s, it.sid);
    }
  }

  lemma WorkSteps(s: State, chan: string, it: Item, rpcOk: bool, p: Packet)
    requires Inv(s) && Known(s, p) && it in Queue(s, chan)
    ensures FateStep(s, Worker(chan, it, rpcOk), Work(s, chan, it, rpcOk), p)
  {
    var e, t := Worker(chan, it, rpcOk), Work(s, chan, it, rpcOk);
    match it.pkt
    case None => SignalSteps(s, chan, it, rpcOk, p, e);
    case Some(q) =>
      var f := WorkFate(Taken(s, chan, it), chan, it, rpcOk, q);
      WorkFateAdvances(s, chan, it, rpcOk, q);
      WorkLog(Taken(s, chan, it), chan, it, rpcOk, q);
      ItemKnown(s, chan, it);
      WorkBecause(s, t, chan, it, rpcOk, q);
      MoveSteps(s, t, q, f, p, e);
  }

  lemma WorkBecause(s: State, t: State, chan: string, it: Item, rpcOk: bool, q: Packet)
    requires it.pkt == Some(q) && Advance(Queued(chan, it), WorkFate(Taken(s, chan, it), chan, it, rpcOk, q))
    ensures Because(s, Worker(chan, it, rpcOk), t, q, Queued(chan, it),
                    WorkFate(Taken(s, chan, it), chan, it, rpcOk, q))
  {
  }

  lemma SignalSteps(s: State, chan: string, it: Item, rpcOk: bool, p: Packet, e: Event)
    requires BuffersOk(s) && Known(s, p) && it.pkt.None?
    ensures FateStep(s, e, Work(s, chan, it, rpcOk), p)
  {
    var s1 := Taken(s, chan, it);
    var t := Work(s, chan, it, rpcOk);
    if Local(chan, it) && Found(s1, chan, it.sid) && it.signal == KILL {
      SignalLog(s, chan, it);
      CloseAtClosed(s1, it.sid);
      BufferOkAt(s, it.sid);
      FlushLogAt(s, t, it.sid, p.id);
      FlushSteps(s, t, it.sid, p, e);
    } else {
      assert t == s1;
    }
  }

  lemma SignalLog(s: State, chan: string, it: Item)
    requires it.sid in s.sess
    ensures CloseAt(Taken(s, chan, it), it.sid).log == FlushLog(s, it.sid)
  {
  }

  lemma MoveSteps(s: State, t: State, q: Packet, f: Fate, p: Packet, e: Event)
    requires Known(s, p) && Known(s, q) && t.log == s.log[q.id := Track(q, f)]
    requires Advance(s.log[q.id].fate, f) && Because(s, e, t, q, s.log[q.id].fate, f)
    ensures FateStep(s, e, t, p)
  {
  }

  lemma NewSteps(s: State, t: State, q: Packet, f: Fate, p: Packet, e: Event)
    requires Known(s, p) && q.id !in s.log && t.log == s.log[q.id := Track(q, f)]
    ensures FateStep(s, e, t, p)
  {
  }

  lemma ArriveSteps(s: State, chan: string, q: Packet, p: Packet)
    requires HopsOk(s) && Known(s, p) && q in Hops(s, chan)
    ensures FateStep(s, Arrive(chan, q), Arrived(s, chan, q), p)
  {
    assert At(s, q.id, Hop(chan));
    var f := ArrivedLog(s, chan, q);
    MoveSteps(s, Arrived(s, chan, q), q, f, p, Arrive(chan, q));
  }

  lemma ArrivedLog(s: State, chan: string, q: Packet) returns (f: Fate)
    ensures Arrived(s, chan, q).log == s.log[q.id := Track(q, f)]
    ensures Advance(Hop(chan), f) && Because(s, Arrive(chan, q), Arrived(s, chan, q), q, Hop(chan), f)
  {
    var s1 := s.(dataCh := s.dataCh[chan := Hops(s, chan) - multiset{q}]);
    if q.mtype == MSG_TYPE_GROUP_CHAT {
      f := Spread;
    } else {
      f := NodeFate(s1, chan, q);
      NodeFateSteps(s1, chan, q);
      NodeRouteLog(s1, chan, q, f);
    }
  }

  lemma BufferNamed(s: State, sid: string)
    requires BuffersOk(s) && sid in s.sess
    ensures s.sess[sid].sid == sid
  {
    assert BufferOk(s, sid);
  }

  lemma WriteSteps(s: State, cmd: Cmd, p: Packet, e: Event)
    requires PendOk(s) && Known(s, p) && cmd in s.db.pend
    ensures FateStep(s, e, Written(s, cmd), p)
  {
    assert CmdOk(s, cmd);
  }

  lemma OpenSteps(s: State, sid: string, w: Wire, auth: bool, order: seq<Key>, p: Packet, e: Event)
    requires BuffersOk(s) && Known(s, p) && sid in s.sess && s.sess[sid].status.Conn? && OrderFits(s.db.store, w, order)
    ensures FateStep(s, e, Opened(s, sid, w, auth, order), p)
  {
    ConnFlushesNothing(s, sid);
    OpenLog(s, sid, w, auth, order);
    SameSteps(s, Opened(s, sid, w, auth, order), p, e);
  }

  lemma ConnFlushesNothing(s: State, sid: string)
    requires BuffersOk(s) && sid in s.sess && s.sess[sid].status.Conn?
    ensures FlushLog(s, sid) == s.log
  {
    assert BufferOk(s, sid);
  }

  lemma OpenLog(s: State, sid: string, w: Wire, auth: bool, order: seq<Key>)
    requires sid in s.sess && OrderFits(s.db.store, w, order)
    ensures Opened(s, sid, w, auth, order).log == if Verify(w, auth).Some? then FlushLog(s, sid) else s.log
  {
  }

  lemma StepFateInSessions(s: State, e: Event, p: Packet)
    requires Inv(s) && Enabled(s, e) && Known(s, p)
    requires e.Open? || e.Submit? || e.Ack? || e.Shut? || e.Worker?
    ensures FateStep(s, e, Next(s, e), p)
  {
    match e
    case Open(sid, w, auth, order) => OpenSteps(s, sid, w, auth, order, p, e);
    case Submit(sid, q) =>
      SubmittedLog(s, sid, q);
      NewSteps(s, Submitted(s, sid, q), q, RouteFate(View(s, sid), q), p, e);
    case Ack(sid, id) => AckSteps(s, sid, id, p);
    case Shut(sid) => ShutSteps(s, sid, p, e);
    case Worker(chan, it, rpcOk) => WorkSteps(s, chan, it, rpcOk, p);
  }

  /** Every step leaves a packet where it is or moves it forward, for a reason where it is lost, stored or acked. */
  lemma StepFate(s: State, e: Event, p: Packet)
    requires Inv(s) && Enabled(s, e) && Known(s, p)
    ensures FateStep(s, e, Next(s, e), p)
  {
    match e
    case Arrive(chan, q) => ArriveSteps(s, chan, q, p);
    case Push(chan, q) => PushSteps(s, e, p);
    case Expand(chan, q) => ExpandSteps(s, e, p);
    case Write(cmd) => WriteSteps(s, cmd, p, e);
    case Accept(_, _, _) => QuietSteps(s, e, p);
    case Register(_) => QuietSteps(s, e, p);
    case Clean(_) => QuietSteps(s, e, p);
    case Expire(_) => QuietSteps(s, e, p);
    case _ => StepFateInSessions(s, e, p);
  }

  lemma PushSteps(s: State, e: Event, p: Packet)
    requires Known(s, p) && Enabled(s, e) && e.Push?
    ensures FateStep(s, e, Next(s, e), p)
  {
    NewSteps(s, Next(s, e), e.p, Hop(e.chan), p, e);
  }

  lemma ExpandSteps(s: State, e: Event, p: Packet)
    requires Known(s, p) && Enabled(s, e) && e.Expand?
    ensures FateStep(s, e, Next(s, e), p)
  {
    NodeRouteLog(s, e.chan, e.p, NodeFate(s, e.chan, e.p));
    NewSteps(s, Next(s, e), e.p, NodeFate(s, e.chan, e.p), p, e);
  }

  lemma QuietSteps(s: State, e: Event, p: Packet)
    requires Known(s, p) && Possible(s, e) && (e.Accept? || e.Register? || e.Clean? || e.Expire?)
    ensures FateStep(s, e, Next(s, e), p)
  {
    SameSteps(s, Next(s, e), p, e);
  }
}
