/** What each hand-over leads to: the way of a packet from its sender to the acknowledgement, step by step. */
module ClusterDelivery {
  import opened Options
  import opened Keys
  import opened Packets
  import opened Redis
  import opened Sessions
  import opened Cluster
  import opened ClusterInv
  import opened ClusterWrites
  import opened ClusterEvents
  import opened ClusterFates
  import opened ClusterRuns
  import opened ClusterNames
  import opened ClusterPaths

  /** A logged-in session sends a new packet of its own to another address. */
  ghost predicate Sends(s: State, sid: string, p: Packet)
  {
    RoutesOwn(s, sid, p) && BareOf(p.to) != BareOf(s.sess[sid].jid)
  }

  // ---------------------------------------------------------------- sending

  /** With a registry entry and room in the queue, the packet is queued for the session the entry names. */
  lemma OnlineIsQueued(s: State, sid: string, p: Packet, x: string)
    requires RegistryOk(s) && Sends(s, sid, p) && Names(s, Owner(p), x)
    requires |Queue(s, s.sess[sid].chan)| < ROUTER_QUEUE_SIZE
    ensures x in s.sess && Item(s.sess[x].chan, x, Some(p), 0) in Queue(Next(s, Submit(sid, p)), s.sess[sid].chan)
  {
    assert EntryOk(s, Owner(p));
    var v := s.db.store[SessionKey(Owner(p))].v;
    assert Judge(s.sess[sid], s.db.store, p) == Online(v);
    SubmittedQueue(s, sid, p, v);
  }

  lemma SubmittedQueue(s: State, sid: string, p: Packet, v: Val)
    requires sid in s.sess && Judge(s.sess[sid], s.db.store, p) == Online(v)
    ensures Queue(Submitted(s, sid, p), s.sess[sid].chan) == Route(Queue(s, s.sess[sid].chan), PacketItem(v, p))
  {
  }

  /** Without an entry, its storing is queued. */
  lemma OfflineIsStoring(s: State, sid: string, p: Packet)
    requires Sends(s, sid, p) && SessionKey(Owner(p)) !in s.db.store
    ensures PutIdxCmd(p) in Next(s, Submit(sid, p)).db.pend
  {
    assert Judge(s.sess[sid], s.db.store, p) == Offline;
    SubmittedPend(s, sid, p);
  }

  lemma SubmittedPend(s: State, sid: string, p: Packet)
    requires sid in s.sess && Judge(s.sess[sid], s.db.store, p) == Offline
    ensures PutIdxCmd(p) in Submitted(s, sid, p).db.pend
  {
    assert RoutePacket(View(s, sid), p).db == StorePacket(s.db, p);
  }

  // ---------------------------------------------------------------- delivering

  /** An item that a worker takes for a logged-in session of its node ends in that session's buffer. */
  lemma TakenIsDelivered(s: State, chan: string, it: Item, p: Packet, rpcOk: bool)
    requires Inv(s) && it in Queue(s, chan) && it.pkt == Some(p) && Local(chan, it)
    requires Found(s, chan, it.sid) && s.sess[it.sid].status.Login?
    ensures InBufferOf(Next(s, Worker(chan, it, rpcOk)), it.sid, p)
  {
    RightRecipient(s, chan, it, p);
    WorkDelivers(s, chan, it, p, rpcOk);
  }

  lemma WorkDelivers(s: State, chan: string, it: Item, p: Packet, rpcOk: bool)
    requires it.pkt == Some(p) && Local(chan, it) && Found(s, chan, it.sid)
    requires Judge(s.sess[it.sid], s.db.store, p) == Mine
    ensures InBufferOf(Work(s, chan, it, rpcOk), it.sid, p)
  {
    DeliveredBuffers(Taken(s, chan, it), it.sid, p);
  }

  lemma DeliveredBuffers(s: State, sid: string, p: Packet)
    requires sid in s.sess && Judge(s.sess[sid], s.db.store, p) == Mine
    ensures InBufferOf(Delivered(s, sid, p), sid, p)
  {
    var me := s.sess[sid];
    assert RoutePacket(View(s, sid), p).me == me.(buff := me.buff[p.id := p]);
  }

  /** An item for another node is published there, or stored when the call fails. */
  lemma TakenIsSentOn(s: State, chan: string, it: Item, p: Packet, rpcOk: bool)
    requires it in Queue(s, chan) && it.pkt == Some(p) && !Local(chan, it)
    ensures var t := Next(s, Worker(chan, it, rpcOk));
            if rpcOk then p in Hops(t, it.channel) else PutIdxCmd(p) in t.db.pend
  {
  }

  /** A packet unacknowledged at the close of its session is on its way to the store. */
  lemma CloseIsStoring(s: State, sid: string, p: Packet)
    requires InBufferOf(s, sid, p)
    ensures PutIdxCmd(p) in Next(s, Shut(sid)).db.pend
  {
    assert PutIdxCmd(s.sess[sid].buff[p.id]) in FlushCmds(s.sess[sid].buff);
  }

  // ---------------------------------------------------------------- storing, listing, acknowledging

  lemma WriteStores(s: State, p: Packet)
    requires Inv(s) && PutIdxCmd(p) in s.db.pend
    ensures InIndexOf(Next(s, Write(PutIdxCmd(p))), p)
  {
    FieldsAfterHSet(s.db.store, Owner(p), IdKey(p.id), PacketVal(p), Owner(p));
  }

  lemma {:induction false} OrderedIsListed(fields: map<Key, Val>, order: seq<Key>, k: Key, p: Packet)
    requires (forall x :: x in order ==> x in fields) && k in order && fields[k] == PacketVal(p)
    ensures p in PacketsIn(fields, order)
  {
    if order[0] != k {
      assert order == [order[0]] + order[1..];
      OrderedIsListed(fields, order[1..], k, p);
    }
  }

  /** The login lists `p`. */
  ghost predicate Lists(s: State, e: Event, p: Packet)
  {
    && e.Open? && Enabled(s, e) && Verify(e.w, e.auth).None? && BareOf(e.w.p.jid) == BareOf(p.to)
    && p in Answered(s, e)
  }

  /** Every login of the recipient lists what is in the offline index. */
  lemma StoredIsListed(s: State, e: Event, p: Packet)
    requires e.Open? && Enabled(s, e) && Verify(e.w, e.auth).None? && BareOf(e.w.p.jid) == BareOf(p.to)
    requires InIndexOf(s, p)
    ensures Lists(s, e, p)
  {
    OrderedIsListed(Fields(s.db.store, OfflineIdx(Owner(p))), e.order, IdKey(p.id), p);
  }

  /** The answer with the list is what the client gets, and the node remembers the listed ids. */
  lemma ListedIsRemembered(s: State, e: Event, p: Packet)
    requires Lists(s, e, p)
    ensures OpenSession(View(s, e.sid), e.w, e.auth, e.order).out == [AuthOk(e.w.p.id, Answered(s, e))]
    ensures var t := Next(s, e);
            && e.sid in t.sess && t.sess[e.sid].status.Login? && t.sess[e.sid].jid == e.w.p.jid
            && t.sess[e.sid].chan == s.sess[e.sid].chan
            && e.w.p.id in CacheAt(t, s.sess[e.sid].chan) && p.id in CacheAt(t, s.sess[e.sid].chan)[e.w.p.id]
  {
    OpenAnswers(View(s, e.sid), e.w, e.auth, e.order);
    ListedIsCached(s, e, p);
  }

  lemma OpenAnswers(c: Ctx, w: Wire, auth: bool, order: seq<Key>)
    requires OrderFits(c.db.store, w, order) && Verify(w, auth).None? && c.out == []
    ensures var d := OpenSession(c, w, auth, order);
            && d.out == [AuthOk(w.p.id, DelayList(c.db.store, w.p.jid, order))]
            && d.me == c.me.(jid := w.p.jid, status := Login)
  {
    KickKeeps(c, w);
  }

  lemma ListedIsCached(s: State, e: Event, p: Packet)
    requires Lists(s, e, p)
    ensures var cache := CacheAt(Next(s, e), s.sess[e.sid].chan);
            e.w.p.id in cache && p.id in cache[e.w.p.id]
  {
    IdIsListed(Answered(s, e), p);
    OpenedCache(s, e.sid, e.w, e.auth, e.order);
  }

  lemma IdIsListed(ps: seq<Packet>, p: Packet)
    requires p in ps
    ensures p.id in Ids(ps)
  {
    var i :| 0 <= i < |ps| && ps[i] == p;
    assert Ids(ps)[i] == p.id;
  }

  lemma OpenedCache(s: State, sid: string, w: Wire, auth: bool, order: seq<Key>)
    requires sid in s.sess && OrderFits(s.db.store, w, order) && Verify(w, auth).None?
    requires DelayList(s.db.store, w.p.jid, order) != []
    ensures var chan := s.sess[sid].chan;
            CacheAt(Opened(s, sid, w, auth, order), chan) ==
            CacheAt(s, chan)[w.p.id := Ids(DelayList(s.db.store, w.p.jid, order))]
  {
    var v := View(s, sid);
    OpenCaches(v, w, auth, order);
    BackCache(s, sid, OpenSession(v, w, auth, order), s.sess[sid].chan);
  }

  /** Acknowledging the login right away acknowledges the packet and queues its delete. */
  lemma ListedIsAcked(s: State, e: Event, p: Packet)
    requires Lists(s, e, p) && BareOf(p.to).Some?
    ensures var t := Next(s, e);
            && Enabled(t, Ack(e.sid, e.w.p.id)) && AcksListed(t, Ack(e.sid, e.w.p.id), p)
            && HDel(OfflineIdx(Owner(p)), IdKey(p.id)) in Next(t, Ack(e.sid, e.w.p.id)).db.pend
  {
    ListedIsRemembered(s, e, p);
    AckDeletes(Next(s, e), e.sid, e.w.p.id, p);
  }

  lemma AckDeletes(t: State, sid: string, id: string, p: Packet)
    requires Enabled(t, Ack(sid, id)) && AcksListed(t, Ack(sid, id), p) && BareOf(p.to).Some?
    ensures HDel(OfflineIdx(Owner(p)), IdKey(p.id)) in Next(t, Ack(sid, id)).db.pend
  {
    var ids := CacheAt(t, t.sess[sid].chan)[id];
    AckCmdsHold(Owner(p), ids, p.id);
    assert AckAt(t, sid, id).db.pend == t.db.pend + multiset(AckCmds(Owner(p), ids));
  }

  lemma {:induction false} AckCmdsHold(b: string, ids: seq<string>, id: string)
    requires id in ids
    ensures HDel(OfflineIdx(b), IdKey(id)) in AckCmds(b, ids)
  {
    if ids[0] != id {
      assert ids == [ids[0]] + ids[1..];
      AckCmdsHold(b, ids[1..], id);
    }
  }

  /** The delete ends it. */
  lemma DeleteRemoves(s: State, p: Packet)
    requires HDel(OfflineIdx(Owner(p)), IdKey(p.id)) in s.db.pend
    ensures !InIndexOf(Next(s, Write(HDel(OfflineIdx(Owner(p)), IdKey(p.id)))), p)
  {
    FieldsAfterHDel(s.db.store, Owner(p), IdKey(p.id), Owner(p));
  }

  /** Store and forward: a stored packet is listed by the next login of its recipient, and the ack of that login
      followed by its delete takes it out of the index. */
  lemma StoreAndForward(s: State, e: Event, p: Packet)
    requires e.Open? && Enabled(s, e) && Verify(e.w, e.auth).None? && BareOf(e.w.p.jid) == BareOf(p.to)
    requires InIndexOf(s, p)
    ensures p in Answered(s, e)
    ensures var ack, delete := Ack(e.sid, e.w.p.id), Write(HDel(OfflineIdx(Owner(p)), IdKey(p.id)));
            && Enabled(Next(s, e), ack) && Enabled(Next(Next(s, e), ack), delete)
            && !InIndexOf(Next(Next(Next(s, e), ack), delete), p)
  {
    StoredIsListed(s, e, p);
    ListedIsAcked(s, e, p);
    DeleteRemoves(Next(Next(s, e), Ack(e.sid, e.w.p.id)), p);
  }

  // ---------------------------------------------------------------- all the way

  /** A length that no name in the set exceeds. */
  ghost function MaxLength(names: set<string>): (n: nat)
    ensures forall x :: x in names ==> |x| <= n
  {
    if names == {} then 0
    else
      var x :| x in names;
      var n := MaxLength(names - {x});
      if |x| > n then |x| else n
  }

  lemma NewSid(names: set<string>) returns (x: string)
    ensures x !in names && x != ""
  {
    x := seq(MaxLength(names) + 1, _ => 'x');
  }

  lemma AckedIs(s: State, sid: string, id: string, p: Packet)
    requires sid in s.sess && AcksListed(s, Ack(sid, id), p) && Known(s, p) && BareOf(p.to).Some?
    ensures Known(AckAt(s, sid, id), p) && AckAt(s, sid, id).log[p.id].fate == Acked
  {
  }

  function LoginPacket(jid: string): (p: Packet)
  {
    Packet("login", jid, "", "", MSG_TYPE_OPEN_SESSION, 0, "", "", None, "")
  }

  /** The first packet of a new session of the recipient, and the steps up to the ack of its login. */
  lemma StoredCanBeAcked(s: State, p: Packet) returns (ev: seq<Event>, t: State)
    requires Known(s, p) && InIndexOf(s, p) && BareOf(p.to).Some?
    ensures Leads(s, ev, t, true) && Known(t, p) && t.log[p.id].fate == Acked
  {
    var x := NewSid(s.sess.Keys);
    var s1 := Next(s, Accept(x, "", ""));
    var w := Msg(LoginPacket(p.to));
    var e := Open(x, w, true, AnyListing(s1.db.store, w));
    LeadsOne(s, Accept(x, "", ""), true);
    LoginCanBeAcked(s1, e, p);
    t := Next(Next(s1, e), Ack(x, "login"));
    ev := [Accept(x, "", "")] + [e, Ack(x, "login")];
    LeadsOn(s, [Accept(x, "", "")], s1, [e, Ack(x, "login")], t, true);
  }

  lemma LoginCanBeAcked(s: State, e: Event, p: Packet)
    requires e.Open? && Enabled(s, e) && Verify(e.w, e.auth).None? && BareOf(e.w.p.jid) == BareOf(p.to)
    requires Known(s, p) && InIndexOf(s, p) && BareOf(p.to).Some?
    ensures Enabled(Next(s, e), Ack(e.sid, e.w.p.id))
    ensures var t := Next(Next(s, e), Ack(e.sid, e.w.p.id));
            && Leads(s, [e, Ack(e.sid, e.w.p.id)], t, true) && Known(t, p) && t.log[p.id].fate == Acked
  {
    StoredIsListed(s, e, p);
    ListedIsAcked(s, e, p);
    OpenKnows(s, e, p);
    AckedIs(Next(s, e), e.sid, e.w.p.id, p);
    LeadsTwo(s, e, Ack(e.sid, e.w.p.id));
  }

  lemma OpenKnows(s: State, e: Event, p: Packet)
    requires e.Open? && Enabled(s, e) && Verify(e.w, e.auth).None? && Known(s, p)
    ensures Known(Next(s, e), p)
  {
    OpenLog(s, e.sid, e.w, e.auth, e.order);
  }

  lemma LeadsTwo(s: State, e: Event, f: Event)
    requires Enabled(s, e) && Enabled(Next(s, e), f)
    ensures Leads(s, [e, f], Next(Next(s, e), f), true)
  {
    LeadsOne(Next(s, e), f, true);
    LeadsThen(s, e, [f], Next(Next(s, e), f), true);
    assert [e] + [f] == [e, f];
  }

  lemma IndexedKnown(s: State, p: Packet)
    requires IndexOk(s) && InIndexOf(s, p)
    ensures Known(s, p) && BareOf(p.to).Some?
  {
    assert FieldOk(s, Owner(p), IdKey(p.id));
  }

  lemma StoringCanBeAcked(s: State, p: Packet) returns (ev: seq<Event>, t: State)
    requires Inv(s) && PutIdxCmd(p) in s.db.pend
    ensures Leads(s, ev, t, true) && Known(t, p) && t.log[p.id].fate == Acked
  {
    var e := Write(PutIdxCmd(p));
    WriteStores(s, p);
    NextOk(s, e);
    IndexedKnown(Next(s, e), p);
    var rest;
    rest, t := StoredCanBeAcked(Next(s, e), p);
    ev := [e] + rest;
    LeadsThen(s, e, rest, t, true);
  }

  /** From every state in which the server holds a packet there are steps after which it is acknowledged. */
  lemma HeldCanBeAcked(s: State, p: Packet) returns (ev: seq<Event>, t: State)
    requires Inv(s) && Held(s, p)
    ensures Leads(s, ev, t, true) && Known(t, p) && t.log[p.id].fate == Acked
  {
    if sid :| InBufferOf(s, sid, p) {
      var e := Shut(sid);
      CloseIsStoring(s, sid, p);
      NextOk(s, e);
      var rest;
      rest, t := StoringCanBeAcked(Next(s, e), p);
      ev := [e] + rest;
      LeadsThen(s, e, rest, t, true);
    } else if PutIdxCmd(p) in s.db.pend {
      ev, t := StoringCanBeAcked(s, p);
    } else {
      IndexedKnown(s, p);
      ev, t := StoredCanBeAcked(s, p);
    }
  }

  /** If the registry names a session that the sender's node takes for its own, it has it, logged in. */
  ghost predicate TargetThere(s: State, chan: string, b: string)
  {
    forall x :: Names(s, b, x) && x in s.sess && Local(chan, Item(s.sess[x].chan, x, None, 0)) ==>
                Found(s, chan, x) && s.sess[x].status.Login?
  }

  /** A packet that its sender routes into a queue with room, to a target that is there, comes to be held. */
  lemma SentIsHeld(s: State, sid: string, p: Packet) returns (ev: seq<Event>, t: State)
    requires Inv(s) && Sends(s, sid, p) && |Queue(s, s.sess[sid].chan)| < ROUTER_QUEUE_SIZE
    requires TargetThere(s, s.sess[sid].chan, Owner(p))
    ensures Leads(s, ev, t, true) && ev != [] && ev[0] == Submit(sid, p) && Held(t, p)
  {
    var e := Submit(sid, p);
    NextOk(s, e);
    if SessionKey(Owner(p)) in s.db.store {
      var it := SentIsQueued(s, sid, p);
      var f := Worker(s.sess[sid].chan, it, false);
      QueuedIsHeld(Submitted(s, sid, p), s.sess[sid].chan, it, p);
      LeadsTwo(s, e, f);
      ev, t := [e, f], Next(Next(s, e), f);
    } else {
      OfflineIsStoring(s, sid, p);
      LeadsOne(s, e, true);
      ev, t := [e], Next(s, e);
    }
  }

  lemma SentIsQueued(s: State, sid: string, p: Packet) returns (it: Item)
    requires RegistryOk(s) && Sends(s, sid, p) && |Queue(s, s.sess[sid].chan)| < ROUTER_QUEUE_SIZE
    requires TargetThere(s, s.sess[sid].chan, Owner(p)) && SessionKey(Owner(p)) in s.db.store
    ensures var t, chan := Submitted(s, sid, p), s.sess[sid].chan;
            && it in Queue(t, chan) && it.pkt == Some(p)
            && (Local(chan, it) ==> Found(t, chan, it.sid) && t.sess[it.sid].status.Login?)
  {
    assert EntryOk(s, Owner(p));
    var x := s.db.store[SessionKey(Owner(p))].v.sid;
    OnlineIsQueued(s, sid, p, x);
    SubmitKeepsSessions(s, sid, p, x);
    it := Item(s.sess[x].chan, x, Some(p), 0);
  }

  lemma SubmitKeepsSessions(s: State, sid: string, p: Packet, x: string)
    requires sid in s.sess && x in s.sess && s.sess[sid].status.Login?
    ensures var t := Submitted(s, sid, p);
            && x in t.sess && t.sess[x].status == s.sess[x].status && t.sess[x].chan == s.sess[x].chan
            && t.table == s.table
  {
  }

  lemma QueuedIsHeld(s: State, chan: string, it: Item, p: Packet)
    requires Inv(s) && it in Queue(s, chan) && it.pkt == Some(p)
    requires Local(chan, it) ==> Found(s, chan, it.sid) && s.sess[it.sid].status.Login?
    ensures Held(Next(s, Worker(chan, it, false)), p)
  {
    if Local(chan, it) {
      TakenIsDelivered(s, chan, it, p, false);
    } else {
      TakenIsSentOn(s, chan, it, p, false);
    }
  }

  /** From the sender to the acknowledgement. */
  lemma SentCanBeAcked(s: State, sid: string, p: Packet) returns (ev: seq<Event>, t: State)
    requires Inv(s) && Sends(s, sid, p) && |Queue(s, s.sess[sid].chan)| < ROUTER_QUEUE_SIZE
    requires TargetThere(s, s.sess[sid].chan, Owner(p))
    ensures Leads(s, ev, t, true) && ev != [] && ev[0] == Submit(sid, p) && Known(t, p) && t.log[p.id].fate == Acked
  {
    var first, m := SentIsHeld(s, sid, p);
    LeadsInv(s, first, m);
    var rest;
    rest, t := HeldCanBeAcked(m, p);
    ev := first + rest;
    LeadsOn(s, first, m, rest, t, true);
  }

  // ---------------------------------------------------------------- one session per address

  /** A login, even one that then fails the password check, asks for the session the registry names to be killed;
      a full queue refuses the request. */
  lemma LoginKicksPrevious(s: State, e: Event, x: string)
    requires RegistryOk(s) && e.Open? && Enabled(s, e) && e.w.Msg?
    requires e.w.p.mtype == MSG_TYPE_OPEN_SESSION && BareOf(e.w.p.jid).Some? && Names(s, Addr(e.w.p.jid), x)
    ensures x in s.sess
    ensures var q := Queue(s, s.sess[e.sid].chan);
            Queue(Next(s, e), s.sess[e.sid].chan) ==
            if |q| < ROUTER_QUEUE_SIZE then q + multiset{Item(s.sess[x].chan, x, None, KILL)} else q
  {
    var b := Addr(e.w.p.jid);
    assert EntryOk(s, b);
    OpenedQueue(s, e.sid, e.w, e.auth, e.order, s.db.store[SessionKey(b)].v);
  }

  lemma OpenedQueue(s: State, sid: string, w: Wire, auth: bool, order: seq<Key>, v: Val)
    requires sid in s.sess && OrderFits(s.db.store, w, order)
    requires w.Msg? && w.p.mtype == MSG_TYPE_OPEN_SESSION && BareOf(w.p.jid).Some?
    requires Get(s.db.store, SessionKey(Addr(w.p.jid))) == Some(v)
    ensures Queue(Opened(s, sid, w, auth, order), s.sess[sid].chan) == Route(Queue(s, s.sess[sid].chan), KillItem(v))
  {
    OpenQueue(View(s, sid), w, auth, order, v);
    BackIs(s, sid, OpenSession(View(s, sid), w, auth, order), s.sess[sid].chan);
  }

  lemma OpenQueue(c: Ctx, w: Wire, auth: bool, order: seq<Key>, v: Val)
    requires OrderFits(c.db.store, w, order) && w.Msg? && w.p.mtype == MSG_TYPE_OPEN_SESSION && BareOf(w.p.jid).Some?
    requires Get(c.db.store, SessionKey(Addr(w.p.jid))) == Some(v)
    ensures OpenSession(c, w, auth, order).routeQ == Route(c.routeQ, KillItem(v))
  {
  }

  /** The worker that takes the signal closes the session. */
  lemma SignalCloses(s: State, chan: string, it: Item, rpcOk: bool)
    requires it in Queue(s, chan) && it.pkt.None? && it.signal == KILL && Local(chan, it) && Found(s, chan, it.sid)
    ensures it.sid in Next(s, Worker(chan, it, rpcOk)).sess
    ensures Next(s, Worker(chan, it, rpcOk)).sess[it.sid].status.Close?
  {
    CloseAtClosed(Taken(s, chan, it), it.sid);
  }
}
