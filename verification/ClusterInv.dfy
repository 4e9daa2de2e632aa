/** What every step of the cluster keeps. */
module ClusterInv {
  import opened Options
  import opened Keys
  import opened Packets
  import opened Redis
  import opened Database
  import opened Sessions
  import opened Cluster

  // ---------------------------------------------------------------- the invariant

  ghost predicate At(s: State, id: string, f: Fate)
  {
    id in s.log && s.log[id].fate == f
  }

  ghost predicate Known(s: State, p: Packet)
  {
    p.id in s.log && s.log[p.id].p == p
  }

  /** The packet is in no container. */
  ghost predicate Limbo(f: Fate)
  {
    f.Rejected? || f.Refused? || f.Dropped? || f.Spread?
  }

  ghost predicate Settled(s: State, id: string)
  {
    id in s.log && (s.log[id].fate.Stored? || s.log[id].fate.Acked?)
  }

  ghost predicate IdsOk(s: State)
  {
    forall id :: id in s.log ==> s.log[id].p.id == id
  }

  /** The session has logged in under the address. */
  ghost predicate Serves(s: State, sid: string, b: Option<string>)
  {
    b.Some? && sid in s.sess && !s.sess[sid].status.Conn? && BareOf(s.sess[sid].jid) == b
  }

  ghost predicate ItemOk(s: State, chan: string, it: Item)
  {
    match it.pkt
    case None => it.signal == KILL
    case Some(p) =>
      && it.signal == 0
      && Known(s, p) && At(s, p.id, Queued(chan, it))
      && Queue(s, chan)[it] == 1
      && Serves(s, it.sid, BareOf(p.to)) && it.channel == s.sess[it.sid].chan
  }

  ghost predicate QueuedIsIn(s: State, id: string)
    requires id in s.log && s.log[id].fate.Queued?
  {
    s.log[id].fate.item in Queue(s, s.log[id].fate.chan) && s.log[id].fate.item.pkt == Some(s.log[id].p)
  }

  ghost predicate QueuesOk(s: State)
  {
    && (forall chan, it :: it in Queue(s, chan) ==> ItemOk(s, chan, it))
    && (forall id :: id in s.log && s.log[id].fate.Queued? ==> QueuedIsIn(s, id))
  }

  ghost predicate HopOk(s: State, chan: string, p: Packet)
  {
    Known(s, p) && At(s, p.id, Hop(chan)) && Hops(s, chan)[p] == 1
  }

  ghost predicate HopsOk(s: State)
  {
    && (forall chan, p :: p in Hops(s, chan) ==> HopOk(s, chan, p))
    && (forall id :: id in s.log && s.log[id].fate.Hop? ==> s.log[id].p in Hops(s, s.log[id].fate.chan))
  }

  ghost predicate BufferOk(s: State, sid: string)
    requires sid in s.sess
  {
    var me := s.sess[sid];
    && me.sid == sid
    && (me.status.Conn? ==> me.jid == "" && me.buff == map[])
    && (me.status.Login? ==> BareOf(me.jid).Some?)
    && (forall id :: id in me.buff ==>
          && me.buff[id].id == id && Known(s, me.buff[id])
          && BareOf(me.jid).Some? && BareOf(me.buff[id].to) == BareOf(me.jid)
          && (me.status.Login? ==> At(s, id, Buffered(sid))))
  }

  ghost predicate BuffersOk(s: State)
  {
    && (forall sid :: sid in s.sess ==> BufferOk(s, sid))
    && (forall id :: id in s.log && s.log[id].fate.Buffered? ==>
          && s.log[id].fate.sid in s.sess && s.sess[s.log[id].fate.sid].status.Login?
          && id in s.sess[s.log[id].fate.sid].buff)
  }

  ghost predicate CmdOk(s: State, c: Cmd)
  {
    match c
    case HSet(_, f, _) =>
      && f.IdKey? && At(s, f.id, Storing) && c == PutIdxCmd(s.log[f.id].p)
      && BareOf(s.log[f.id].p.to).Some? && s.db.pend[c] == 1
    case Set(k, v) => k.IdKey? && k.id in s.log && v == PacketVal(s.log[k.id].p)
    case HDel(i, f) =>
      || (i.NodeIdx? && f.SessionKey?)
      || (i.OfflineIdx? && f.IdKey? && Settled(s, f.id)
          && (BareOf(s.log[f.id].p.to) == Some(i.bare) ==> At(s, f.id, Acked)))
    case Del(k) => k.IdKey? || k.SessionKey?
  }

  ghost predicate PendOk(s: State)
  {
    && (forall c :: c in s.db.pend ==> CmdOk(s, c))
    && (forall id :: id in s.log && s.log[id].fate.Storing? ==> PutIdxCmd(s.log[id].p) in s.db.pend)
  }

  ghost predicate FieldOk(s: State, b: string, f: Key)
    requires f in Fields(s.db.store, OfflineIdx(b))
  {
    && f.IdKey? && Settled(s, f.id)
    && Fields(s.db.store, OfflineIdx(b))[f] == PacketVal(s.log[f.id].p)
    && BareOf(s.log[f.id].p.to) == Some(b)
    && (At(s, f.id, Acked) ==> HDel(OfflineIdx(b), f) in s.db.pend)
  }

  ghost predicate IndexOk(s: State)
  {
    && (forall k :: k in s.db.store && (k.OfflineIdx? || k.NodeIdx?) ==> s.db.store[k].Hash?)
    && (forall b, f :: f in Fields(s.db.store, OfflineIdx(b)) ==> FieldOk(s, b, f))
    && (forall id :: id in s.log && s.log[id].fate.Stored? ==>
          && BareOf(s.log[id].p.to).Some?
          && IdKey(id) in Fields(s.db.store, OfflineIdx(Owner(s.log[id].p))))
  }

  ghost predicate CachesOk(s: State)
  {
    forall chan, l, id :: l in CacheAt(s, chan) && id in CacheAt(s, chan)[l] ==> Settled(s, id)
  }

  ghost predicate EntryOk(s: State, b: string)
    requires SessionKey(b) in s.db.store
  {
    var e := s.db.store[SessionKey(b)];
    && e.Str? && e.v.StatusVal?
    && Serves(s, e.v.sid, Some(b)) && e.v.chan == s.sess[e.v.sid].chan
    && b in s.latest && s.latest[b] == e.v.sid
    && (s.sess[e.v.sid].status.Close? ==> Del(SessionKey(b)) in s.db.pend)
  }

  ghost predicate RegistryOk(s: State)
  {
    && (forall b :: SessionKey(b) in s.db.store ==> EntryOk(s, b))
    && (forall b :: b in s.latest ==> Serves(s, s.latest[b], Some(b)))
  }

  ghost predicate CleanOk(s: State)
  {
    && (forall sid :: sid in s.clean ==> sid in s.sess && s.sess[sid].status.Close? && s.clean[sid] == 1)
    && (forall sid :: sid in s.table ==> sid in s.sess)
  }

  ghost predicate Inv(s: State)
  {
    && IdsOk(s) && QueuesOk(s) && HopsOk(s) && BuffersOk(s)
    && PendOk(s) && IndexOk(s) && CachesOk(s) && RegistryOk(s) && CleanOk(s)
  }

  lemma StartOk(s: State)
    requires Start(s)
    ensures Inv(s)
  {
    forall b, f | f in Fields(s.db.store, OfflineIdx(b)) ensures FieldOk(s, b, f) {
      assert IdKey(f.id) in Fields(s.db.store, OfflineIdx(b));
    }
  }

  // ---------------------------------------------------------------- frames

  ghost predicate SameQueues(s: State, t: State) { forall c :: Queue(s, c) == Queue(t, c) }
  ghost predicate SameHops(s: State, t: State) { forall c :: Hops(s, c) == Hops(t, c) }
  ghost predicate SameCaches(s: State, t: State) { forall c :: CacheAt(s, c) == CacheAt(t, c) }

  /** Packets stay in the log, sessions stay, and an address once logged in under is kept. */
  ghost predicate Grows(s: State, t: State)
  {
    && (forall id :: id in s.log ==> id in t.log && t.log[id].p == s.log[id].p)
    && SessionsKept(s, t)
  }

  ghost predicate SessionsKept(s: State, t: State)
  {
    forall sid :: sid in s.sess ==>
      && sid in t.sess && t.sess[sid].chan == s.sess[sid].chan
      && (!s.sess[sid].status.Conn? ==> !t.sess[sid].status.Conn? && t.sess[sid].jid == s.sess[sid].jid)
      && (s.sess[sid].status.Close? ==> t.sess[sid].status.Close?)
  }

  lemma OneSessionKept(s: State, t: State, sid: string, me: Sess)
    requires sid in s.sess && t.sess == s.sess[sid := me] && me.chan == s.sess[sid].chan
    requires !s.sess[sid].status.Conn? ==> !me.status.Conn? && me.jid == s.sess[sid].jid
    requires s.sess[sid].status.Close? ==> me.status.Close?
    ensures SessionsKept(s, t)
  {
  }

  ghost predicate Same(s: State, t: State, id: string)
  {
    (id in s.log <==> id in t.log) && (id in s.log ==> s.log[id] == t.log[id])
  }

  datatype Kind = InLimbo | InQueue | InHop | InBuffer | InWrite | InIndex | Done

  ghost function KindOf(f: Fate): (k: Kind)
  {
    match f
    case Rejected => InLimbo
    case Refused => InLimbo
    case Dropped => InLimbo
    case Spread => InLimbo
    case Queued(_, _) => InQueue
    case Hop(_) => InHop
    case Buffered(_) => InBuffer
    case Storing => InWrite
    case Stored => InIndex
    case Acked => Done
  }

  ghost predicate Kinds(s: State, m: set<string>, k: Kind)
  {
    forall id :: id in m && id in s.log ==> KindOf(s.log[id].fate) == k
  }

  /** From `s` to `t` the packets in `m` go from one kind of place to another; the others stay where they are. */
  ghost predicate Link(s: State, t: State, m: set<string>, a: Kind, b: Kind)
  {
    && Grows(s, t)
    && (forall id :: id !in m ==> Same(s, t, id))
    && Kinds(s, m, a) && Kinds(t, m, b)
  }

  /** Packets never come back from the index or from acknowledgement. */
  ghost predicate Forward(a: Kind, b: Kind)
  {
    (a.InIndex? ==> b.InIndex? || b.Done?) && (a.Done? ==> b.Done?)
  }

  ghost predicate IndexesKept(d: Db, e: Db)
  {
    && (forall b :: SameOn(d.store, e.store, OfflineIdx(b)))
    && (forall n :: NodeIdx(n) in e.store ==> e.store[NodeIdx(n)].Hash? || SameOn(d.store, e.store, NodeIdx(n)))
    && (forall b, f :: HDel(OfflineIdx(b), f) in d.pend ==> HDel(OfflineIdx(b), f) in e.pend)
  }

  ghost predicate RegistryKept(d: Db, e: Db)
  {
    && (forall b :: SameOn(d.store, e.store, SessionKey(b)))
    && (forall b :: Del(SessionKey(b)) in d.pend ==> Del(SessionKey(b)) in e.pend)
  }

  lemma MorePending(d: Db, e: Db)
    requires e.store == d.store && d.pend <= e.pend
    ensures IndexesKept(d, e) && RegistryKept(d, e)
  {
  }

  ghost predicate SameStatus(s: State, t: State)
  {
    forall sid :: sid in s.sess ==> sid in t.sess && t.sess[sid].status == s.sess[sid].status
  }

  lemma StayLink(s: State, t: State)
    requires t.log == s.log && t.sess == s.sess
    ensures Link(s, t, {}, InLimbo, InLimbo)
  {
  }

  lemma FrameQueues(s: State, t: State, m: set<string>, a: Kind, b: Kind)
    requires QueuesOk(s) && Link(s, t, m, a, b) && SameQueues(s, t)
    requires !a.InQueue? && !b.InQueue?
    ensures QueuesOk(t)
  {
    forall chan, it | it in Queue(t, chan) ensures ItemOk(t, chan, it) {
      assert Queue(s, chan) == Queue(t, chan);
      assert ItemOk(s, chan, it);
    }
    forall id | id in t.log && t.log[id].fate.Queued? ensures QueuedIsIn(t, id) {
      assert Same(s, t, id) && QueuedIsIn(s, id);
    }
  }

  lemma FrameHops(s: State, t: State, m: set<string>, a: Kind, b: Kind)
    requires HopsOk(s) && Link(s, t, m, a, b) && SameHops(s, t)
    requires !a.InHop? && !b.InHop?
    ensures HopsOk(t)
  {
    forall chan, p | p in Hops(t, chan) ensures HopOk(t, chan, p) {
      assert Hops(s, chan) == Hops(t, chan);
      assert HopOk(s, chan, p);
      assert Same(s, t, p.id);
    }
    forall id | id in t.log && t.log[id].fate.Hop? ensures t.log[id].p in Hops(t, t.log[id].fate.chan) {
      assert Same(s, t, id);
    }
  }

  lemma FrameBuffers(s: State, t: State, m: set<string>, a: Kind, b: Kind)
    requires BuffersOk(s) && Link(s, t, m, a, b) && t.sess == s.sess
    requires !a.InBuffer? && !b.InBuffer?
    ensures BuffersOk(t)
  {
    forall sid | sid in t.sess ensures BufferOk(t, sid) {
      FrameBuffer(s, t, m, a, b, sid);
    }
    forall id | id in t.log && t.log[id].fate.Buffered?
      ensures t.log[id].fate.sid in t.sess && t.sess[t.log[id].fate.sid].status.Login?
      ensures id in t.sess[t.log[id].fate.sid].buff
    {
      assert Same(s, t, id);
    }
  }

  lemma FrameBuffer(s: State, t: State, m: set<string>, a: Kind, b: Kind, sid: string)
    requires Link(s, t, m, a, b) && !a.InBuffer? && sid in s.sess && BufferOk(s, sid)
    requires sid in t.sess && t.sess[sid] == s.sess[sid]
    ensures BufferOk(t, sid)
  {
    var me := s.sess[sid];
    forall id | id in me.buff ensures Known(t, me.buff[id]) && (me.status.Login? ==> At(t, id, Buffered(sid))) {
      if me.status.Login? { assert Same(s, t, id); }
    }
  }

  lemma SettledStays(s: State, t: State, m: set<string>, a: Kind, b: Kind, id: string)
    requires Link(s, t, m, a, b) && Forward(a, b) && Settled(s, id)
    ensures Settled(t, id) && t.log[id].p == s.log[id].p && (At(s, id, Acked) ==> At(t, id, Acked))
  {
    if id !in m { assert Same(s, t, id); }
  }

  lemma FramePend(s: State, t: State, m: set<string>, a: Kind, b: Kind)
    requires PendOk(s) && Link(s, t, m, a, b) && t.db.pend == s.db.pend && Forward(a, b)
    requires !a.InWrite? && !b.InWrite?
    ensures PendOk(t)
  {
    forall c | c in t.db.pend ensures CmdOk(t, c) {
      assert CmdOk(s, c);
      if c.HDel? && c.idx.OfflineIdx? { SettledStays(s, t, m, a, b, c.field.id); }
    }
    forall id | id in t.log && t.log[id].fate.Storing? ensures Same(s, t, id) {}
  }

  lemma FieldsKept(d: Db, e: Db, bare: string)
    requires IndexesKept(d, e)
    ensures Fields(e.store, OfflineIdx(bare)) == Fields(d.store, OfflineIdx(bare))
  {
    assert SameOn(d.store, e.store, OfflineIdx(bare));
  }

  lemma FieldKept(s: State, t: State, m: set<string>, a: Kind, b: Kind, bare: string, f: Key)
    requires Link(s, t, m, a, b) && !a.InIndex? && !a.Done? && IndexesKept(s.db, t.db)
    requires f in Fields(s.db.store, OfflineIdx(bare)) && FieldOk(s, bare, f)
    ensures f in Fields(t.db.store, OfflineIdx(bare)) && FieldOk(t, bare, f)
  {
    FieldsKept(s.db, t.db, bare);
    assert Same(s, t, f.id);
  }

  lemma FrameIndex(s: State, t: State, m: set<string>, a: Kind, b: Kind)
    requires IndexOk(s) && Link(s, t, m, a, b) && IndexesKept(s.db, t.db)
    requires !a.InIndex? && !a.Done? && !b.InIndex?
    ensures IndexOk(t)
  {
    forall k | k in t.db.store && (k.OfflineIdx? || k.NodeIdx?) ensures t.db.store[k].Hash? {
      if k.OfflineIdx? {
        assert SameOn(s.db.store, t.db.store, OfflineIdx(k.bare));
      } else {
        assert NodeIdx(k.node) == k;
      }
    }
    forall bare, f | f in Fields(t.db.store, OfflineIdx(bare)) ensures FieldOk(t, bare, f) {
      FieldsKept(s.db, t.db, bare);
      FieldKept(s, t, m, a, b, bare, f);
    }
    forall id | id in t.log && t.log[id].fate.Stored?
      ensures BareOf(t.log[id].p.to).Some? && IdKey(id) in Fields(t.db.store, OfflineIdx(Owner(t.log[id].p)))
    {
      assert Same(s, t, id);
      FieldsKept(s.db, t.db, Owner(t.log[id].p));
    }
  }

  lemma FrameCaches(s: State, t: State, m: set<string>, a: Kind, b: Kind)
    requires CachesOk(s) && Link(s, t, m, a, b) && SameCaches(s, t) && Forward(a, b)
    ensures CachesOk(t)
  {
    forall chan, l, id | l in CacheAt(t, chan) && id in CacheAt(t, chan)[l] ensures Settled(t, id) {
      assert CacheAt(s, chan) == CacheAt(t, chan);
      SettledStays(s, t, m, a, b, id);
    }
  }

  lemma FrameRegistry(s: State, t: State)
    requires RegistryOk(s) && Grows(s, t) && t.latest == s.latest
    requires RegistryKept(s.db, t.db) && SameStatus(s, t)
    ensures RegistryOk(t)
  {
    forall b | SessionKey(b) in t.db.store ensures EntryOk(t, b) {
      assert SameOn(s.db.store, t.db.store, SessionKey(b));
      assert EntryOk(s, b);
    }
  }

  lemma FrameClean(s: State, t: State)
    requires CleanOk(s) && Grows(s, t) && t.clean == s.clean && t.table <= s.table
    ensures CleanOk(t)
  {
  }

  /** A move that stays out of queues, hops and buffers. */
  lemma FrameTransport(s: State, t: State, m: set<string>, a: Kind, b: Kind)
    requires QueuesOk(s) && HopsOk(s) && BuffersOk(s) && Link(s, t, m, a, b)
    requires SameQueues(s, t) && SameHops(s, t) && t.sess == s.sess
    requires !a.InQueue? && !b.InQueue? && !a.InHop? && !b.InHop? && !a.InBuffer? && !b.InBuffer?
    ensures QueuesOk(t) && HopsOk(t) && BuffersOk(t)
  {
    FrameQueues(s, t, m, a, b);
    FrameHops(s, t, m, a, b);
    FrameBuffers(s, t, m, a, b);
  }

  // ---------------------------------------------------------------- one packet moves

  /** One packet changes its fate to `f`; sessions, tables and caches stay. */
  ghost predicate Moves(s: State, t: State, p: Packet, f: Fate)
  {
    && p.id in s.log && s.log[p.id].p == p && t.log == s.log[p.id := Track(p, f)]
    && t.sess == s.sess && t.table == s.table && t.clean == s.clean && t.latest == s.latest
  }

  lemma MovesLink(s: State, t: State, p: Packet, f: Fate)
    requires Moves(s, t, p, f)
    ensures Link(s, t, {p.id}, KindOf(s.log[p.id].fate), KindOf(f))
    ensures IdsOk(s) ==> IdsOk(t)
  {
  }

  /** Caches, registry, clean channel and tables, untouched by a move. */
  lemma MoveRest(s: State, t: State, m: set<string>, a: Kind, b: Kind)
    requires CachesOk(s) && RegistryOk(s) && CleanOk(s) && Link(s, t, m, a, b) && Forward(a, b)
    requires SameCaches(s, t) && t.sess == s.sess && t.table == s.table && t.clean == s.clean && t.latest == s.latest
    requires RegistryKept(s.db, t.db)
    ensures CachesOk(t) && RegistryOk(t) && CleanOk(t)
  {
    FrameCaches(s, t, m, a, b);
    FrameRegistry(s, t);
    FrameClean(s, t);
  }

  ghost predicate QueueIs(s: State, t: State, chan: string, q: multiset<Item>)
  {
    Queue(t, chan) == q && forall c :: c != chan ==> Queue(t, c) == Queue(s, c)
  }

  ghost predicate HopsAre(s: State, t: State, chan: string, q: multiset<Packet>)
  {
    Hops(t, chan) == q && forall c :: c != chan ==> Hops(t, c) == Hops(s, c)
  }

  /** A move between limbo, queues and hops leaves buffers and database as they are. */
  lemma MoveOutside(s: State, t: State, m: set<string>, a: Kind, b: Kind)
    requires BuffersOk(s) && PendOk(s) && IndexOk(s) && CachesOk(s) && RegistryOk(s) && CleanOk(s)
    requires Link(s, t, m, a, b)
    requires a.InLimbo? || a.InQueue? || a.InHop?
    requires b.InLimbo? || b.InQueue? || b.InHop?
    requires SameCaches(s, t) && t.sess == s.sess && t.table == s.table && t.clean == s.clean && t.latest == s.latest
    requires t.db == s.db
    ensures BuffersOk(t) && PendOk(t) && IndexOk(t) && CachesOk(t) && RegistryOk(t) && CleanOk(t)
  {
    MorePending(s.db, t.db);
    FrameBuffers(s, t, m, a, b);
    FramePend(s, t, m, a, b);
    FrameIndex(s, t, m, a, b);
    MoveRest(s, t, m, a, b);
  }

  lemma RecordShape(s: State, p: Packet)
    ensures var t := Record(s, p, Rejected);
            && SameQueues(s, t) && SameHops(s, t) && SameCaches(s, t) && t.sess == s.sess && t.db == s.db
            && t.table == s.table && t.clean == s.clean && t.latest == s.latest && (IdsOk(s) ==> IdsOk(t))
  {
  }

  lemma RecordLink(s: State, p: Packet)
    requires p.id !in s.log
    ensures Link(s, Record(s, p, Rejected), {p.id}, InLimbo, InLimbo)
  {
  }

  /** A new packet enters, still nowhere. */
  lemma RecordOk(s: State, p: Packet)
    requires Inv(s) && p.id !in s.log
    ensures Inv(Record(s, p, Rejected))
  {
    var t := Record(s, p, Rejected);
    RecordShape(s, p);
    RecordLink(s, p);
    MoveOutside(s, t, {p.id}, InLimbo, InLimbo);
    FrameQueues(s, t, {p.id}, InLimbo, InLimbo);
    FrameHops(s, t, {p.id}, InLimbo, InLimbo);
  }

  lemma EndOk(s: State, t: State, p: Packet, f: Fate)
    requires Inv(s) && Moves(s, t, p, f) && t.db == s.db && SameQueues(s, t) && SameHops(s, t) && SameCaches(s, t)
    requires Limbo(s.log[p.id].fate) && Limbo(f)
    ensures Inv(t)
  {
    MovesLink(s, t, p, f);
    MoveOutside(s, t, {p.id}, InLimbo, InLimbo);
    FrameQueues(s, t, {p.id}, InLimbo, InLimbo);
    FrameHops(s, t, {p.id}, InLimbo, InLimbo);
  }

  /** An item stays what it is when another packet moves. */
  lemma ItemStays(s: State, t: State, chan: string, it: Item, p: Packet, f: Fate)
    requires ItemOk(s, chan, it) && Moves(s, t, p, f) && (it.pkt.Some? ==> it.pkt.value.id != p.id)
    requires Queue(t, chan)[it] == Queue(s, chan)[it]
    ensures ItemOk(t, chan, it)
  {
  }

  lemma QueueLoses(s: State, t: State, chan: string, it: Item, p: Packet, f: Fate)
    requires IdsOk(s) && QueuesOk(s) && it in Queue(s, chan) && it.pkt == Some(p) && Moves(s, t, p, f) && Limbo(f)
    requires QueueIs(s, t, chan, Queue(s, chan) - multiset{it})
    ensures QueuesOk(t) && KindOf(s.log[p.id].fate) == InQueue
  {
    assert ItemOk(s, chan, it);
    forall c, i | i in Queue(t, c) ensures ItemOk(t, c, i) {
      assert i in Queue(s, c) && ItemOk(s, c, i);
      ItemStays(s, t, c, i, p, f);
    }
    forall id | id in t.log && t.log[id].fate.Queued? ensures QueuedIsIn(t, id) {
      assert Same(s, t, id) && QueuedIsIn(s, id);
    }
  }

  /** A worker takes a packet out of the queue. */
  lemma LiftQueued(s: State, t: State, chan: string, it: Item, p: Packet, f: Fate)
    requires Inv(s) && it in Queue(s, chan) && it.pkt == Some(p) && Moves(s, t, p, f) && Limbo(f)
    requires t.db == s.db && SameHops(s, t) && SameCaches(s, t)
    requires QueueIs(s, t, chan, Queue(s, chan) - multiset{it})
    ensures Inv(t)
  {
    QueueLoses(s, t, chan, it, p, f);
    MovesLink(s, t, p, f);
    MoveOutside(s, t, {p.id}, InQueue, InLimbo);
    FrameHops(s, t, {p.id}, InQueue, InLimbo);
  }

  lemma ItemLands(s: State, t: State, chan: string, it: Item, p: Packet)
    requires it.pkt == Some(p) && it.signal == 0 && Moves(s, t, p, Queued(chan, it)) && Queue(t, chan)[it] == 1
    requires Serves(s, it.sid, BareOf(p.to)) && it.channel == s.sess[it.sid].chan
    ensures ItemOk(t, chan, it)
  {
  }

  lemma QueueGains(s: State, t: State, chan: string, it: Item, p: Packet)
    requires QueuesOk(s) && it.pkt == Some(p) && it.signal == 0 && Moves(s, t, p, Queued(chan, it))
    requires QueueIs(s, t, chan, Queue(s, chan) + multiset{it}) && Limbo(s.log[p.id].fate)
    requires Serves(s, it.sid, BareOf(p.to)) && it.channel == s.sess[it.sid].chan
    ensures QueuesOk(t)
  {
    assert it !in Queue(s, chan) by { assert it in Queue(s, chan) ==> ItemOk(s, chan, it); }
    ItemLands(s, t, chan, it, p);
    forall c, i | i in Queue(t, c) ensures ItemOk(t, c, i) {
      if i in Queue(s, c) {
        assert ItemOk(s, c, i);
        ItemStays(s, t, c, i, p, Queued(chan, it));
      }
    }
    forall id | id in t.log && t.log[id].fate.Queued? ensures QueuedIsIn(t, id) {
      if id != p.id { assert Same(s, t, id) && QueuedIsIn(s, id); }
    }
  }

  /** Router.Route accepts a packet for a session its address was looked up as. */
  lemma LandQueued(s: State, t: State, chan: string, it: Item, p: Packet)
    requires Inv(s) && it.pkt == Some(p) && it.signal == 0 && Moves(s, t, p, Queued(chan, it))
    requires t.db == s.db && SameHops(s, t) && SameCaches(s, t)
    requires QueueIs(s, t, chan, Queue(s, chan) + multiset{it}) && Limbo(s.log[p.id].fate)
    requires Serves(s, it.sid, BareOf(p.to)) && it.channel == s.sess[it.sid].chan
    ensures Inv(t)
  {
    QueueGains(s, t, chan, it, p);
    MovesLink(s, t, p, Queued(chan, it));
    MoveOutside(s, t, {p.id}, InLimbo, InQueue);
    FrameHops(s, t, {p.id}, InLimbo, InQueue);
  }

  /** The queues differ at most in how often they hold `it`. */
  ghost predicate QueuesBut(s: State, t: State, it: Item)
  {
    forall c, i :: i != it ==> Queue(t, c)[i] == Queue(s, c)[i]
  }

  /** Signals come and go without touching packets. */
  lemma SignalOk(s: State, t: State, it: Item)
    requires Inv(s) && it.pkt.None? && it.signal == KILL && QueuesBut(s, t, it)
    requires t.log == s.log && t.sess == s.sess && t.db == s.db && SameHops(s, t) && SameCaches(s, t)
    requires t.table == s.table && t.clean == s.clean && t.latest == s.latest
    ensures Inv(t)
  {
    StayLink(s, t);
    MoveOutside(s, t, {}, InLimbo, InLimbo);
    FrameHops(s, t, {}, InLimbo, InLimbo);
    SignalQueues(s, t, it);
  }

  lemma SignalQueues(s: State, t: State, it: Item)
    requires QueuesOk(s) && it.pkt.None? && it.signal == KILL && QueuesBut(s, t, it)
    requires t.log == s.log && t.sess == s.sess
    ensures QueuesOk(t)
  {
    forall c, i | i in Queue(t, c) ensures ItemOk(t, c, i) {
      if i != it {
        assert Queue(t, c)[i] == Queue(s, c)[i];
        assert ItemOk(s, c, i);
      }
    }
    forall id | id in t.log && t.log[id].fate.Queued?
      ensures t.log[id].fate.item in Queue(t, t.log[id].fate.chan) && t.log[id].fate.item.pkt == Some(t.log[id].p)
    {
      var c, i := s.log[id].fate.chan, s.log[id].fate.item;
      assert i in Queue(s, c) && i != it;
      assert Queue(t, c)[i] == Queue(s, c)[i];
    }
  }

  lemma HopStays(s: State, t: State, chan: string, q: Packet, p: Packet, f: Fate)
    requires HopOk(s, chan, q) && Moves(s, t, p, f) && q.id != p.id && Hops(t, chan)[q] == Hops(s, chan)[q]
    ensures HopOk(t, chan, q)
  {
  }

  lemma HopsLose(s: State, t: State, chan: string, p: Packet, f: Fate)
    requires IdsOk(s) && HopsOk(s) && p in Hops(s, chan) && Moves(s, t, p, f) && Limbo(f)
    requires HopsAre(s, t, chan, Hops(s, chan) - multiset{p})
    ensures HopsOk(t) && KindOf(s.log[p.id].fate) == InHop
  {
    assert HopOk(s, chan, p);
    forall c, q | q in Hops(t, c) ensures HopOk(t, c, q) {
      assert q in Hops(s, c) && HopOk(s, c, q);
      HopStays(s, t, c, q, p, f);
    }
    forall id | id in t.log && t.log[id].fate.Hop? ensures t.log[id].p in Hops(t, t.log[id].fate.chan) {
      assert Same(s, t, id);
    }
  }

  /** A message is taken from the data channel. */
  lemma LiftHop(s: State, t: State, chan: string, p: Packet, f: Fate)
    requires Inv(s) && p in Hops(s, chan) && Moves(s, t, p, f) && Limbo(f)
    requires t.db == s.db && SameQueues(s, t) && SameCaches(s, t)
    requires HopsAre(s, t, chan, Hops(s, chan) - multiset{p})
    ensures Inv(t)
  {
    HopsLose(s, t, chan, p, f);
    MovesLink(s, t, p, f);
    MoveOutside(s, t, {p.id}, InHop, InLimbo);
    FrameQueues(s, t, {p.id}, InHop, InLimbo);
  }

  lemma HopsGain(s: State, t: State, chan: string, p: Packet)
    requires HopsOk(s) && Moves(s, t, p, Hop(chan)) && Limbo(s.log[p.id].fate)
    requires HopsAre(s, t, chan, Hops(s, chan) + multiset{p})
    ensures HopsOk(t)
  {
    assert p in Hops(s, chan) ==> HopOk(s, chan, p);
    forall c, q | q in Hops(t, c) ensures HopOk(t, c, q) {
      if q in Hops(s, c) {
        assert HopOk(s, c, q);
        HopStays(s, t, c, q, p, Hop(chan));
      }
    }
    forall id | id in t.log && t.log[id].fate.Hop? ensures t.log[id].p in Hops(t, t.log[id].fate.chan) {
      if id != p.id { assert Same(s, t, id); }
    }
  }

  /** A packet is published to another node. */
  lemma LandHop(s: State, t: State, chan: string, p: Packet)
    requires Inv(s) && Moves(s, t, p, Hop(chan)) && Limbo(s.log[p.id].fate)
    requires t.db == s.db && SameQueues(s, t) && SameCaches(s, t)
    requires HopsAre(s, t, chan, Hops(s, chan) + multiset{p})
    ensures Inv(t)
  {
    HopsGain(s, t, chan, p);
    MovesLink(s, t, p, Hop(chan));
    MoveOutside(s, t, {p.id}, InLimbo, InHop);
    FrameQueues(s, t, {p.id}, InLimbo, InHop);
  }

  // ---------------------------------------------------------------- into the store and into a buffer

  lemma PendGains(s: State, t: State, p: Packet)
    requires PendOk(s) && Moves(s, t, p, Storing) && Limbo(s.log[p.id].fate) && BareOf(p.to).Some?
    requires Link(s, t, {p.id}, InLimbo, InWrite)
    requires t.db == StorePacket(s.db, p)
    ensures PendOk(t)
  {
    var put, copy := PutIdxCmd(p), PutKeyCmd(p);
    assert t.db.pend == s.db.pend + multiset{put, copy};
    assert put in s.db.pend ==> CmdOk(s, put);
    forall c | c in t.db.pend ensures CmdOk(t, c) {
      if c in s.db.pend && c != put {
        assert CmdOk(s, c);
        if c.HSet? { assert t.db.pend[c] == s.db.pend[c]; }
        if c.HDel? && c.idx.OfflineIdx? { SettledStays(s, t, {p.id}, InLimbo, InWrite, c.field.id); }
      }
    }
    forall id | id in t.log && t.log[id].fate.Storing? ensures PutIdxCmd(t.log[id].p) in t.db.pend {
      if id != p.id { assert Same(s, t, id); }
    }
  }

  /** StorePacket. */
  lemma LandStoring(s: State, t: State, p: Packet)
    requires Inv(s) && Moves(s, t, p, Storing) && SameQueues(s, t) && SameHops(s, t) && SameCaches(s, t)
    requires Limbo(s.log[p.id].fate) && BareOf(p.to).Some?
    requires t.db == StorePacket(s.db, p)
    ensures Inv(t)
  {
    MovesLink(s, t, p, Storing);
    PendGains(s, t, p);
    MorePending(s.db, t.db);
    FrameQueues(s, t, {p.id}, InLimbo, InWrite);
    FrameHops(s, t, {p.id}, InLimbo, InWrite);
    FrameBuffers(s, t, {p.id}, InLimbo, InWrite);
    FrameIndex(s, t, {p.id}, InLimbo, InWrite);
    MoveRest(s, t, {p.id}, InLimbo, InWrite);
  }

  ghost predicate Buffers(s: State, t: State, sid: string, p: Packet)
  {
    && Known(s, p) && Limbo(s.log[p.id].fate)
    && sid in s.sess && s.sess[sid].status.Login? && BareOf(p.to) == BareOf(s.sess[sid].jid)
    && t.sess == s.sess[sid := s.sess[sid].(buff := s.sess[sid].buff[p.id := p])]
    && t.log == s.log[p.id := Track(p, Buffered(sid))]
  }

  lemma BuffersLink(s: State, t: State, sid: string, p: Packet)
    requires Buffers(s, t, sid, p)
    ensures Link(s, t, {p.id}, InLimbo, InBuffer) && SameStatus(s, t)
    ensures IdsOk(s) ==> IdsOk(t)
  {
  }

  lemma BufferOfTarget(s: State, t: State, sid: string, p: Packet)
    requires Buffers(s, t, sid, p) && BufferOk(s, sid)
    ensures BufferOk(t, sid)
  {
  }

  lemma BufferOfOther(s: State, t: State, sid: string, p: Packet, x: string)
    requires Buffers(s, t, sid, p) && x in s.sess && x != sid && BufferOk(s, x)
    ensures BufferOk(t, x)
  {
    var me := t.sess[x];
    forall id | id in me.buff ensures Known(t, me.buff[id]) && (me.status.Login? ==> At(t, id, Buffered(x))) {
      if id != p.id { assert Same(s, t, id); }
    }
  }

  lemma BufferGains(s: State, t: State, sid: string, p: Packet)
    requires BuffersOk(s) && Buffers(s, t, sid, p)
    ensures BuffersOk(t)
  {
    forall x | x in t.sess ensures BufferOk(t, x) {
      assert BufferOk(s, x);
      if x == sid {
        BufferOfTarget(s, t, sid, p);
      } else {
        BufferOfOther(s, t, sid, p, x);
      }
    }
    forall id | id in t.log && t.log[id].fate.Buffered?
      ensures t.log[id].fate.sid in t.sess && t.sess[t.log[id].fate.sid].status.Login?
      ensures id in t.sess[t.log[id].fate.sid].buff
    {
      if id != p.id { assert Same(s, t, id); }
    }
  }

  /** A packet reaches its recipient's session. */
  lemma LandBuffered(s: State, t: State, sid: string, p: Packet)
    requires Inv(s) && Buffers(s, t, sid, p)
    requires SameQueues(s, t) && SameHops(s, t) && SameCaches(s, t) && t.db == s.db
    requires t.table == s.table && t.clean == s.clean && t.latest == s.latest
    ensures Inv(t)
  {
    BufferGains(s, t, sid, p);
    BuffersLink(s, t, sid, p);
    MorePending(s.db, t.db);
    FrameQueues(s, t, {p.id}, InLimbo, InBuffer);
    FrameHops(s, t, {p.id}, InLimbo, InBuffer);
    FramePend(s, t, {p.id}, InLimbo, InBuffer);
    FrameIndex(s, t, {p.id}, InLimbo, InBuffer);
    FrameCaches(s, t, {p.id}, InLimbo, InBuffer);
    FrameRegistry(s, t);
    FrameClean(s, t);
  }
}
