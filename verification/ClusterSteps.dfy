/** Each kind of step keeps the invariant of the cluster. */
module ClusterSteps {
  import opened Options
  import opened Keys
  import opened Packets
  import opened Redis
  import opened Database
  import opened Sessions
  import opened Cluster
  import opened ClusterInv

  /** The same state up to nodes that have not been heard of yet. */
  ghost predicate Equivalent(s: State, t: State)
  {
    && t.log == s.log && t.sess == s.sess && t.db == s.db
    && SameQueues(s, t) && SameHops(s, t) && SameCaches(s, t)
    && t.table == s.table && t.clean == s.clean && t.latest == s.latest
  }

  lemma StayOk(s: State, t: State)
    requires Inv(s) && Equivalent(s, t)
    ensures Inv(t)
  {
    StayLink(s, t);
    MoveOutside(s, t, {}, InLimbo, InLimbo);
    FrameQueues(s, t, {}, InLimbo, InLimbo);
    FrameHops(s, t, {}, InLimbo, InLimbo);
  }

  // ---------------------------------------------------------------- closing a session

  /** The packets in `m` change their fate to `f`, the rest of the log stays. */
  ghost predicate Refate(s: State, t: State, m: set<string>, f: Fate)
  {
    && t.log.Keys == s.log.Keys
    && (forall id :: id in s.log && id in m ==> t.log[id] == s.log[id].(fate := f))
    && (forall id :: id in s.log && id !in m ==> t.log[id] == s.log[id])
  }

  ghost predicate Closes(s: State, t: State, sid: string)
  {
    && sid in s.sess && !s.sess[sid].status.Close?
    && t.sess == s.sess[sid := s.sess[sid].(status := Close)]
    && t.clean == s.clean + multiset{sid}
    && t.db == s.db.(pend := s.db.pend + DropCmds(s.sess[sid]) + multiset(FlushCmds(s.sess[sid].buff)))
    && Refate(s, t, s.sess[sid].buff.Keys, Storing)
    && SameQueues(s, t) && SameHops(s, t) && SameCaches(s, t) && t.table == s.table && t.latest == s.latest
  }

  lemma FlushRefates(s: State, t: State, sid: string)
    requires sid in s.sess && !s.sess[sid].status.Close? && t.log == FlushLog(s, sid)
    ensures Refate(s, t, s.sess[sid].buff.Keys, Storing)
  {
  }

  lemma RefateLink(s: State, t: State, m: set<string>, a: Kind, f: Fate)
    requires Refate(s, t, m, f) && Kinds(s, m, a) && SessionsKept(s, t)
    ensures Link(s, t, m, a, KindOf(f))
    ensures IdsOk(s) ==> IdsOk(t)
  {
  }

  lemma ClosesLink(s: State, t: State, sid: string)
    requires sid in s.sess && !s.sess[sid].status.Close? && BufferOk(s, sid)
    requires t.sess == s.sess[sid := s.sess[sid].(status := Close)] && Refate(s, t, s.sess[sid].buff.Keys, Storing)
    ensures Link(s, t, s.sess[sid].buff.Keys, InBuffer, InWrite)
    ensures IdsOk(s) ==> IdsOk(t)
  {
    var m := s.sess[sid].buff.Keys;
    BufferKinds(s, sid);
    OneSessionKept(s, t, sid, s.sess[sid].(status := Close));
    StoringLink(s, t, m);
  }

  lemma StoringLink(s: State, t: State, m: set<string>)
    requires Refate(s, t, m, Storing) && Kinds(s, m, InBuffer) && SessionsKept(s, t)
    ensures Link(s, t, m, InBuffer, InWrite)
    ensures IdsOk(s) ==> IdsOk(t)
  {
    RefateLink(s, t, m, InBuffer, Storing);
  }

  lemma BufferKinds(s: State, sid: string)
    requires sid in s.sess && !s.sess[sid].status.Close? && BufferOk(s, sid)
    ensures Kinds(s, s.sess[sid].buff.Keys, InBuffer)
  {
  }

  lemma OtherBuffer(s: State, t: State, m: set<string>, x: string)
    requires Link(s, t, m, InBuffer, InWrite) && x in s.sess && BufferOk(s, x)
    requires x in t.sess && t.sess[x] == s.sess[x]
    requires s.sess[x].status.Login? ==> m !! s.sess[x].buff.Keys
    ensures BufferOk(t, x)
  {
    var me := t.sess[x];
    forall id | id in me.buff ensures Known(t, me.buff[id]) && (me.status.Login? ==> At(t, id, Buffered(x))) {
      if me.status.Login? { assert Same(s, t, id); }
    }
  }

  lemma ClosedBuffer(s: State, t: State, m: set<string>, sid: string)
    requires Link(s, t, m, InBuffer, InWrite) && sid in s.sess && BufferOk(s, sid)
    requires sid in t.sess && t.sess[sid] == s.sess[sid].(status := Close)
    ensures BufferOk(t, sid)
  {
  }

  lemma CloseBuffer(s: State, t: State, sid: string, x: string)
    requires BuffersOk(s) && sid in s.sess && !s.sess[sid].status.Close? && x in s.sess
    requires t.sess == s.sess[sid := s.sess[sid].(status := Close)]
    requires Link(s, t, s.sess[sid].buff.Keys, InBuffer, InWrite)
    ensures x in t.sess && BufferOk(t, x)
  {
    var m := s.sess[sid].buff.Keys;
    assert BufferOk(s, sid) && BufferOk(s, x);
    if x == sid {
      ClosedBuffer(s, t, m, sid);
    } else {
      OtherBuffer(s, t, m, x);
    }
  }

  lemma CloseBuffers(s: State, t: State, sid: string)
    requires BuffersOk(s) && sid in s.sess && !s.sess[sid].status.Close?
    requires t.sess == s.sess[sid := s.sess[sid].(status := Close)]
    requires Link(s, t, s.sess[sid].buff.Keys, InBuffer, InWrite)
    ensures BuffersOk(t)
  {
    forall x | x in t.sess ensures BufferOk(t, x) {
      CloseBuffer(s, t, sid, x);
    }
    forall id | id in t.log && t.log[id].fate.Buffered?
      ensures t.log[id].fate.sid in t.sess && t.sess[t.log[id].fate.sid].status.Login?
      ensures id in t.sess[t.log[id].fate.sid].buff
    {
      StillBuffered(s, t, sid, id);
    }
  }

  lemma StillBuffered(s: State, t: State, sid: string, id: string)
    requires BuffersOk(s) && sid in s.sess && t.sess == s.sess[sid := s.sess[sid].(status := Close)]
    requires Link(s, t, s.sess[sid].buff.Keys, InBuffer, InWrite) && id in t.log && t.log[id].fate.Buffered?
    ensures var x := t.log[id].fate.sid; x in t.sess && t.sess[x].status.Login? && id in t.sess[x].buff
  {
    assert Same(s, t, id);
  }

  lemma FlushCmdOk(s: State, t: State, sid: string, id: string)
    requires PendOk(s) && sid in s.sess && BufferOk(s, sid) && id in s.sess[sid].buff
    requires Link(s, t, s.sess[sid].buff.Keys, InBuffer, InWrite)
    requires t.db.pend == s.db.pend + DropCmds(s.sess[sid]) + multiset(FlushCmds(s.sess[sid].buff))
    requires !s.sess[sid].status.Close?
    ensures CmdOk(t, PutIdxCmd(s.sess[sid].buff[id])) && CmdOk(t, PutKeyCmd(s.sess[sid].buff[id]))
  {
    var put := PutIdxCmd(s.sess[sid].buff[id]);
    assert At(s, id, Buffered(sid));
    assert put !in s.db.pend by { assert put in s.db.pend ==> CmdOk(s, put); }
    FlushedCount(s.sess[sid], id);
  }

  lemma FlushedCount(me: Sess, id: string)
    requires id in me.buff
    ensures (DropCmds(me) + multiset(FlushCmds(me.buff)))[PutIdxCmd(me.buff[id])] == 1
  {
    assert PutIdxCmd(me.buff[id]) in FlushCmds(me.buff);
    assert PutIdxCmd(me.buff[id]) !in DropCmds(me);
  }

  lemma OldCmdOk(s: State, t: State, m: set<string>, c: Cmd)
    requires Link(s, t, m, InBuffer, InWrite) && CmdOk(s, c)
    requires c.HSet? ==> t.db.pend[c] == s.db.pend[c]
    ensures CmdOk(t, c)
  {
    if c.HDel? && c.idx.OfflineIdx? { SettledStays(s, t, m, InBuffer, InWrite, c.field.id); }
    if c.HSet? { assert Same(s, t, c.field.id); }
  }

  lemma ClosePend(s: State, t: State, sid: string)
    requires PendOk(s) && sid in s.sess && BufferOk(s, sid) && !s.sess[sid].status.Close?
    requires t.db.pend == s.db.pend + DropCmds(s.sess[sid]) + multiset(FlushCmds(s.sess[sid].buff))
    requires Link(s, t, s.sess[sid].buff.Keys, InBuffer, InWrite)
    ensures PendOk(t)
  {
    var buff := s.sess[sid].buff;
    forall c | c in t.db.pend ensures CmdOk(t, c) {
      if c in FlushCmds(buff) {
        var id :| id in buff && (c == PutIdxCmd(buff[id]) || c == PutKeyCmd(buff[id]));
        FlushCmdOk(s, t, sid, id);
      } else if c in s.db.pend {
        OldCmdOk(s, t, buff.Keys, c);
      }
    }
    forall id | id in t.log && t.log[id].fate.Storing? ensures PutIdxCmd(t.log[id].p) in t.db.pend {
      if id in buff {
        assert PutIdxCmd(buff[id]) in FlushCmds(buff);
      } else {
        assert Same(s, t, id);
      }
    }
  }

  lemma CloseRegistry(s: State, t: State, sid: string)
    requires RegistryOk(s) && Closes(s, t, sid) && Grows(s, t)
    ensures RegistryOk(t)
  {
    forall b | SessionKey(b) in t.db.store ensures EntryOk(t, b) {
      assert EntryOk(s, b);
    }
  }

  /** CloseSession. */
  lemma CloseOk(s: State, t: State, sid: string)
    requires Inv(s) && Closes(s, t, sid)
    ensures Inv(t)
  {
    assert BufferOk(s, sid);
    var m := s.sess[sid].buff.Keys;
    ClosesLink(s, t, sid);
    MorePending(s.db, t.db);
    CloseBuffers(s, t, sid);
    ClosePend(s, t, sid);
    CloseRegistry(s, t, sid);
    FrameQueues(s, t, m, InBuffer, InWrite);
    FrameHops(s, t, m, InBuffer, InWrite);
    FrameIndex(s, t, m, InBuffer, InWrite);
    FrameCaches(s, t, m, InBuffer, InWrite);
    assert CleanOk(t);
  }

  // ---------------------------------------------------------------- logging in

  ghost predicate LogsIn(s: State, t: State, sid: string, p: Packet, order: seq<Key>)
  {
    && sid in s.sess && s.sess[sid].status.Conn? && BareOf(p.jid).Some?
    && (forall k :: k in order ==> k in Fields(s.db.store, OfflineIdx(Addr(p.jid))))
    && var me := s.sess[sid].(jid := p.jid, status := Login);
    && var delay := DelayList(s.db.store, p.jid, order);
    && t.sess == s.sess[sid := me]
    && t.db == PutIdx(s.db, NodeIdx(me.nodeid), SessionKey(Addr(p.jid)), StatusOf(me))
    && CacheAt(t, me.chan) == (if delay == [] then CacheAt(s, me.chan) else CacheAt(s, me.chan)[p.id := Ids(delay)])
    && (forall c :: c != me.chan ==> CacheAt(t, c) == CacheAt(s, c))
    && t.latest == s.latest[Addr(p.jid) := sid]
    && t.log == s.log && SameQueues(s, t) && SameHops(s, t) && t.table == s.table && t.clean == s.clean
  }

  lemma LoginLink(s: State, t: State, sid: string, me: Sess)
    requires sid in s.sess && s.sess[sid].status.Conn? && t.sess == s.sess[sid := me] && t.log == s.log
    requires me.chan == s.sess[sid].chan
    ensures Link(s, t, {}, InLimbo, InLimbo)
  {
  }

  lemma LoginBuffers(s: State, t: State, sid: string, jid: string)
    requires BuffersOk(s) && sid in s.sess && s.sess[sid].status.Conn? && BareOf(jid).Some?
    requires t.sess == s.sess[sid := s.sess[sid].(jid := jid, status := Login)] && t.log == s.log
    ensures BuffersOk(t)
  {
    assert BufferOk(s, sid);
    forall x | x in t.sess ensures BufferOk(t, x) {
      assert BufferOk(s, x);
    }
  }

  /** A session key is written straight to the store; the index of the node stays a hash. */
  lemma PutSession(d: Db, n: string, b: string, v: Val)
    requires NodeIdx(n) in d.store ==> d.store[NodeIdx(n)].Hash?
    ensures var e := PutIdx(d, NodeIdx(n), SessionKey(b), v);
            && IndexesKept(d, e) && e.pend == d.pend
            && SessionKey(b) in e.store && e.store[SessionKey(b)] == Str(v)
            && forall x :: x != b ==> SameOn(d.store, e.store, SessionKey(x))
  {
  }

  lemma LoginRegistry(s: State, t: State, sid: string, b: string, jid: string)
    requires RegistryOk(s) && Grows(s, t) && Serves(t, sid, Some(b)) && t.sess[sid].status.Login?
    requires forall x :: x in s.sess && x != sid ==> x in t.sess && t.sess[x] == s.sess[x]
    requires sid in s.sess && s.sess[sid].status.Conn?
    requires t.latest == s.latest[b := sid] && t.db.pend == s.db.pend
    requires SessionKey(b) in t.db.store
    requires t.db.store[SessionKey(b)] == Str(StatusVal(sid, t.sess[sid].chan, jid, t.sess[sid].nodeid))
    requires forall x :: x != b ==> SameOn(s.db.store, t.db.store, SessionKey(x))
    ensures RegistryOk(t)
  {
    forall x | SessionKey(x) in t.db.store ensures EntryOk(t, x) {
      if x != b {
        assert SameOn(s.db.store, t.db.store, SessionKey(x));
        assert EntryOk(s, x);
      }
    }
  }

  lemma {:induction false} PacketsInAre(fields: map<Key, Val>, order: seq<Key>, p: Packet) returns (k: Key)
    requires forall k :: k in order ==> k in fields
    requires p in PacketsIn(fields, order)
    ensures k in order && fields[k] == PacketVal(p)
  {
    if fields[order[0]] == PacketVal(p) {
      k := order[0];
    } else {
      k := PacketsInAre(fields, order[1..], p);
    }
  }

  lemma ListedIsSettled(s: State, jid: string, order: seq<Key>, id: string)
    requires IdsOk(s) && IndexOk(s) && forall k :: k in order ==> k in Fields(s.db.store, OfflineIdx(Addr(jid)))
    requires id in Ids(DelayList(s.db.store, jid, order))
    ensures Settled(s, id) && BareOf(s.log[id].p.to) == Some(Addr(jid))
  {
    var delay := DelayList(s.db.store, jid, order);
    var i :| 0 <= i < |delay| && delay[i].id == id;
    var k := PacketsInAre(Fields(s.db.store, OfflineIdx(Addr(jid))), order, delay[i]);
    assert FieldOk(s, Addr(jid), k);
  }

  lemma LoginCaches(s: State, t: State, sid: string, p: Packet, order: seq<Key>)
    requires IdsOk(s) && IndexOk(s) && CachesOk(s) && LogsIn(s, t, sid, p, order)
    ensures CachesOk(t)
  {
    var chan := s.sess[sid].chan;
    forall c, l, id | l in CacheAt(t, c) && id in CacheAt(t, c)[l] ensures Settled(t, id) {
      if c == chan && l == p.id && CacheAt(t, c) != CacheAt(s, c) {
        ListedIsSettled(s, p.jid, order, id);
      } else {
        assert l in CacheAt(s, c) && id in CacheAt(s, c)[l];
        assert Settled(s, id);
      }
    }
  }

  /** openSession after a successful verify. */
  lemma LogInOk(s: State, t: State, sid: string, p: Packet, order: seq<Key>)
    requires Inv(s) && LogsIn(s, t, sid, p, order)
    ensures Inv(t)
  {
    var me := s.sess[sid].(jid := p.jid, status := Login);
    assert BufferOk(s, sid);
    LoginLink(s, t, sid, me);
    LoginCaches(s, t, sid, p, order);
    LoginBuffers(s, t, sid, p.jid);
    PutSession(s.db, me.nodeid, Addr(p.jid), StatusOf(me));
    LoginRegistry(s, t, sid, Addr(p.jid), p.jid);
    FrameQueues(s, t, {}, InLimbo, InLimbo);
    FrameHops(s, t, {}, InLimbo, InLimbo);
    FramePend(s, t, {}, InLimbo, InLimbo);
    FrameIndex(s, t, {}, InLimbo, InLimbo);
    FrameClean(s, t);
  }

  // ---------------------------------------------------------------- acknowledging

  lemma {:induction false} AckCmdsAre(b: string, ids: seq<string>, c: Cmd)
    ensures c in AckCmds(b, ids) <==>
            || (c.HDel? && c.idx == OfflineIdx(b) && c.field.IdKey? && c.field.id in ids)
            || (c.Del? && c.key.IdKey? && c.key.id in ids)
  {
    if ids != [] {
      AckCmdsAre(b, ids[1..], c);
    }
  }

  /** The packets of address `b` among `ids` that are still waiting in the index. */
  ghost function Waiting(s: State, b: string, ids: seq<string>): (r: set<string>)
  {
    set x | x in ids && x in s.log && BareOf(s.log[x].p.to) == Some(b) && s.log[x].fate.Stored?
  }

  ghost predicate AcksList(s: State, t: State, b: string, ids: seq<string>)
  {
    && (forall id :: id in ids ==> Settled(s, id))
    && Refate(s, t, Waiting(s, b, ids), Acked)
    && t.db == s.db.(pend := s.db.pend + multiset(AckCmds(b, ids)))
    && t.sess == s.sess && SameQueues(s, t) && SameHops(s, t) && SameCaches(s, t)
    && t.table == s.table && t.clean == s.clean && t.latest == s.latest
  }

  lemma AckPend(s: State, t: State, b: string, ids: seq<string>)
    requires PendOk(s) && AcksList(s, t, b, ids) && Link(s, t, Waiting(s, b, ids), InIndex, Done)
    ensures PendOk(t)
  {
    var m := Waiting(s, b, ids);
    forall c | c in t.db.pend ensures CmdOk(t, c) {
      AckCmdsAre(b, ids, c);
      if c in AckCmds(b, ids) {
        if c.HDel? {
          assert Settled(s, c.field.id);
          SettledStays(s, t, m, InIndex, Done, c.field.id);
        }
      } else {
        assert c in s.db.pend && CmdOk(s, c);
        AckOldCmd(s, t, m, c);
      }
    }
    forall id | id in t.log && t.log[id].fate.Storing? ensures PutIdxCmd(t.log[id].p) in t.db.pend {
      assert Same(s, t, id);
    }
  }

  lemma AckOldCmd(s: State, t: State, m: set<string>, c: Cmd)
    requires Link(s, t, m, InIndex, Done) && CmdOk(s, c)
    requires c.HSet? ==> t.db.pend[c] == s.db.pend[c]
    ensures CmdOk(t, c)
  {
    if c.HDel? && c.idx.OfflineIdx? { SettledStays(s, t, m, InIndex, Done, c.field.id); }
    if c.HSet? { assert Same(s, t, c.field.id); }
  }

  lemma AckIndex(s: State, t: State, b: string, ids: seq<string>)
    requires IndexOk(s) && AcksList(s, t, b, ids) && Link(s, t, Waiting(s, b, ids), InIndex, Done)
    ensures IndexOk(t)
  {
    var m := Waiting(s, b, ids);
    forall bare, f | f in Fields(t.db.store, OfflineIdx(bare)) ensures FieldOk(t, bare, f) {
      assert FieldOk(s, bare, f);
      SettledStays(s, t, m, InIndex, Done, f.id);
      if f.id in m {
        AckCmdsAre(b, ids, HDel(OfflineIdx(b), f));
      } else {
        assert Same(s, t, f.id);
      }
    }
    forall id | id in t.log && t.log[id].fate.Stored?
      ensures BareOf(t.log[id].p.to).Some? && IdKey(id) in Fields(t.db.store, OfflineIdx(Owner(t.log[id].p)))
    {
      assert Same(s, t, id);
    }
  }

  lemma AckListLink(s: State, t: State, b: string, ids: seq<string>)
    requires Refate(s, t, Waiting(s, b, ids), Acked) && t.sess == s.sess
    ensures Link(s, t, Waiting(s, b, ids), InIndex, Done) && (IdsOk(s) ==> IdsOk(t))
  {
    AllSessionsKept(s, t);
    WaitingKinds(s, b, ids);
    RefateLink(s, t, Waiting(s, b, ids), InIndex, Acked);
  }

  lemma WaitingKinds(s: State, b: string, ids: seq<string>)
    ensures Kinds(s, Waiting(s, b, ids), InIndex)
  {
  }

  lemma AllSessionsKept(s: State, t: State)
    requires t.sess == s.sess
    ensures SessionsKept(s, t)
  {
  }

  /** serverAck of a login answer. */
  lemma AckListOk(s: State, t: State, b: string, ids: seq<string>)
    requires Inv(s) && AcksList(s, t, b, ids)
    ensures Inv(t)
  {
    var m := Waiting(s, b, ids);
    AckListLink(s, t, b, ids);
    AckPend(s, t, b, ids);
    AckIndex(s, t, b, ids);
    FrameTransport(s, t, m, InIndex, Done);
    MorePending(s.db, t.db);
    MoveRest(s, t, m, InIndex, Done);
  }

  ghost function AckedNow(s: State, sid: string, id: string): (r: set<string>)
    requires sid in s.sess
  {
    if s.sess[sid].status.Login? && id in s.sess[sid].buff then {id} else {}
  }

  ghost predicate AcksPacket(s: State, t: State, sid: string, id: string)
  {
    && sid in s.sess && !s.sess[sid].status.Conn?
    && t.sess == s.sess[sid := s.sess[sid].(buff := s.sess[sid].buff - {id})]
    && Refate(s, t, AckedNow(s, sid, id), Acked)
    && t.db == s.db && SameQueues(s, t) && SameHops(s, t) && SameCaches(s, t)
    && t.table == s.table && t.clean == s.clean && t.latest == s.latest
  }

  lemma AckBuffers(s: State, t: State, sid: string, id: string)
    requires BuffersOk(s) && AcksPacket(s, t, sid, id)
    ensures BuffersOk(t)
  {
    assert BufferOk(s, sid);
    forall x | x in t.sess ensures BufferOk(t, x) {
      assert BufferOk(s, x);
      AckBuffer(s, t, sid, id, x);
    }
    forall y | y in t.log && t.log[y].fate.Buffered?
      ensures t.log[y].fate.sid in t.sess && t.sess[t.log[y].fate.sid].status.Login?
      ensures y in t.sess[t.log[y].fate.sid].buff
    {
      assert Same(s, t, y);
    }
  }

  lemma AckBuffer(s: State, t: State, sid: string, id: string, x: string)
    requires AcksPacket(s, t, sid, id) && x in s.sess && BufferOk(s, x) && BufferOk(s, sid)
    ensures BufferOk(t, x)
  {
    var me := t.sess[x];
    forall y | y in me.buff ensures Known(t, me.buff[y]) && (me.status.Login? ==> At(t, y, Buffered(x))) {
      assert y in s.sess[x].buff && me.buff[y] == s.sess[x].buff[y];
      AckKeepsOther(s, t, sid, id, x, y);
    }
  }

  lemma AckKeepsOther(s: State, t: State, sid: string, id: string, x: string, y: string)
    requires sid in s.sess && Refate(s, t, AckedNow(s, sid, id), Acked) && BufferOk(s, sid)
    requires x in s.sess && BufferOk(s, x) && y in s.sess[x].buff && (x == sid ==> y != id)
    ensures Known(t, s.sess[x].buff[y]) && (s.sess[x].status.Login? ==> At(t, y, Buffered(x)))
  {
    assert Known(s, s.sess[x].buff[y]);
    if s.sess[x].status.Login? {
      assert At(s, y, Buffered(x));
      assert y !in AckedNow(s, sid, id);
    }
  }

  lemma AckPacketLink(s: State, t: State, sid: string, id: string)
    requires AcksPacket(s, t, sid, id) && BufferOk(s, sid)
    ensures Link(s, t, AckedNow(s, sid, id), InBuffer, Done) && SameStatus(s, t) && (IdsOk(s) ==> IdsOk(t))
  {
    var me := s.sess[sid].(buff := s.sess[sid].buff - {id});
    AckedNowKinds(s, sid, id);
    OneSessionKept(s, t, sid, me);
    OneSameStatus(s, t, sid, me);
    RefateLink(s, t, AckedNow(s, sid, id), InBuffer, Acked);
  }

  lemma AckedNowKinds(s: State, sid: string, id: string)
    requires sid in s.sess && BufferOk(s, sid)
    ensures Kinds(s, AckedNow(s, sid, id), InBuffer)
  {
  }

  lemma OneSameStatus(s: State, t: State, sid: string, me: Sess)
    requires sid in s.sess && t.sess == s.sess[sid := me] && me.status == s.sess[sid].status
    ensures SameStatus(s, t)
  {
  }

  /** serverAck of a delivered packet. */
  lemma AckPacketOk(s: State, t: State, sid: string, id: string)
    requires Inv(s) && AcksPacket(s, t, sid, id)
    ensures Inv(t)
  {
    var m := AckedNow(s, sid, id);
    assert BufferOk(s, sid);
    AckBuffers(s, t, sid, id);
    AckPacketLink(s, t, sid, id);
    MorePending(s.db, t.db);
    FrameQueues(s, t, m, InBuffer, Done);
    FrameHops(s, t, m, InBuffer, Done);
    FramePend(s, t, m, InBuffer, Done);
    FrameIndex(s, t, m, InBuffer, Done);
    FrameCaches(s, t, m, InBuffer, Done);
    FrameRegistry(s, t);
    FrameClean(s, t);
  }
}
