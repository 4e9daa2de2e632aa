/** The session of core/session.go as an object; every method is proved against its function in Sessions. */
module SessionObjects {
  import opened Options
  import opened Keys
  import opened Packets
  import opened Redis
  import opened Database
  import opened Groups
  import opened Sessions
  import opened SessionLaws
  import opened Services

  /** StorePacket; an address that does not parse is dereferenced as nil. */
  method PutOffline(db: SaraDatabase, p: Packet)
    requires BareOf(p.to).Some?
    modifies db
    ensures db.Value() == StorePacket(old(db.Value()), p)
    ensures db.store == old(db.store)
    ensures db.Value().pend == old(db.Value()).pend + multiset{PutIdxCmd(p), PutKeyCmd(p)}
  {
    db.PutExWithIdx(OfflineIdx(BareOf(p.to).value), IdKey(p.id), PacketVal(p));
  }

  /** Packets are buffered under their ids, and their recipients parse. */
  ghost predicate BuffOk(buff: map<string, Packet>)
  {
    forall id :: id in buff ==> buff[id].id == id && BareOf(buff[id].to).Some?
  }

  lemma FlushSplit(buff: map<string, Packet>, id: string)
    requires BuffOk(buff) && id in buff
    ensures FlushCmds(buff) == {PutIdxCmd(buff[id]), PutKeyCmd(buff[id])} + FlushCmds(buff - {id})
    ensures {PutIdxCmd(buff[id]), PutKeyCmd(buff[id])} !! FlushCmds(buff - {id})
  {
    var rest := buff - {id};
    forall x | x in buff && x != id
      ensures PutIdxCmd(buff[x]) in FlushCmds(rest) && PutKeyCmd(buff[x]) in FlushCmds(rest)
    {
      assert rest[x] == buff[x];
    }
  }

  lemma FlushOneLess(buff: map<string, Packet>, id: string)
    requires BuffOk(buff) && id in buff
    ensures multiset(FlushCmds(buff)) ==
            multiset{PutIdxCmd(buff[id]), PutKeyCmd(buff[id])} + multiset(FlushCmds(buff - {id}))
  {
    FlushSplit(buff, id);
    assert multiset({PutIdxCmd(buff[id]), PutKeyCmd(buff[id])}) == multiset{PutIdxCmd(buff[id]), PutKeyCmd(buff[id])};
  }

  lemma OneLess(buff: map<string, Packet>, id: string)
    requires BuffOk(buff) && id in buff
    ensures BuffOk(buff - {id}) && |buff - {id}| < |buff|
  {
    assert (buff - {id}).Keys == buff.Keys - {id};
  }

  lemma Regroup<T>(a: multiset<T>, b: multiset<T>, c: multiset<T>)
    ensures a + (b + c) == (a + b) + c
  {
  }

  lemma AckOneMore(b: string, ids: seq<string>)
    requires ids != []
    ensures multiset(AckCmds(b, ids)) ==
            multiset{HDel(OfflineIdx(b), IdKey(ids[0])), Del(IdKey(ids[0]))} + multiset(AckCmds(b, ids[1..]))
  {
    assert multiset([HDel(OfflineIdx(b), IdKey(ids[0])), Del(IdKey(ids[0]))]) ==
           multiset{HDel(OfflineIdx(b), IdKey(ids[0])), Del(IdKey(ids[0]))};
  }

  /** A batch ends with its last packet. */
  lemma {:induction false} HandleOneMore(c: Ctx, ins: seq<Input>, i: Input)
    requires OrdersFit(c, ins) && !HandleBatch(c, ins).panicked
    requires OrderFits(HandleBatch(c, ins).db.store, i.w, i.order)
    ensures OrdersFit(c, ins + [i]) && HandleBatch(c, ins + [i]) == Handle(HandleBatch(c, ins), i)
    decreases |ins|
  {
    if ins == [] {
      assert [i][1..] == [];
    } else {
      assert (ins + [i])[1..] == ins[1..] + [i];
      if !c.panicked {
        HandleOneMore(Handle(c, ins[0]), ins[1..], i);
      }
    }
  }

  /** pkgBuffToStore: every buffered packet is stored once, in whatever order the map is walked. */
  method BuffToStore(db: SaraDatabase, buff: map<string, Packet>)
    requires BuffOk(buff)
    modifies db
    ensures db.Value() == old(db.Value()).(pend := old(db.Value()).pend + multiset(FlushCmds(buff)))
  {
    var rest := buff;
    ghost var all := old(db.Value()).pend + multiset(FlushCmds(buff));
    while rest != map[]
      invariant BuffOk(rest) && db.store == old(db.store)
      invariant db.Value().pend + multiset(FlushCmds(rest)) == all
      decreases |rest|
    {
      var id :| id in rest;
      FlushOneLess(rest, id);
      OneLess(rest, id);
      Regroup(db.Value().pend, multiset{PutIdxCmd(rest[id]), PutKeyCmd(rest[id])}, multiset(FlushCmds(rest - {id})));
      PutOffline(db, rest[id]);
      rest := rest - {id};
    }
    assert FlushCmds(rest) == {};
  }

  /** The part of serverAck that deletes what a login answer listed. */
  method DeleteListed(db: SaraDatabase, b: string, ids: seq<string>)
    modifies db
    ensures db.Value() == old(db.Value()).(pend := old(db.Value()).pend + multiset(AckCmds(b, ids)))
  {
    var i := 0;
    ghost var all := old(db.Value()).pend + multiset(AckCmds(b, ids));
    while i < |ids|
      invariant i <= |ids| && db.store == old(db.store)
      invariant db.Value().pend + multiset(AckCmds(b, ids[i..])) == all
    {
      AckOneMore(b, ids[i..]);
      db.DeleteByIdxKey(OfflineIdx(b), IdKey(ids[i]));
      i := i + 1;
    }
  }

  /** One packet read from the client, with what the outside answers: the password check, the cached member
      string, the group service and the id generator. */
  datatype Raw = Raw(w: Wire, auth: bool, cached: Option<string>, listed: Option<seq<string>>, uuid: nat -> string)

  predicate IsGroup(w: Wire)
  {
    w.Msg? && w.p.mtype == MSG_TYPE_GROUP_CHAT
  }

  /** The input is what the handler makes of what was read. */
  ghost predicate Reads(i: Input, r: Raw)
  {
    i.w == r.w && i.auth == r.auth && (IsGroup(r.w) ==> Answers(NewPacket(r.w.p), r.cached, r.listed, r.uuid, i.group))
  }

  /** The inputs are a prefix of what was read. */
  ghost predicate ReadsAll(ins: seq<Input>, raws: seq<Raw>)
  {
    |ins| <= |raws| && forall k :: 0 <= k < |ins| ==> Reads(ins[k], raws[k])
  }

  /** The last of the first `n` packets is an ack, and not the first one of a connection. */
  predicate EndsWithAck(raws: seq<Raw>, n: nat, begun: bool)
  {
    0 < n <= |raws| && IsAck(raws[n - 1].w) && (n > 1 || begun)
  }

  lemma ReadsMore(ins: seq<Input>, raws: seq<Raw>, i: Input)
    requires ReadsAll(ins, raws) && |ins| < |raws| && Reads(i, raws[|ins|])
    ensures ReadsAll(ins + [i], raws)
  {
  }

  class Session {
    const sid: string
    const chan: string
    const nodeid: string
    const db: SaraDatabase
    const cache: OfflineCache
    const router: Router
    const clean: CleanChannel
    var status: Status
    var jid: string
    var pkgBuff: map<string, Packet>
    var out: seq<Out>
    var panicked: bool

    constructor (sid: string, chan: string, nodeid: string, db: SaraDatabase, cache: OfflineCache, router: Router,
                 clean: CleanChannel)
      requires router.Valid()
      ensures Valid() && Me() == Sess(sid, chan, nodeid, Conn, "", map[]) && out == [] && !panicked
      ensures this.db == db && this.cache == cache && this.router == router && this.clean == clean
    {
      this.sid, this.chan, this.nodeid := sid, chan, nodeid;
      this.db, this.cache, this.router, this.clean := db, cache, router, clean;
      status, jid, pkgBuff, out, panicked := Conn, "", map[], [], false;
    }

    ghost function Me(): (r: Sess)
      reads this
    {
      Sess(sid, chan, nodeid, status, jid, pkgBuff)
    }

    ghost function View(): (r: Ctx)
      reads this, db, cache, router, clean
    {
      Ctx(Me(), db.Value(), cache.cache, router.Queue(), multiset(clean.sids), out, panicked)
    }

    /** A logged-in address parses, and so do the recipients in the buffer. */
    ghost predicate Valid()
      reads this, router
    {
      && router.Valid()
      && BuffOk(pkgBuff)
      && (status.Login? ==> BareOf(jid).Some?)
    }

    method Answer(o: Out)
      modifies this`out
      ensures out == old(out) + [o] && View() == Say(old(View()), o)
    {
      out := out + [o];
    }

    /** The registry delete of a closing session. */
    method DropStatus()
      requires Valid()
      modifies db
      ensures db.Value() == old(db.Value()).(pend := old(db.Value()).pend + DropCmds(Me()))
      ensures var key := SessionKey(Addr(jid));
              db.Value().pend == old(db.Value()).pend +
                                 if status.Login? then multiset{HDel(NodeIdx(nodeid), key), Del(key)} else multiset{}
    {
      if status.Login? {
        db.DeleteByIdxKey(NodeIdx(nodeid), SessionKey(Addr(jid)));
      } else {
        assert old(db.Value()).pend + multiset{} == old(db.Value()).pend;
      }
    }

    /** The first half of CloseSession: announce and unregister. */
    method Leave()
      requires Valid()
      modifies db, clean
      ensures Valid() && clean.sids == old(clean.sids) + [sid]
      ensures var c := old(View());
              View() == c.(clean := c.clean + multiset{sid}, db := c.db.(pend := c.db.pend + DropCmds(c.me)))
    {
      clean.Send(sid);
      DropStatus();
    }

    /** The second half: close and flush. */
    method Finish()
      requires Valid()
      modifies this`status, db
      ensures Valid()
      ensures var c := old(View());
              View() == c.(me := c.me.(status := Close),
                           db := c.db.(pend := c.db.pend + multiset(FlushCmds(c.me.buff))))
    {
      status := Close;
      BuffToStore(db, pkgBuff);
    }

    method CloseSession()
      requires Valid()
      modifies this`status, db, clean
      ensures Valid() && View() == Sessions.CloseSession(old(View()))
      ensures status.Close? && clean.sids == old(clean.sids) + if old(status).Close? then [] else [sid]
    {
      if !status.Close? {
        Leave();
        Finish();
        assert View().me.status.Close?;
      }
    }

    method Refuse(reason: string)
      requires Valid()
      modifies this`out, this`status, db, clean
      ensures Valid() && View() == Sessions.CloseSession(Say(old(View()), AuthFail(reason)))
    {
      Answer(AuthFail(reason));
      CloseSession();
    }

    method Kill()
      requires Valid()
      modifies this`out, this`status, db, clean
      ensures Valid() && View() == Sessions.Kill(old(View()))
      ensures status.Close? && clean.sids == old(clean.sids) + if old(status).Close? then [] else [sid]
    {
      Answer(KillSignal);
      CloseSession();
    }

    /** The branch of RoutePacket for a packet to this session. */
    method Keep(p: Packet)
      requires Valid() && Judge(Me(), db.store, p).Mine?
      modifies this`out, this`pkgBuff
      ensures Valid() && View() == Sessions.RoutePacket(old(View()), p)
    {
      pkgBuff := pkgBuff[p.id := p];
      Answer(Deliver(p));
    }

    /** The branch of RoutePacket for a packet from this session. */
    method Forward(p: Packet)
      requires Valid() && (Judge(Me(), db.store, p).Online? || Judge(Me(), db.store, p).Offline?)
      modifies db, router
      ensures Valid() && View() == Sessions.RoutePacket(old(View()), p)
    {
      ghost var c := View();
      var ss := db.Read(SessionKey(Owner(p)));
      match ss {
        case Some(v) =>
          assert Judge(c.me, c.db.store, p) == Online(v);
          var ok := router.Route(PacketItem(v, p));
          assert View() == c.(routeQ := Sessions.Route(c.routeQ, PacketItem(v, p)));
        case None =>
          assert Judge(c.me, c.db.store, p) == Offline;
          PutOffline(db, p);
          assert View() == c.(db := StorePacket(c.db, p));
      }
    }

    method RoutePacket(p: Packet)
      requires Valid()
      modifies this`out, this`pkgBuff, this`panicked, db, router
      ensures Valid() && View() == Sessions.RoutePacket(old(View()), p)
    {
      if !status.Login? {
        return;
      }
      if BareOf(p.to).None? {
        panicked := true;
      } else if BareOf(p.to) == BareOf(jid) {
        Keep(p);
      } else if BareOf(p.from).None? {
        panicked := true;
      } else if BareOf(p.from) == BareOf(jid) {
        Forward(p);
      }
    }

    method RoutePacketList(ps: seq<Packet>)
      requires Valid()
      modifies this`out, this`pkgBuff, this`panicked, db, router
      ensures Valid() && View() == Sessions.RoutePacketList(old(View()), ps)
    {
      var i := 0;
      while i < |ps| && !panicked
        invariant i <= |ps| && Valid()
        invariant Sessions.RoutePacketList(View(), ps[i..]) == Sessions.RoutePacketList(old(View()), ps)
        decreases |ps| - i
      {
        RoutePacket(ps[i]);
        i := i + 1;
      }
    }

    /** The part of verify that asks for the previous session of the address to be killed. */
    method KickPrevious(w: Wire)
      requires Valid() && w.Msg? && w.p.mtype == MSG_TYPE_OPEN_SESSION && BareOf(w.p.jid).Some?
      modifies router
      ensures Valid() && View() == KillPrevious(old(View()), w)
    {
      var s := db.Read(SessionKey(Addr(w.p.jid)));
      if s.Some? {
        var queued := router.Route(KillItem(s.value));
      }
    }

    /** verify: a failure is answered and closes the session. */
    method Verify(w: Wire, auth: bool) returns (ok: bool)
      requires Valid()
      modifies this`out, this`status, db, router, clean
      ensures Valid() && ok == Sessions.Verify(w, auth).None?
      ensures ok <==> w.Msg? && w.p.mtype == MSG_TYPE_OPEN_SESSION && '@' in w.p.jid && auth
      ensures !ok ==> status.Close? && out == old(out) + [AuthFail(Reason(w))] && db.store == old(db.store)
      ensures ok ==> View() == KillPrevious(old(View()), w)
      ensures !ok ==>
                View() ==
                Sessions.CloseSession(Say(KillPrevious(old(View()), w), AuthFail(Sessions.Verify(w, auth).value)))
    {
      ok := false;
      if w.Msg? {
        ParsesIfAt(w.p.jid);
      }
      if !w.Msg? {
        Refuse(FAIL_PACKET);
      } else if w.p.mtype != MSG_TYPE_OPEN_SESSION {
        Refuse(FAIL_TYPE);
      } else if BareOf(w.p.jid).None? {
        Refuse(FAIL_PACKET);
      } else {
        KickPrevious(w);
        if !auth {
          Refuse(FAIL_TOKEN);
        } else {
          ok := true;
        }
      }
    }

    /** fetchOfflinePacket: the packets of the offline index in the order it is listed. */
    method FetchOfflinePacket() returns (order: seq<Key>, pks: seq<Packet>, ids: seq<string>)
      requires BareOf(jid).Some?
      ensures Enumerates(order, Fields(db.store, OfflineIdx(Addr(jid))))
      ensures pks == DelayList(db.store, jid, order) && ids == Ids(pks)
      ensures forall p :: multiset(pks)[p] == |Holders(Fields(db.store, OfflineIdx(Addr(jid))), p)|
      ensures |ids| == |pks| && forall i :: 0 <= i < |ids| ==> ids[i] == pks[i].id
    {
      order, pks, ids := ListIndex();
      forall p ensures multiset(pks)[p] == |Holders(Fields(db.store, OfflineIdx(Addr(jid))), p)| {
        ListsWhatIsStored(db.store, jid, order, p);
      }
    }

    method ListIndex() returns (order: seq<Key>, pks: seq<Packet>, ids: seq<string>)
      requires BareOf(jid).Some?
      ensures Enumerates(order, Fields(db.store, OfflineIdx(Addr(jid))))
      ensures pks == DelayList(db.store, jid, order) && ids == Ids(pks)
    {
      var vals;
      order, vals := db.GetByIdx(OfflineIdx(BareOf(jid).value));
      pks, ids := [], [];
      ghost var fields := Fields(db.store, OfflineIdx(Addr(jid)));
      if vals.None? {
        return;
      }
      var i := 0;
      while i < |vals.value|
        invariant i <= |vals.value|
        invariant pks + PacketsIn(fields, order[i..]) == PacketsIn(fields, order)
        invariant ids == Ids(pks)
      {
        if vals.value[i].PacketVal? {
          ids := ids + [vals.value[i].packet.id];
          pks := pks + [vals.value[i].packet];
        }
        i := i + 1;
      }
    }

    /** storeSessionStatus. */
    method StoreSessionStatus()
      requires Valid() && status.Login?
      modifies db
      ensures Valid()
      ensures var put := PutIdx(old(db.Value()), NodeIdx(nodeid), SessionKey(Addr(jid)), StatusOf(Me()));
              View() == old(View()).(db := put)
    {
      db.PutExWithIdx(NodeIdx(nodeid), SessionKey(Addr(jid)), StatusVal(sid, chan, jid, nodeid));
    }

    /** openSession after a successful verify. */
    method LogIn(p: Packet) returns (ghost order: seq<Key>)
      requires Valid() && BareOf(p.jid).Some?
      modifies this`jid, this`status, this`out, db, cache
      ensures Valid() && Enumerates(order, Fields(old(db.store), OfflineIdx(Addr(p.jid))))
      ensures View() == Sessions.LogIn(old(View()), p, order)
    {
      jid := p.jid;
      status := Login;
      var keys, pks, ids := FetchOfflinePacket();
      order := keys;
      ghost var c := View();
      if ids != [] {
        cache.Put(p.id, ids);
      }
      assert View() == c.(cache := if pks == [] then c.cache else c.cache[p.id := Ids(pks)]);
      StoreSessionStatus();
      Answer(AuthOk(p.id, pks));
    }

    method OpenSession(w: Wire, auth: bool) returns (ghost order: seq<Key>)
      requires Valid()
      modifies this, db, cache, router, clean
      ensures Valid() && OrderFits(old(db.store), w, order)
      ensures View() == Sessions.OpenSession(old(View()), w, auth, order) && !status.Conn?
    {
      var ok := Verify(w, auth);
      if ok {
        order := LogIn(w.p);
      } else {
        order := AnyListing(old(db.store), w);
      }
    }

    method ServerAck(id: string)
      requires Valid()
      modifies this`pkgBuff, this`panicked, db
      ensures Valid() && View() == Sessions.ServerAck(old(View()), id)
    {
      var b := BareOf(jid);
      if b.None? {
        panicked := true;
        return;
      }
      var listed := cache.Get(id);
      match listed {
        case Some(ids) =>
          DeleteListed(db, b.value, ids);
        case None =>
          pkgBuff := pkgBuff - {id};
      }
    }

    /** The group branch of packetHandler. */
    method HandleGroup(r: Raw) returns (ghost reply: Reply)
      requires Valid() && IsGroup(r.w)
      modifies this`out, this`pkgBuff, this`panicked, db, router
      ensures Valid() && Answers(NewPacket(r.w.p), r.cached, r.listed, r.uuid, reply)
      ensures View() == match reply
                        case Expanded(ps) => Sessions.RoutePacketList(Say(old(View()), AckOf(r.w.p.id)), Texts(ps))
                        case Crashed => old(View()).(panicked := true)
                        case _ => Say(old(View()), Notify)
    {
      var answer, put := GenerateGroupPackets(NewPacket(r.w.p), r.cached, r.listed, r.uuid);
      reply := answer;
      match answer {
        case Expanded(ps) =>
          Answer(AckOf(r.w.p.id));
          RoutePacketList(Texts(ps));
        case Crashed =>
          panicked := true;
        case _ =>
          Answer(Notify);
      }
    }

    /** The ack of `id` has been done. */
    ghost predicate Acknowledged(id: string)
      reads this, db, cache
    {
      AckDone(jid, cache.cache, pkgBuff, db.Value().pend, id)
    }

    /** A packet of a session that has left the connected state. */
    method HandleMessage(r: Raw, ghost order: seq<Key>) returns (ghost input: Input)
      requires Valid() && !status.Conn? && r.w.Msg? && OrderFits(db.store, r.w, order)
      modifies this`out, this`pkgBuff, this`panicked, db, router
      ensures Valid() && Reads(input, r) && input.order == order
      ensures View() == Handle(old(View()), input)
      ensures IsAck(r.w) && !panicked ==> Acknowledged(r.w.p.id)
    {
      var p := r.w.p;
      if IsAck(r.w) {
        AckEffect(View(), Input(r.w, r.auth, order, NotFound));
      }
      input := Input(r.w, r.auth, order, NotFound);
      if p.mtype == MSG_TYPE_STATE && p.to == SERVER_ACK {
        ServerAck(p.id);
      } else if p.mtype == MSG_TYPE_GROUP_CHAT {
        ghost var reply := HandleGroup(r);
        input := input.(group := reply);
      } else {
        if p.ack != 0 {
          Answer(AckOf(p.id));
        }
        RoutePacket(ToJson(NewPacket(p)));
      }
    }

    /** One packet of a batch. */
    method HandleOne(r: Raw) returns (ghost input: Input)
      requires Valid()
      modifies this, db, cache, router, clean
      ensures Valid() && Reads(input, r) && OrderFits(old(db.store), r.w, input.order)
      ensures View() == Handle(old(View()), input)
      ensures IsAck(r.w) && !old(status).Conn? && !panicked ==> Acknowledged(r.w.p.id)
      ensures !status.Conn?
    {
      if status.Conn? {
        ghost var order := OpenSession(r.w, r.auth);
        input := Input(r.w, r.auth, order,
                       if IsGroup(r.w) then TheReply(NewPacket(r.w.p), r.cached, r.listed, r.uuid) else NotFound);
        return;
      }
      ghost var order := AnyListing(db.store, r.w);
      input := Input(r.w, r.auth, order, NotFound);
      match r.w {
        case Beat =>
          if status.Login? {
            Answer(BeatBack);
          }
        case Garbage =>
          Answer(Notify);
          CloseSession();
        case Msg(p) =>
          input := HandleMessage(r, order);
      }
    }

    /** What packetHandler starts from: an earlier panic was recovered from. */
    ghost function Recovered(): (r: Ctx)
      reads this, db, cache, router, clean
    {
      View().(panicked := false)
    }

    /** packetHandler: a read error closes the session, a panic abandons the rest of the batch. */
    method PacketHandler(err: bool, raws: seq<Raw>) returns (ghost ins: seq<Input>)
      requires Valid()
      modifies this, db, cache, router, clean
      ensures Valid()
      ensures err ==> status.Close? && View() == Sessions.CloseSession(old(Recovered()))
      ensures !err ==>
                && ReadsAll(ins, raws) && OrdersFit(old(Recovered()), ins)
                && View() == HandleBatch(old(Recovered()), ins)
      ensures !err ==> panicked || |ins| == |raws|
      ensures !err && !panicked && EndsWithAck(raws, |raws|, !old(status).Conn?) ==>
                Acknowledged(raws[|raws| - 1].w.p.id)
    {
      ins := [];
      panicked := false;
      if err {
        CloseSession();
      } else {
        ins := HandleAll(raws);
      }
    }

    /** The loop over the packets of a read. */
    method HandleAll(raws: seq<Raw>) returns (ghost ins: seq<Input>)
      requires Valid() && !panicked
      modifies this, db, cache, router, clean
      ensures Valid() && ReadsAll(ins, raws) && OrdersFit(old(View()), ins) && View() == HandleBatch(old(View()), ins)
      ensures panicked || |ins| == |raws|
      ensures !panicked && EndsWithAck(raws, |raws|, !old(status).Conn?) ==> Acknowledged(raws[|raws| - 1].w.p.id)
    {
      ins := [];
      var i := 0;
      while i < |raws| && !panicked
        invariant i == |ins| <= |raws| && Valid() && ReadsAll(ins, raws)
        invariant OrdersFit(old(View()), ins) && View() == HandleBatch(old(View()), ins)
        invariant i > 0 ==> !status.Conn?
        invariant !panicked && EndsWithAck(raws, i, !old(status).Conn?) ==> Acknowledged(raws[i - 1].w.p.id)
        decreases |raws| - i
      {
        ghost var input := HandleOne(raws[i]);
        ReadsMore(ins, raws, input);
        HandleOneMore(old(View()), ins, input);
        ins := ins + [input];
        i := i + 1;
      }
    }
  }
}
