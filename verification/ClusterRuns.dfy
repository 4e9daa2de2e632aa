/** Delivery guarantees over whole runs of the cluster. */
module ClusterRuns {
  import opened Options
  import opened Keys
  import opened Packets
  import opened Redis
  import opened Database
  import opened Sessions
  import opened Cluster
  import opened ClusterInv
  import opened ClusterSteps
  import opened ClusterWrites
  import opened ClusterEvents
  import opened ClusterFates

  ghost predicate IsRun(tr: seq<State>, ev: seq<Event>)
  {
    && |tr| == |ev| + 1 && Start(tr[0])
    && forall i :: 0 <= i < |ev| ==> StepAt(tr, ev, i)
  }

  ghost predicate StepAt(tr: seq<State>, ev: seq<Event>, i: nat)
    requires |tr| == |ev| + 1 && i < |ev|
  {
    Enabled(tr[i], ev[i]) && tr[i + 1] == Next(tr[i], ev[i])
  }

  lemma {:induction false} RunInv(tr: seq<State>, ev: seq<Event>, i: nat)
    requires IsRun(tr, ev) && i < |tr|
    ensures Inv(tr[i])
  {
    if i == 0 {
      StartOk(tr[0]);
    } else {
      RunInv(tr, ev, i - 1);
      RunNext(tr, ev, i - 1);
    }
  }

  lemma RunNext(tr: seq<State>, ev: seq<Event>, k: nat)
    requires IsRun(tr, ev) && k < |ev| && Inv(tr[k])
    ensures Inv(tr[k + 1])
  {
    var s, e := tr[k], ev[k];
    RunStep(tr, ev, k);
    NextOk(s, e);
  }

  // ---------------------------------------------------------------- at least once

  /** The packet is in the buffer of a logged-in session of its recipient, or on its way into the offline
      index, or in the index with no delete under way. */
  ghost predicate Held(s: State, p: Packet)
  {
    || (exists sid :: InBufferOf(s, sid, p))
    || PutIdxCmd(p) in s.db.pend
    || (InIndexOf(s, p) && HDel(OfflineIdx(Owner(p)), IdKey(p.id)) !in s.db.pend)
  }

  ghost predicate Live(f: Fate)
  {
    f.Buffered? || f.Storing? || f.Stored?
  }

  lemma HeldIffLive(s: State, p: Packet)
    requires Inv(s)
    ensures Held(s, p) <==> Known(s, p) && Live(s.log[p.id].fate)
  {
    if Held(s, p) {
      HeldKnown(s, p);
      HeldLive(s, p);
    }
    if Known(s, p) && Live(s.log[p.id].fate) {
      LiveHeld(s, p);
    }
  }

  lemma HeldKnown(s: State, p: Packet)
    requires BuffersOk(s) && PendOk(s) && IndexOk(s) && Held(s, p)
    ensures Known(s, p)
  {
    if sid :| InBufferOf(s, sid, p) {
      assert BufferOk(s, sid);
    } else if PutIdxCmd(p) in s.db.pend {
      assert CmdOk(s, PutIdxCmd(p));
    } else {
      assert FieldOk(s, Owner(p), IdKey(p.id));
    }
  }

  lemma HeldLive(s: State, p: Packet)
    requires BuffersOk(s) && PendOk(s) && IndexOk(s) && Held(s, p) && Known(s, p)
    ensures Live(s.log[p.id].fate)
  {
    if sid :| InBufferOf(s, sid, p) {
      PlaceBuffered(s, p, sid);
    } else {
      PlaceStoring(s, p);
      PlaceStored(s, p);
    }
  }

  lemma LiveHeld(s: State, p: Packet)
    requires BuffersOk(s) && PendOk(s) && IndexOk(s) && Known(s, p) && Live(s.log[p.id].fate)
    ensures Held(s, p)
  {
    var f := s.log[p.id].fate;
    if f.Buffered? {
      PlaceBuffered(s, p, f.sid);
      assert InBufferOf(s, f.sid, p);
    } else {
      PlaceStoring(s, p);
      PlaceStored(s, p);
    }
  }

  lemma HeldStep(s: State, e: Event, p: Packet)
    requires Inv(s) && Enabled(s, e) && Held(s, p) && !Acks(s, e, p)
    ensures Held(Next(s, e), p)
  {
    HeldIffLive(s, p);
    StepFate(s, e, p);
    LiveStays(s, e, Next(s, e), p);
    NextOk(s, e);
    HeldIffLive(Next(s, e), p);
  }

  lemma LiveStays(s: State, e: Event, t: State, p: Packet)
    requires Known(s, p) && FateStep(s, e, t, p) && Live(s.log[p.id].fate) && !Acks(s, e, p)
    ensures Known(t, p) && Live(t.log[p.id].fate)
  {
  }

  /**
   At least once: in every run, a packet that has been handed over stays with the server until a session
   of its recipient acknowledges it, or acknowledges a login answer that listed it.
   */
  lemma {:induction false} AtLeastOnce(tr: seq<State>, ev: seq<Event>, i: nat, j: nat, p: Packet)
    requires IsRun(tr, ev) && i <= j < |tr| && Held(tr[i], p)
    requires forall k :: i <= k < j ==> !Acks(tr[k], ev[k], p)
    ensures Held(tr[j], p)
    decreases j - i
  {
    if i < j {
      AtLeastOnce(tr, ev, i, j - 1, p);
      RunHeld(tr, ev, j - 1, p);
    }
  }

  lemma RunHeld(tr: seq<State>, ev: seq<Event>, k: nat, p: Packet)
    requires IsRun(tr, ev) && k < |ev| && Held(tr[k], p) && !Acks(tr[k], ev[k], p)
    ensures Held(tr[k + 1], p)
  {
    var s, e := tr[k], ev[k];
    RunInv(tr, ev, k);
    RunStep(tr, ev, k);
    HeldStep(s, e, p);
  }

  lemma RunFate(tr: seq<State>, ev: seq<Event>, k: nat, p: Packet)
    requires IsRun(tr, ev) && k < |ev| && Known(tr[k], p)
    ensures FateStep(tr[k], ev[k], tr[k + 1], p)
  {
    var s, e := tr[k], ev[k];
    RunInv(tr, ev, k);
    RunStep(tr, ev, k);
    StepFate(s, e, p);
  }

  lemma RunStep(tr: seq<State>, ev: seq<Event>, i: nat)
    requires IsRun(tr, ev) && i < |ev|
    ensures Enabled(tr[i], ev[i]) && tr[i + 1] == Next(tr[i], ev[i])
  {
    assert StepAt(tr, ev, i);
  }

  /** Routing conservation at every moment of every run. */
  lemma RunConserves(tr: seq<State>, ev: seq<Event>, i: nat, p: Packet, f: Fate)
    requires IsRun(tr, ev) && i < |tr| && Known(tr[i], p)
    ensures IsAt(tr[i], p, f) <==> f == tr[i].log[p.id].fate
  {
    RunInv(tr, ev, i);
    ExactlyOnePlace(tr[i], p, f);
  }

  /** The ends are final, and packets only move forward. */
  lemma {:induction false} EndsAreFinal(tr: seq<State>, ev: seq<Event>, i: nat, j: nat, p: Packet)
    requires IsRun(tr, ev) && i <= j < |tr| && Known(tr[i], p)
    ensures Known(tr[j], p)
    ensures var f := tr[i].log[p.id].fate; Limbo(f) || f.Acked? ==> tr[j].log[p.id].fate == f
    decreases j - i
  {
    if i < j {
      EndsAreFinal(tr, ev, i, j - 1, p);
      RunFate(tr, ev, j - 1, p);
    }
  }

  // ---------------------------------------------------------------- why a packet leaves the index

  /** A delete of a field of an offline index. */
  predicate IndexDelete(c: Cmd)
  {
    c.HDel? && c.idx.OfflineIdx? && c.field.IdKey?
  }

  lemma CloseKeeps(c: Ctx, cmd: Cmd)
    requires IndexDelete(cmd) && cmd in CloseSession(c).db.pend
    ensures cmd in c.db.pend
  {
  }

  lemma RouteKeeps(c: Ctx, p: Packet, cmd: Cmd)
    requires IndexDelete(cmd) && cmd in RoutePacket(c, p).db.pend
    ensures cmd in c.db.pend
  {
  }

  lemma NodeRouteKeeps(s: State, chan: string, p: Packet, cmd: Cmd)
    requires IndexDelete(cmd) && cmd in NodeRoute(s, chan, p).db.pend
    ensures cmd in s.db.pend
  {
  }

  lemma OpenKeeps(s: State, sid: string, w: Wire, auth: bool, order: seq<Key>, cmd: Cmd)
    requires sid in s.sess && OrderFits(s.db.store, w, order)
    requires IndexDelete(cmd) && cmd in Opened(s, sid, w, auth, order).db.pend
    ensures cmd in s.db.pend
  {
    var c := KillPrevious(View(s, sid), w);
    if Verify(w, auth).Some? {
      CloseKeeps(Say(c, AuthFail(Verify(w, auth).value)), cmd);
    }
  }

  lemma WorkKeeps(s: State, chan: string, it: Item, rpcOk: bool, cmd: Cmd)
    requires IndexDelete(cmd) && cmd in Work(s, chan, it, rpcOk).db.pend
    ensures cmd in s.db.pend
  {
    var s1 := Taken(s, chan, it);
    match it.pkt
    case None =>
      if Local(chan, it) && Found(s1, chan, it.sid) && it.signal == KILL {
        CloseKeeps(View(s1, it.sid), cmd);
      }
    case Some(p) => WorkOnKeeps(s1, chan, it, p, rpcOk, cmd);
  }

  lemma WorkOnKeeps(s: State, chan: string, it: Item, p: Packet, rpcOk: bool, cmd: Cmd)
    requires IndexDelete(cmd) && cmd in WorkOn(s, chan, it, p, rpcOk).db.pend
    ensures cmd in s.db.pend
  {
    if Local(chan, it) && Found(s, chan, it.sid) {
      RouteKeeps(View(s, it.sid), p, cmd);
    }
  }

  lemma AckKeeps(s: State, sid: string, id: string, cmd: Cmd)
    requires sid in s.sess && IndexDelete(cmd) && cmd in AckAt(s, sid, id).db.pend
    ensures cmd in s.db.pend || QueuesDelete(s, Ack(sid, id), cmd.idx.bare, cmd.field.id)
  {
    var chan := s.sess[sid].chan;
    if BareOf(s.sess[sid].jid).Some? && id in CacheAt(s, chan) {
      AckCmdsAre(Addr(s.sess[sid].jid), CacheAt(s, chan)[id], cmd);
    }
  }

  /** The step queues the delete of field `id` of the index of `b`. */
  ghost predicate QueuesDelete(s: State, e: Event, b: string, id: string)
  {
    && e.Ack? && e.sid in s.sess && BareOf(s.sess[e.sid].jid) == Some(b)
    && e.id in CacheAt(s, s.sess[e.sid].chan) && id in CacheAt(s, s.sess[e.sid].chan)[e.id]
  }

  lemma StepDelete(s: State, e: Event, cmd: Cmd)
    requires Enabled(s, e) && IndexDelete(cmd) && cmd in Next(s, e).db.pend
    ensures cmd in s.db.pend || QueuesDelete(s, e, cmd.idx.bare, cmd.field.id)
  {
    match e
    case Open(sid, w, auth, order) => OpenKeeps(s, sid, w, auth, order, cmd);
    case Submit(sid, p) => RouteKeeps(View(s, sid), p, cmd);
    case Ack(sid, l) => AckKeeps(s, sid, l, cmd);
    case Shut(sid) => CloseKeeps(View(s, sid), cmd);
    case Worker(chan, it, rpcOk) => WorkKeeps(s, chan, it, rpcOk, cmd);
    case Arrive(chan, p) =>
      if p.mtype != MSG_TYPE_GROUP_CHAT {
        NodeRouteKeeps(s.(dataCh := s.dataCh[chan := Hops(s, chan) - multiset{p}]), chan, p, cmd);
      }
    case Expand(chan, p) => NodeRouteKeeps(s, chan, p, cmd);
    case _ =>
  }

  lemma {:induction false} DeleteProvenance(tr: seq<State>, ev: seq<Event>, i: nat, b: string, id: string)
    returns (a: nat)
    requires IsRun(tr, ev) && i < |tr| && HDel(OfflineIdx(b), IdKey(id)) in tr[i].db.pend
    ensures a < i && QueuesDelete(tr[a], ev[a], b, id)
    decreases i
  {
    if i == 0 {
      StartIsDrained(tr, ev);
    } else if HDel(OfflineIdx(b), IdKey(id)) in tr[i - 1].db.pend {
      a := DeleteProvenance(tr, ev, i - 1, b, id);
    } else {
      RunDelete(tr, ev, i - 1, b, id);
      a := i - 1;
    }
  }

  lemma StartIsDrained(tr: seq<State>, ev: seq<Event>)
    requires IsRun(tr, ev)
    ensures tr[0].db.pend == multiset{} && forall chan :: CacheAt(tr[0], chan) == map[]
  {
  }

  lemma RunDelete(tr: seq<State>, ev: seq<Event>, k: nat, b: string, id: string)
    requires IsRun(tr, ev) && k < |ev|
    requires HDel(OfflineIdx(b), IdKey(id)) in tr[k + 1].db.pend && HDel(OfflineIdx(b), IdKey(id)) !in tr[k].db.pend
    ensures QueuesDelete(tr[k], ev[k], b, id)
  {
    var s, e := tr[k], ev[k];
    RunStep(tr, ev, k);
    StepDelete(s, e, HDel(OfflineIdx(b), IdKey(id)));
  }

  /** The step is a successful login on node `chan` with login id `l`. */
  ghost predicate LogsInAs(s: State, e: Event, chan: string, l: string)
  {
    && e.Open? && Enabled(s, e) && s.sess[e.sid].chan == chan
    && Verify(e.w, e.auth).None? && e.w.p.id == l
  }

  /** The packets its answer lists. */
  ghost function Answered(s: State, e: Event): (r: seq<Packet>)
    requires e.Open? && Enabled(s, e) && e.w.Msg?
  {
    DelayList(s.db.store, e.w.p.jid, e.order)
  }

  /** What openSession does to the offline cache. */
  lemma OpenCaches(c: Ctx, w: Wire, auth: bool, order: seq<Key>)
    requires OrderFits(c.db.store, w, order)
    ensures Verify(w, auth).Some? ==> OpenSession(c, w, auth, order).cache == c.cache
    ensures Verify(w, auth).None? ==>
              var delay := DelayList(c.db.store, w.p.jid, order);
              OpenSession(c, w, auth, order).cache == if delay == [] then c.cache else c.cache[w.p.id := Ids(delay)]
  {
    KickKeeps(c, w);
  }

  lemma KickKeeps(c: Ctx, w: Wire)
    ensures KillPrevious(c, w).cache == c.cache && KillPrevious(c, w).db == c.db
  {
  }

  /** What openSession does to the database. */
  lemma OpenDb(c: Ctx, w: Wire, auth: bool, order: seq<Key>)
    requires OrderFits(c.db.store, w, order)
    ensures Verify(w, auth).Some? ==> OpenSession(c, w, auth, order).db == CloseSession(c).db
    ensures Verify(w, auth).None? ==>
              OpenSession(c, w, auth, order).db ==
              PutIdx(c.db, NodeIdx(c.me.nodeid), SessionKey(Addr(w.p.jid)),
                     StatusVal(c.me.sid, c.me.chan, w.p.jid, c.me.nodeid))
  {
    KickOnly(c, w);
  }

  lemma OpenedDb(s: State, sid: string, w: Wire, auth: bool, order: seq<Key>)
    requires sid in s.sess && OrderFits(s.db.store, w, order)
    ensures Opened(s, sid, w, auth, order).db == OpenSession(View(s, sid), w, auth, order).db
  {
  }

  lemma BackCache(s: State, sid: string, c: Ctx, chan: string)
    requires sid in s.sess
    ensures CacheAt(Back(s, sid, c), chan) == if chan == s.sess[sid].chan then c.cache else CacheAt(s, chan)
  {
  }

  lemma OpenCache(s: State, sid: string, w: Wire, auth: bool, order: seq<Key>, chan: string, l: string)
    requires sid in s.sess && OrderFits(s.db.store, w, order)
    requires var t := Opened(s, sid, w, auth, order);
             l in CacheAt(t, chan) && !(l in CacheAt(s, chan) && CacheAt(t, chan)[l] == CacheAt(s, chan)[l])
    ensures chan == s.sess[sid].chan && Verify(w, auth).None? && w.p.id == l
    ensures CacheAt(Opened(s, sid, w, auth, order), chan)[l] == Ids(DelayList(s.db.store, w.p.jid, order))
  {
    var v := View(s, sid);
    OpenCaches(v, w, auth, order);
    BackCache(s, sid, OpenSession(v, w, auth, order), chan);
  }

  /** Handlers other than openSession leave the offline cache alone. */
  lemma HandlersKeepCache(c: Ctx, p: Packet, id: string)
    ensures CloseSession(c).cache == c.cache && RoutePacket(c, p).cache == c.cache && ServerAck(c, id).cache == c.cache
  {
    RouteKeepsCache(c, p);
    AckKeepsCache(c, id);
  }

  lemma RouteKeepsCache(c: Ctx, p: Packet)
    ensures RoutePacket(c, p).cache == c.cache
  {
    var j := Judge(c.me, c.db.store, p);
  }

  lemma AckKeepsCache(c: Ctx, id: string)
    ensures ServerAck(c, id).cache == c.cache
  {
  }

  lemma BackKeepsCache(s: State, sid: string, c: Ctx, chan: string)
    requires sid in s.sess && c.cache == CacheAt(s, s.sess[sid].chan)
    ensures CacheAt(Back(s, sid, c), chan) == CacheAt(s, chan)
  {
  }

  lemma CloseAtCache(s: State, sid: string, c: string)
    requires sid in s.sess
    ensures CacheAt(CloseAt(s, sid), c) == CacheAt(s, c)
  {
    BackKeepsCache(s, sid, CloseSession(View(s, sid)), c);
  }

  lemma WorkCache(s: State, chan: string, it: Item, rpcOk: bool, c: string)
    ensures CacheAt(Work(s, chan, it, rpcOk), c) == CacheAt(s, c)
  {
    var s1 := Taken(s, chan, it);
    assert CacheAt(s1, c) == CacheAt(s, c);
    match it.pkt
    case None =>
      if Local(chan, it) && Found(s1, chan, it.sid) && it.signal == KILL {
        CloseAtCache(s1, it.sid, c);
      }
    case Some(p) => WorkOnCache(s1, chan, it, p, rpcOk, c);
  }

  lemma DeliveredCache(s: State, sid: string, p: Packet, c: string)
    requires sid in s.sess
    ensures CacheAt(Delivered(s, sid, p), c) == CacheAt(s, c) && CacheAt(Submitted(s, sid, p), c) == CacheAt(s, c)
  {
    HandlersKeepCache(View(s, sid), p, "");
    BackKeepsCache(s, sid, RoutePacket(View(s, sid), p), c);
  }

  lemma WorkOnCache(s: State, chan: string, it: Item, p: Packet, rpcOk: bool, c: string)
    ensures CacheAt(WorkOn(s, chan, it, p, rpcOk), c) == CacheAt(s, c)
  {
    if Local(chan, it) && Found(s, chan, it.sid) { DeliveredCache(s, it.sid, p, c); }
  }

  lemma AckAtCache(s: State, sid: string, id: string, chan: string)
    requires sid in s.sess
    ensures CacheAt(AckAt(s, sid, id), chan) == CacheAt(s, chan)
  {
    AckKeepsCache(View(s, sid), id);
    BackKeepsCache(s, sid, ServerAck(View(s, sid), id), chan);
  }

  lemma StepCache(s: State, e: Event, chan: string, l: string)
    requires Enabled(s, e) && l in CacheAt(Next(s, e), chan)
    requires !(l in CacheAt(s, chan) && CacheAt(Next(s, e), chan)[l] == CacheAt(s, chan)[l])
    ensures LogsInAs(s, e, chan, l) && CacheAt(Next(s, e), chan)[l] == Ids(Answered(s, e))
  {
    if e.Open? {
      OpenCache(s, e.sid, e.w, e.auth, e.order, chan, l);
    } else {
      CacheKept(s, e, chan);
    }
  }

  lemma CacheKept(s: State, e: Event, chan: string)
    requires Possible(s, e) && !e.Open?
    ensures CacheAt(Next(s, e), chan) == CacheAt(s, chan)
  {
    match e
    case Worker(c, it, rpcOk) => WorkCache(s, c, it, rpcOk, chan);
    case Submit(sid, p) => DeliveredCache(s, sid, p, chan);
    case Ack(sid, id) => AckAtCache(s, sid, id, chan);
    case Shut(sid) => CloseAtCache(s, sid, chan);
    case Arrive(c, p) => NodeRouteCache(s.(dataCh := s.dataCh[c := Hops(s, c) - multiset{p}]), c, p);
    case Expand(c, p) => NodeRouteCache(s, c, p);
    case _ =>
  }

  lemma NodeRouteCache(s: State, chan: string, p: Packet)
    ensures NodeRoute(s, chan, p).caches == s.caches
  {
  }

  lemma {:induction false} CacheProvenance(tr: seq<State>, ev: seq<Event>, i: nat, chan: string, l: string)
    returns (k: nat)
    requires IsRun(tr, ev) && i < |tr| && l in CacheAt(tr[i], chan)
    ensures k < i && LogsInAs(tr[k], ev[k], chan, l) && CacheAt(tr[i], chan)[l] == Ids(Answered(tr[k], ev[k]))
    decreases i
  {
    if i == 0 {
      StartIsDrained(tr, ev);
    } else if l in CacheAt(tr[i - 1], chan) && CacheAt(tr[i], chan)[l] == CacheAt(tr[i - 1], chan)[l] {
      k := CacheProvenance(tr, ev, i - 1, chan, l);
    } else {
      RunCache(tr, ev, i - 1, chan, l);
      k := i - 1;
    }
  }

  lemma RunCache(tr: seq<State>, ev: seq<Event>, k: nat, chan: string, l: string)
    requires IsRun(tr, ev) && k < |ev| && l in CacheAt(tr[k + 1], chan)
    requires !(l in CacheAt(tr[k], chan) && CacheAt(tr[k + 1], chan)[l] == CacheAt(tr[k], chan)[l])
    ensures LogsInAs(tr[k], ev[k], chan, l) && CacheAt(tr[k + 1], chan)[l] == Ids(Answered(tr[k], ev[k]))
  {
    var s, e := tr[k], ev[k];
    RunStep(tr, ev, k);
    StepCache(s, e, chan, l);
  }

  // ---------------------------------------------------------------- the step that removes it

  lemma WriteKeepsIndex(s: State, cmd: Cmd, p: Packet)
    requires PendOk(s) && IndexOk(s) && cmd in s.db.pend && InIndexOf(s, p)
    requires cmd != HDel(OfflineIdx(Owner(p)), IdKey(p.id))
    ensures InIndexOf(Written(s, cmd), p)
  {
    assert CmdOk(s, cmd) && FieldOk(s, Owner(p), IdKey(p.id));
    if cmd.HSet? {
      var q := s.log[cmd.field.id].p;
      FieldsAfterHSet(s.db.store, Owner(q), cmd.field, cmd.v, Owner(p));
    } else if IndexDelete(cmd) {
      FieldsAfterHDel(s.db.store, cmd.idx.bare, cmd.field, Owner(p));
    } else {
      OtherCmdKeepsFields(s.db.store, cmd, Owner(p));
    }
  }

  lemma OtherCmdKeepsFields(st: Store, cmd: Cmd, b: string)
    requires Target(cmd) != OfflineIdx(b)
    ensures Fields(Exec(st, cmd), OfflineIdx(b)) == Fields(st, OfflineIdx(b))
  {
  }

  lemma OpenKeepsIndex(s: State, sid: string, w: Wire, auth: bool, order: seq<Key>, p: Packet)
    requires IndexOk(s) && sid in s.sess && OrderFits(s.db.store, w, order) && InIndexOf(s, p)
    ensures InIndexOf(Opened(s, sid, w, auth, order), p)
  {
    if Verify(w, auth).None? {
      var me := s.sess[sid].(jid := w.p.jid, status := Login);
      PutSession(s.db, me.nodeid, Addr(w.p.jid), StatusOf(me));
      FieldsKept(s.db, PutIdx(s.db, NodeIdx(me.nodeid), SessionKey(Addr(w.p.jid)), StatusOf(me)), Owner(p));
    }
  }

  /** The handlers that run on messages never write to the store directly. */
  lemma RouteKeepsStore(c: Ctx, p: Packet)
    ensures RoutePacket(c, p).db.store == c.db.store
  {
    var j := Judge(c.me, c.db.store, p);
    if j.Offline? {
      assert RoutePacket(c, p).db == StorePacket(c.db, p);
    }
  }

  lemma CloseKeepsStore(c: Ctx)
    ensures CloseSession(c).db.store == c.db.store
  {
  }

  lemma AckKeepsStore(c: Ctx, id: string)
    ensures ServerAck(c, id).db.store == c.db.store
  {
  }

  lemma StoreIsQueued(d: Db, p: Packet)
    ensures StorePacket(d, p).store == d.store
  {
  }

  lemma NodeRouteStore(s: State, chan: string, p: Packet)
    ensures NodeRoute(s, chan, p).db.store == s.db.store
  {
    StoreIsQueued(s.db, p);
    if BareOf(p.to).Some? {
      match Get(s.db.store, SessionKey(Owner(p)))
      case Some(v) => assert NodeRoute(s, chan, p).db == s.db;
      case None => assert NodeRoute(s, chan, p).db == StorePacket(s.db, p);
    }
  }

  lemma DeliveredStore(s: State, sid: string, p: Packet)
    requires sid in s.sess
    ensures Delivered(s, sid, p).db.store == s.db.store && Submitted(s, sid, p).db.store == s.db.store
  {
    RouteKeepsStore(View(s, sid), p);
  }

  lemma CloseAtStore(s: State, sid: string)
    requires sid in s.sess
    ensures CloseAt(s, sid).db.store == s.db.store
  {
    CloseKeepsStore(View(s, sid));
  }

  lemma AckAtStore(s: State, sid: string, id: string)
    requires sid in s.sess
    ensures AckAt(s, sid, id).db.store == s.db.store
  {
    AckKeepsStore(View(s, sid), id);
  }

  lemma WorkOnStore(s: State, chan: string, it: Item, p: Packet, rpcOk: bool)
    ensures WorkOn(s, chan, it, p, rpcOk).db.store == s.db.store
  {
    if Local(chan, it) && Found(s, chan, it.sid) {
      DeliveredStore(s, it.sid, p);
    } else {
      StoreIsQueued(s.db, p);
    }
  }

  lemma WorkStore(s: State, chan: string, it: Item, rpcOk: bool)
    ensures Work(s, chan, it, rpcOk).db.store == s.db.store
  {
    var s1 := Taken(s, chan, it);
    match it.pkt
    case None =>
      if Found(s1, chan, it.sid) { CloseAtStore(s1, it.sid); }
    case Some(p) => WorkOnStore(s1, chan, it, p, rpcOk);
  }

  /** Only logins, executed commands and expiry touch the store. */
  lemma StoreKept(s: State, e: Event)
    requires Possible(s, e) && !e.Open? && !e.Write? && !e.Expire?
    ensures Next(s, e).db.store == s.db.store
  {
    match e
    case Worker(chan, it, rpcOk) => WorkStore(s, chan, it, rpcOk);
    case Submit(sid, p) => DeliveredStore(s, sid, p);
    case Ack(sid, id) => AckAtStore(s, sid, id);
    case Shut(sid) => CloseAtStore(s, sid);
    case Arrive(chan, p) => NodeRouteStore(s.(dataCh := s.dataCh[chan := Hops(s, chan) - multiset{p}]), chan, p);
    case Expand(chan, p) => NodeRouteStore(s, chan, p);
    case _ =>
  }

  lemma StepIndex(s: State, e: Event, p: Packet)
    requires PendOk(s) && IndexOk(s) && Enabled(s, e) && InIndexOf(s, p) && !InIndexOf(Next(s, e), p)
    ensures e == Write(HDel(OfflineIdx(Owner(p)), IdKey(p.id)))
  {
    match e
    case Open(sid, w, auth, order) => OpenKeepsIndex(s, sid, w, auth, order, p);
    case Write(cmd) =>
      if cmd != HDel(OfflineIdx(Owner(p)), IdKey(p.id)) { WriteKeepsIndex(s, cmd, p); }
    case Expire(id) => ExpireKeepsIndex(s, id, p);
    case _ => StoreKept(s, e);
  }

  lemma ExpireKeepsIndex(s: State, id: string, p: Packet)
    requires InIndexOf(s, p)
    ensures InIndexOf(Next(s, Expire(id)), p)
  {
    assert SameOn(s.db.store, Next(s, Expire(id)).db.store, OfflineIdx(Owner(p)));
  }

  lemma RemovalAck(tr: seq<State>, ev: seq<Event>, i: nat, p: Packet) returns (a: nat)
    requires IsRun(tr, ev) && i < |ev| && ev[i] == Write(HDel(OfflineIdx(Owner(p)), IdKey(p.id))) && InIndexOf(tr[i], p)
    ensures a < i && AcksListed(tr[a], ev[a], p)
  {
    RunStep(tr, ev, i);
    RunInv(tr, ev, i);
    assert FieldOk(tr[i], Owner(p), IdKey(p.id));
    a := DeleteProvenance(tr, ev, i, Owner(p), p.id);
  }

  lemma ListingIsOwn(tr: seq<State>, ev: seq<Event>, i: nat, l: nat, p: Packet)
    requires IsRun(tr, ev) && l <= i < |tr| && l < |ev| && InIndexOf(tr[i], p)
    requires ev[l].Open? && Enabled(tr[l], ev[l]) && Verify(ev[l].w, ev[l].auth).None?
    requires p.id in Ids(Answered(tr[l], ev[l]))
    ensures BareOf(ev[l].w.p.jid) == BareOf(p.to)
  {
    RunInv(tr, ev, l);
    ListedIsSettled(tr[l], ev[l].w.p.jid, ev[l].order, p.id);
    var q := tr[l].log[p.id].p;
    assert Known(tr[l], q);
    EndsAreFinal(tr, ev, l, i, q);
    RunInv(tr, ev, i);
    assert FieldOk(tr[i], Owner(p), IdKey(p.id));
  }

  /**
   Offline removal is justified: if a packet leaves the offline index of its recipient, then earlier a
   session of the recipient acknowledged a login answer, and that answer, given to a login of the same
   address on the same node, listed the packet from the index.
   */
  lemma RemovalJustified(tr: seq<State>, ev: seq<Event>, i: nat, p: Packet) returns (a: nat, l: nat)
    requires IsRun(tr, ev) && i < |ev| && InIndexOf(tr[i], p) && !InIndexOf(tr[i + 1], p)
    ensures l < a < i
    ensures AcksListed(tr[a], ev[a], p)
    ensures LogsInAs(tr[l], ev[l], tr[a].sess[ev[a].sid].chan, ev[a].id)
    ensures p.id in Ids(Answered(tr[l], ev[l])) && BareOf(ev[l].w.p.jid) == BareOf(p.to)
  {
    RunInv(tr, ev, i);
    RunStep(tr, ev, i);
    StepIndex(tr[i], ev[i], p);
    a := RemovalAck(tr, ev, i, p);
    var chan := tr[a].sess[ev[a].sid].chan;
    l := CacheProvenance(tr, ev, a, chan, ev[a].id);
    ListingIsOwn(tr, ev, i, l, p);
  }
}
