/** The node indexes over whole runs: what they list, and what is on its way out of them. */
module ClusterIndex {
  import opened Options
  import opened Keys
  import opened Packets
  import opened Redis
  import opened Sessions
  import opened SessionLaws
  import opened Cluster
  import opened ClusterInv
  import opened ClusterRuns
  import opened ClusterRegistry
  import opened ClusterLogin

  function Index(s: State, n: string): (r: map<Key, Val>)
  {
    Fields(s.db.store, NodeIdx(n))
  }

  /** The delete that takes the entry of a session out of the index of its node. */
  function Unlist(me: Sess): (r: Cmd)
  {
    HDel(NodeIdx(me.nodeid), SessionKey(Addr(me.jid)))
  }

  /** The field is the status of a session of that node under that address, which is logged in or has its delete
      outstanding. */
  ghost predicate FieldLive(s: State, n: string, k: Key, v: Val)
  {
    && v.StatusVal? && v.nodeid == n && v.sid in s.sess
    && var me := s.sess[v.sid];
    && me.nodeid == n && v.chan == me.chan && v.jid == me.jid && !me.status.Conn?
    && BareOf(me.jid).Some? && k == SessionKey(Addr(me.jid))
    && (me.status.Login? || HDel(NodeIdx(n), k) in s.db.pend)
  }

  /** Every field is live, or was there at the start. */
  ghost predicate FieldExplained(s: State, st0: Store, n: string, k: Key)
  {
    k in Index(s, n) ==>
      || FieldLive(s, n, k, Index(s, n)[k])
      || (k in Fields(st0, NodeIdx(n)) && Index(s, n)[k] == Fields(st0, NodeIdx(n))[k])
  }

  // ---------------------------------------------------------------- what the handlers queue

  ghost predicate Grows(a: multiset<Cmd>, b: multiset<Cmd>)
  {
    forall x :: x in a ==> x in b
  }

  /** Nothing is taken out of the queue, and a session that stops being logged in has its delete queued. */
  ghost predicate Hands(c: Ctx, d: Ctx)
  {
    && Grows(c.db.pend, d.db.pend)
    && (c.me.status.Login? && d.me.status.Close? ==> Unlist(c.me) in d.db.pend)
  }

  lemma CloseHands(c: Ctx)
    ensures Hands(c, CloseSession(c)) && CloseSession(c).db.store == c.db.store
  {
    if !c.me.status.Close? {
      CloseQueues(c, Unlist(c.me));
    }
  }

  lemma RouteHands(c: Ctx, p: Packet)
    ensures Hands(c, RoutePacket(c, p)) && RoutePacket(c, p).db.store == c.db.store
  {
    RouteKeepsIff(c, p);
    RouteKeepsRest(c, p);
    forall x | x in c.db.pend ensures x in RoutePacket(c, p).db.pend {
      RouteStoresIff(c, p, x);
    }
  }

  lemma AckHands(c: Ctx, id: string)
    ensures Hands(c, ServerAck(c, id)) && ServerAck(c, id).db.store == c.db.store
  {
  }

  /** The step leaves the node indexes alone. */
  ghost predicate KeepsIndexes(s: State, t: State)
  {
    && t.db.store == s.db.store
    && Grows(s.db.pend, t.db.pend)
    && (forall x :: x in s.sess ==> x in t.sess && (s.sess[x].status.Login? && t.sess[x].status.Close? ==>
                                                      Unlist(s.sess[x]) in t.db.pend))
  }

  lemma BackKeeps(s: State, sid: string, c: Ctx)
    requires sid in s.sess && Hands(View(s, sid), c) && c.db.store == s.db.store
    ensures KeepsIndexes(s, Back(s, sid, c))
  {
  }

  lemma KeepsIgnoresHistory(s: State, t: State, u: State)
    requires KeepsIndexes(s, t) && u.db == t.db && u.sess == t.sess
    ensures KeepsIndexes(s, u)
  {
  }

  lemma ShutKeepsIndexes(s: State, sid: string)
    requires sid in s.sess
    ensures KeepsIndexes(s, CloseAt(s, sid))
  {
    var c := CloseSession(View(s, sid));
    CloseHands(View(s, sid));
    BackKeeps(s, sid, c);
    KeepsIgnoresHistory(s, Back(s, sid, c), CloseAt(s, sid));
  }

  lemma RouteKeepsIndexes(s: State, sid: string, p: Packet)
    requires sid in s.sess
    ensures KeepsIndexes(s, Submitted(s, sid, p)) && KeepsIndexes(s, Delivered(s, sid, p))
  {
    var c := RoutePacket(View(s, sid), p);
    RouteHands(View(s, sid), p);
    BackKeeps(s, sid, c);
    KeepsIgnoresHistory(s, Back(s, sid, c), Submitted(s, sid, p));
    KeepsIgnoresHistory(s, Back(s, sid, c), Delivered(s, sid, p));
  }

  lemma AckKeepsIndexes(s: State, sid: string, id: string)
    requires sid in s.sess
    ensures KeepsIndexes(s, AckAt(s, sid, id))
  {
    var c := ServerAck(View(s, sid), id);
    AckHands(View(s, sid), id);
    BackKeeps(s, sid, c);
    KeepsIgnoresHistory(s, Back(s, sid, c), AckAt(s, sid, id));
  }

  lemma StoreGrows(s: State, t: State, p: Packet)
    requires t.sess == s.sess && (t.db == s.db || t.db == StorePacket(s.db, p))
    ensures KeepsIndexes(s, t)
  {
  }

  lemma WorkOnKeepsIndexes(s: State, chan: string, it: Item, p: Packet, rpcOk: bool)
    ensures KeepsIndexes(s, WorkOn(s, chan, it, p, rpcOk))
  {
    if Local(chan, it) && Found(s, chan, it.sid) {
      RouteKeepsIndexes(s, it.sid, p);
    } else {
      StoreGrows(s, WorkOn(s, chan, it, p, rpcOk), p);
    }
  }

  lemma WorkKeepsIndexes(s: State, chan: string, it: Item, rpcOk: bool)
    ensures KeepsIndexes(s, Work(s, chan, it, rpcOk))
  {
    var s1 := Taken(s, chan, it);
    match it.pkt
    case None => SignalKeepsIndexes(s1, chan, it); KeepsFrom(s, s1, Work(s, chan, it, rpcOk));
    case Some(p) => WorkOnKeepsIndexes(s1, chan, it, p, rpcOk); KeepsFrom(s, s1, WorkOn(s1, chan, it, p, rpcOk));
  }

  lemma SignalKeepsIndexes(s: State, chan: string, it: Item)
    ensures KeepsIndexes(s, s) && (Found(s, chan, it.sid) ==> KeepsIndexes(s, CloseAt(s, it.sid)))
  {
    if Found(s, chan, it.sid) { ShutKeepsIndexes(s, it.sid); }
  }

  lemma KeepsFrom(s: State, s1: State, t: State)
    requires s1.db == s.db && s1.sess == s.sess && KeepsIndexes(s1, t)
    ensures KeepsIndexes(s, t)
  {
  }

  lemma NodeRouteKeepsIndexes(s: State, chan: string, p: Packet)
    ensures KeepsIndexes(s, NodeRoute(s, chan, p))
  {
    NodeRouteStores(s, chan, p);
    StoreGrows(s, NodeRoute(s, chan, p), p);
  }

  lemma NodeRouteStores(s: State, chan: string, p: Packet)
    ensures var t := NodeRoute(s, chan, p); t.sess == s.sess && (t.db == s.db || t.db == StorePacket(s.db, p))
  {
  }

  lemma QuietKeepsIndexes(s: State, e: Event)
    requires Possible(s, e) && (e.Accept? || e.Register? || e.Clean? || e.Push?)
    ensures KeepsIndexes(s, Next(s, e))
  {
  }

  lemma ArriveKeepsIndexes(s: State, chan: string, p: Packet)
    ensures KeepsIndexes(s, Arrived(s, chan, p))
  {
    var s1 := s.(dataCh := s.dataCh[chan := Hops(s, chan) - multiset{p}]);
    NodeRouteKeepsIndexes(s1, chan, p);
  }

  lemma ExpandKeepsIndexes(s: State, e: Event)
    requires Possible(s, e) && e.Expand?
    ensures KeepsIndexes(s, Next(s, e))
  {
    NodeRouteKeepsIndexes(s, e.chan, e.p);
    KeepsIgnoresHistory(s, NodeRoute(s, e.chan, e.p), Next(s, e));
  }

  lemma StepKeepsIndexes(s: State, e: Event)
    requires Possible(s, e) && !e.Open? && !e.Write? && !e.Expire?
    ensures KeepsIndexes(s, Next(s, e))
  {
    match e
    case Submit(sid, p) => RouteKeepsIndexes(s, sid, p);
    case Ack(sid, id) => AckKeepsIndexes(s, sid, id);
    case Shut(sid) => ShutKeepsIndexes(s, sid);
    case Worker(chan, it, rpcOk) => WorkKeepsIndexes(s, chan, it, rpcOk);
    case Arrive(chan, p) => ArriveKeepsIndexes(s, chan, p);
    case Expand(_, _) => ExpandKeepsIndexes(s, e);
    case Accept(_, _, _) => QuietKeepsIndexes(s, e);
    case Register(_) => QuietKeepsIndexes(s, e);
    case Clean(_) => QuietKeepsIndexes(s, e);
    case Push(_, _) => QuietKeepsIndexes(s, e);
  }

  // ---------------------------------------------------------------- one step

  /** A live field stays live while it is there, its session ages, and its delete stays queued. */
  lemma LiveStays(s: State, t: State, n: string, k: Key, v: Val)
    requires FieldLive(s, n, k, v) && v.sid in t.sess && Ages(s.sess[v.sid], t.sess[v.sid])
    requires HDel(NodeIdx(n), k) in s.db.pend ==> HDel(NodeIdx(n), k) in t.db.pend
    requires s.sess[v.sid].status.Login? && t.sess[v.sid].status.Close? ==> Unlist(s.sess[v.sid]) in t.db.pend
    ensures FieldLive(t, n, k, v)
  {
  }

  lemma PlainStepExplained(s: State, e: Event, st0: Store, n: string, k: Key)
    requires Inv(s) && Enabled(s, e) && !e.Open? && !e.Write? && !e.Expire? && FieldExplained(s, st0, n, k)
    ensures FieldExplained(Next(s, e), st0, n, k)
  {
    StepKeepsIndexes(s, e);
    if k in Index(s, n) && FieldLive(s, n, k, Index(s, n)[k]) {
      var v := Index(s, n)[k];
      StepLifecycle(s, e, v.sid);
      LiveStays(s, Next(s, e), n, k, v);
    }
  }

  lemma WrittenIndex(st: Store, cmd: Cmd, n: string, k: Key)
    requires cmd.HSet? ==> !cmd.idx.NodeIdx?
    requires (cmd.Set? || cmd.Del?) ==> !Target(cmd).NodeIdx?
    requires k in Fields(Exec(st, cmd), NodeIdx(n))
    ensures k in Fields(st, NodeIdx(n)) && Fields(Exec(st, cmd), NodeIdx(n))[k] == Fields(st, NodeIdx(n))[k]
    ensures cmd != HDel(NodeIdx(n), k)
  {
  }

  lemma WriteExplained(s: State, cmd: Cmd, st0: Store, n: string, k: Key)
    requires PendOk(s) && cmd in s.db.pend && FieldExplained(s, st0, n, k)
    ensures FieldExplained(Written(s, cmd), st0, n, k)
  {
    var t := Written(s, cmd);
    assert CmdOk(s, cmd);
    if k in Index(t, n) {
      WrittenIndex(s.db.store, cmd, n, k);
      var v := Index(s, n)[k];
      if FieldLive(s, n, k, v) {
        LiveStays(s, t, n, k, v);
      }
    }
  }

  lemma ExpireExplained(s: State, id: string, st0: Store, n: string, k: Key)
    requires FieldExplained(s, st0, n, k)
    ensures FieldExplained(s.(db := s.db.(store := s.db.store - {IdKey(id)})), st0, n, k)
  {
    var t := s.(db := s.db.(store := s.db.store - {IdKey(id)}));
    assert Index(t, n) == Index(s, n);
  }

  lemma OpenExplained(s: State, e: Event, st0: Store, n: string, k: Key)
    requires Inv(s) && Enabled(s, e) && e.Open? && FieldExplained(s, st0, n, k)
    ensures FieldExplained(Next(s, e), st0, n, k)
  {
    var t := Opened(s, e.sid, e.w, e.auth, e.order);
    NamedAt(s, e.sid);
    OpenedSession(s, e.sid, e.w, e.auth, e.order);
    OthersStay(s, e.sid, e.w, e.auth, e.order);
    OpenPends(View(s, e.sid), e.w, e.auth, e.order);
    if Credentials(e.w, e.auth) {
      ListedAtLogin(s, e.sid, e.w, e.auth, e.order, n, k);
    } else {
      RefusedIs(View(s, e.sid), e.w, e.auth, e.order);
    }
    OldField(s, t, e.sid, st0, n, k);
  }

  lemma OthersStay(s: State, sid: string, w: Wire, auth: bool, order: seq<Key>)
    requires sid in s.sess && OrderFits(s.db.store, w, order)
    ensures forall x :: x in s.sess && x != sid ==>
              x in Opened(s, sid, w, auth, order).sess && Opened(s, sid, w, auth, order).sess[x] == s.sess[x]
  {
    OpenedSessions(s, sid, w, auth, order);
  }

  lemma OpenedSessions(s: State, sid: string, w: Wire, auth: bool, order: seq<Key>)
    requires sid in s.sess && OrderFits(s.db.store, w, order)
    ensures Opened(s, sid, w, auth, order).sess == s.sess[sid := OpenSession(View(s, sid), w, auth, order).me]
  {
  }

  /** The one field a login writes is live; the others are as they were. */
  lemma ListedAtLogin(s: State, sid: string, w: Wire, auth: bool, order: seq<Key>, n: string, k: Key)
    requires sid in s.sess && s.sess[sid].sid == sid && s.sess[sid].status.Conn? && OrderFits(s.db.store, w, order)
    requires Credentials(w, auth)
    ensures var t := Opened(s, sid, w, auth, order);
            k in Index(t, n) ==>
              FieldLive(t, n, k, Index(t, n)[k]) || (k in Index(s, n) && Index(t, n)[k] == Index(s, n)[k])
  {
    var c := View(s, sid);
    var v := StatusVal(c.me.sid, c.me.chan, w.p.jid, c.me.nodeid);
    OpenedSession(s, sid, w, auth, order);
    LoggedInIs(c, w, auth, order);
    RegistersIs(c, w, auth, order);
    RegisteredField(s.db.store, c.me.nodeid, SessionKey(Addr(w.p.jid)), v, n, k);
    ParsesIfAt(w.p.jid);
  }

  lemma RegisteredField(st: Store, m: string, key: Key, v: Val, n: string, k: Key)
    requires key.SessionKey?
    ensures var idx := NodeIdx(m);
            var written := st[idx := Hash(Fields(st, idx)[key := v])][key := Str(v)];
            var st' := if idx in st && st[idx].Str? then st else written;
            k in Fields(st', NodeIdx(n)) ==>
              || (n == m && k == key && Fields(st', NodeIdx(n))[k] == v)
              || (k in Fields(st, NodeIdx(n)) && Fields(st', NodeIdx(n))[k] == Fields(st, NodeIdx(n))[k])
  {
  }

  lemma OpenPends(c: Ctx, w: Wire, auth: bool, order: seq<Key>)
    requires OrderFits(c.db.store, w, order) && c.me.status.Conn?
    ensures Grows(c.db.pend, OpenSession(c, w, auth, order).db.pend)
  {
    if !Credentials(w, auth) {
      if w.Msg? { ParsesIfAt(w.p.jid); }
      CloseHands(Say(KillPrevious(c, w), AuthFail(Verify(w, auth).value)));
    } else {
      LoggedInIs(c, w, auth, order);
    }
  }

  /** A field that was live is so when only a connected session changes. */
  lemma OldField(s: State, t: State, sid: string, st0: Store, n: string, k: Key)
    requires FieldExplained(s, st0, n, k) && sid in s.sess && s.sess[sid].status.Conn?
    requires forall x :: x in s.sess && x != sid ==> x in t.sess && t.sess[x] == s.sess[x]
    requires k in Index(t, n) && !FieldLive(t, n, k, Index(t, n)[k]) ==>
               k in Index(s, n) && Index(t, n)[k] == Index(s, n)[k]
    requires Grows(s.db.pend, t.db.pend)
    ensures FieldExplained(t, st0, n, k)
  {
  }

  lemma StepExplained(s: State, e: Event, st0: Store, n: string, k: Key)
    requires Inv(s) && Enabled(s, e) && FieldExplained(s, st0, n, k)
    ensures FieldExplained(Next(s, e), st0, n, k)
  {
    match e
    case Open(_, _, _, _) => OpenExplained(s, e, st0, n, k);
    case Write(cmd) => WriteExplained(s, cmd, st0, n, k);
    case Expire(id) => ExpireExplained(s, id, st0, n, k);
    case _ => PlainStepExplained(s, e, st0, n, k);
  }

  // ---------------------------------------------------------------- every run

  /**
   Node indexes, over every run: what the index of a node lists beyond what it held at the start is the status of a
   session of that node under its address, and that session is logged in or its delete from this index is outstanding.
   */
  lemma {:induction false} IndexIsLive(tr: seq<State>, ev: seq<Event>, i: nat, n: string, k: Key)
    requires IsRun(tr, ev) && i < |tr|
    ensures k in Fields(tr[i].db.store, NodeIdx(n)) ==>
              var v := Fields(tr[i].db.store, NodeIdx(n))[k];
              || (k in Fields(tr[0].db.store, NodeIdx(n)) && v == Fields(tr[0].db.store, NodeIdx(n))[k])
              || FieldLive(tr[i], n, k, v)
    decreases i
  {
    RunExplained(tr, ev, i, n, k);
  }

  lemma {:induction false} RunExplained(tr: seq<State>, ev: seq<Event>, i: nat, n: string, k: Key)
    requires IsRun(tr, ev) && i < |tr|
    ensures FieldExplained(tr[i], tr[0].db.store, n, k)
    decreases i
  {
    if i > 0 {
      RunExplained(tr, ev, i - 1, n, k);
      RunExplainedStep(tr, ev, i - 1, n, k);
    }
  }

  lemma RunExplainedStep(tr: seq<State>, ev: seq<Event>, i: nat, n: string, k: Key)
    requires IsRun(tr, ev) && i < |ev| && FieldExplained(tr[i], tr[0].db.store, n, k)
    ensures FieldExplained(tr[i + 1], tr[0].db.store, n, k)
  {
    RunInv(tr, ev, i);
    RunStep(tr, ev, i);
    StepExplained(tr[i], ev[i], tr[0].db.store, n, k);
  }

  /** So once its deletes have run, the index of a node lists only logged-in sessions of that node. */
  lemma DrainedIndexIsLoggedIn(tr: seq<State>, ev: seq<Event>, i: nat, n: string, k: Key)
    requires IsRun(tr, ev) && i < |tr| && tr[i].db.pend == multiset{} && k in Fields(tr[i].db.store, NodeIdx(n))
    requires k !in Fields(tr[0].db.store, NodeIdx(n))
    ensures k.SessionKey? && exists x :: x in tr[i].sess && tr[i].sess[x].status.Login? && tr[i].sess[x].nodeid == n &&
                                         BareOf(tr[i].sess[x].jid) == Some(k.bare)
  {
    IndexIsLive(tr, ev, i, n, k);
  }
}
