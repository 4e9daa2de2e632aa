/** Session lifecycle and registry over whole runs of the cluster. */
module ClusterRegistry {
  import opened Keys
  import opened Packets
  import opened Sessions
  import opened Cluster
  import opened ClusterInv
  import opened ClusterRuns

  // ---------------------------------------------------------------- lifecycle

  /** What a handler may do to the session it runs on. */
  ghost predicate Ages(a: Sess, b: Sess)
  {
    && b.sid == a.sid && b.chan == a.chan && b.nodeid == a.nodeid
    && (b.status == a.status || (a.status.Conn? && !b.status.Conn?) || (a.status.Login? && b.status.Close?))
    && (!a.status.Conn? ==> b.jid == a.jid)
    && (a.status.Close? ==> b.buff.Keys <= a.buff.Keys)
  }

  /** A session id enters the clean channel exactly when its session closes. */
  ghost predicate Enters(c: Ctx, d: Ctx)
  {
    d.clean == if !c.me.status.Close? && d.me.status.Close? then c.clean + multiset{c.me.sid} else c.clean
  }

  lemma CloseAges(c: Ctx)
    ensures Ages(c.me, CloseSession(c).me) && Enters(c, CloseSession(c))
  {
  }

  lemma RouteAges(c: Ctx, p: Packet)
    ensures Ages(c.me, RoutePacket(c, p).me) && Enters(c, RoutePacket(c, p))
  {
    var j := Judge(c.me, c.db.store, p);
    assert j.Mine? ==> c.me.status.Login?;
  }

  lemma AckAges(c: Ctx, id: string)
    ensures Ages(c.me, ServerAck(c, id).me) && Enters(c, ServerAck(c, id))
  {
  }

  lemma OpenAges(c: Ctx, w: Wire, auth: bool, order: seq<Key>)
    requires OrderFits(c.db.store, w, order) && c.me.status.Conn?
    ensures Ages(c.me, OpenSession(c, w, auth, order).me) && Enters(c, OpenSession(c, w, auth, order))
  {
    var c1 := KillPrevious(c, w);
    assert c1.me == c.me && c1.clean == c.clean;
    match Verify(w, auth)
    case Some(reason) => CloseAges(Say(c1, AuthFail(reason)));
    case None =>
  }

  /** One step, seen from session `x`. */
  ghost predicate SessionStep(s: State, t: State, x: string)
    requires x in s.sess
  {
    && x in t.sess && Ages(s.sess[x], t.sess[x])
    && (Announces(s, t, x) <==> !s.sess[x].status.Close? && t.sess[x].status.Close?)
  }

  /** The session is put into the clean channel. */
  ghost predicate Announces(s: State, t: State, x: string)
  {
    t.clean[x] > s.clean[x]
  }

  lemma BackAges(s: State, sid: string, c: Ctx, x: string)
    requires sid in s.sess && s.sess[sid].sid == sid && x in s.sess
    requires Ages(s.sess[sid], c.me) && Enters(View(s, sid), c)
    ensures SessionStep(s, Back(s, sid, c), x)
  {
  }

  /** The log and the login history play no part in it. */
  lemma StepIgnoresHistory(s: State, t: State, u: State, x: string)
    requires x in s.sess && SessionStep(s, t, x) && u.sess == t.sess && u.clean == t.clean
    ensures SessionStep(s, u, x)
  {
  }

  lemma SubmitLife(s: State, sid: string, p: Packet, x: string)
    requires sid in s.sess && s.sess[sid].sid == sid && x in s.sess
    ensures SessionStep(s, Submitted(s, sid, p), x) && SessionStep(s, Delivered(s, sid, p), x)
  {
    var t := Back(s, sid, RoutePacket(View(s, sid), p));
    RouteAges(View(s, sid), p);
    BackAges(s, sid, RoutePacket(View(s, sid), p), x);
    StepIgnoresHistory(s, t, Submitted(s, sid, p), x);
    StepIgnoresHistory(s, t, Delivered(s, sid, p), x);
  }

  lemma ShutLife(s: State, sid: string, x: string)
    requires sid in s.sess && s.sess[sid].sid == sid && x in s.sess
    ensures SessionStep(s, CloseAt(s, sid), x)
  {
    CloseAges(View(s, sid));
    BackAges(s, sid, CloseSession(View(s, sid)), x);
    StepIgnoresHistory(s, Back(s, sid, CloseSession(View(s, sid))), CloseAt(s, sid), x);
  }

  lemma AckLife(s: State, sid: string, id: string, x: string)
    requires sid in s.sess && s.sess[sid].sid == sid && x in s.sess
    ensures SessionStep(s, AckAt(s, sid, id), x)
  {
    AckAges(View(s, sid), id);
    BackAges(s, sid, ServerAck(View(s, sid), id), x);
    StepIgnoresHistory(s, Back(s, sid, ServerAck(View(s, sid), id)), AckAt(s, sid, id), x);
  }

  lemma OpenLife(s: State, sid: string, w: Wire, auth: bool, order: seq<Key>, x: string)
    requires sid in s.sess && s.sess[sid].sid == sid && x in s.sess
    requires s.sess[sid].status.Conn? && OrderFits(s.db.store, w, order)
    ensures SessionStep(s, Opened(s, sid, w, auth, order), x)
  {
    var c := OpenSession(View(s, sid), w, auth, order);
    OpenAges(View(s, sid), w, auth, order);
    BackAges(s, sid, c, x);
    StepIgnoresHistory(s, Back(s, sid, c), Opened(s, sid, w, auth, order), x);
  }

  lemma WorkOnLife(s: State, chan: string, it: Item, p: Packet, rpcOk: bool, x: string)
    requires x in s.sess && (it.sid in s.sess ==> s.sess[it.sid].sid == it.sid)
    ensures SessionStep(s, WorkOn(s, chan, it, p, rpcOk), x)
  {
    if Local(chan, it) && Found(s, chan, it.sid) {
      SubmitLife(s, it.sid, p, x);
    }
  }

  lemma WorkLife(s: State, chan: string, it: Item, rpcOk: bool, x: string)
    requires x in s.sess && (it.sid in s.sess ==> s.sess[it.sid].sid == it.sid)
    ensures SessionStep(s, Work(s, chan, it, rpcOk), x)
  {
    var s1 := Taken(s, chan, it);
    match it.pkt
    case None =>
      if Local(chan, it) && Found(s1, chan, it.sid) && it.signal == KILL {
        ShutLife(s1, it.sid, x);
      }
    case Some(p) => WorkOnLife(s1, chan, it, p, rpcOk, x);
  }

  lemma NodeRouteLife(s: State, chan: string, p: Packet)
    ensures NodeRoute(s, chan, p).sess == s.sess && NodeRoute(s, chan, p).clean == s.clean
  {
  }

  lemma NamedAt(s: State, x: string)
    requires BuffersOk(s)
    ensures x in s.sess ==> s.sess[x].sid == x
  {
    assert x in s.sess ==> BufferOk(s, x);
  }

  /** Status only moves from connected to logged in or closed and from logged in to closed, the address is fixed
      at login, a closed session's buffer gains nothing, and closing is what puts the session up for cleaning. */
  lemma StepLifecycle(s: State, e: Event, x: string)
    requires BuffersOk(s) && Enabled(s, e) && x in s.sess
    ensures SessionStep(s, Next(s, e), x)
  {
    match e
    case Open(sid, w, auth, order) => NamedAt(s, sid); OpenLife(s, sid, w, auth, order, x);
    case Submit(sid, p) => NamedAt(s, sid); SubmitLife(s, sid, p, x);
    case Ack(sid, id) => NamedAt(s, sid); AckLife(s, sid, id, x);
    case Shut(sid) => NamedAt(s, sid); ShutLife(s, sid, x);
    case Worker(chan, it, rpcOk) => NamedAt(s, it.sid); WorkLife(s, chan, it, rpcOk, x);
    case _ => QuietLife(s, e, x);
  }

  /** The steps that touch no session. */
  lemma QuietLife(s: State, e: Event, x: string)
    requires Possible(s, e) && x in s.sess && !e.Open? && !e.Submit? && !e.Ack? && !e.Shut? && !e.Worker?
    ensures SessionStep(s, Next(s, e), x)
  {
    match e
    case Arrive(chan, p) => NodeRouteLife(s.(dataCh := s.dataCh[chan := Hops(s, chan) - multiset{p}]), chan, p);
    case Expand(chan, p) => NodeRouteLife(s, chan, p);
    case _ =>
  }

  /** Over a run a session stays, never reopens, and keeps the address it logged in under. */
  lemma {:induction false} Lifecycle(tr: seq<State>, ev: seq<Event>, i: nat, j: nat, x: string)
    requires IsRun(tr, ev) && i <= j < |tr| && x in tr[i].sess
    ensures x in tr[j].sess
    ensures !tr[i].sess[x].status.Conn? ==> !tr[j].sess[x].status.Conn? && tr[j].sess[x].jid == tr[i].sess[x].jid
    ensures tr[i].sess[x].status.Close? ==>
              tr[j].sess[x].status.Close? && tr[j].sess[x].buff.Keys <= tr[i].sess[x].buff.Keys
    decreases j - i
  {
    if i < j {
      Lifecycle(tr, ev, i, j - 1, x);
      RunLife(tr, ev, j - 1, x);
    }
  }

  lemma RunLife(tr: seq<State>, ev: seq<Event>, k: nat, x: string)
    requires IsRun(tr, ev) && k < |ev| && x in tr[k].sess
    ensures SessionStep(tr[k], tr[k + 1], x)
  {
    var s, e := tr[k], ev[k];
    RunInv(tr, ev, k);
    RunStep(tr, ev, k);
    StepLifecycle(s, e, x);
  }

  /** Over a run a session is announced exactly when it closes on the way. */
  lemma {:induction false} AnnouncedIffCloses(tr: seq<State>, ev: seq<Event>, i: nat, j: nat, x: string)
    requires IsRun(tr, ev) && i <= j < |tr| && x in tr[i].sess
    ensures x in tr[j].sess
    ensures (exists k :: i <= k < j && Announces(tr[k], tr[k + 1], x)) <==>
            !tr[i].sess[x].status.Close? && tr[j].sess[x].status.Close?
    decreases j
  {
    if i < j {
      AnnouncedIffCloses(tr, ev, i, j - 1, x);
      RunLife(tr, ev, j - 1, x);
      Lifecycle(tr, ev, i, j - 1, x);
      Lifecycle(tr, ev, j - 1, j, x);
      assert Announces(tr[j - 1], tr[j - 1 + 1], x) ==> exists k :: i <= k < j && Announces(tr[k], tr[k + 1], x);
    }
  }

  /** A session is put up for cleaning at most once in a run, and only when it closes. */
  lemma CleanedOnce(tr: seq<State>, ev: seq<Event>, i: nat, j: nat, x: string)
    requires IsRun(tr, ev) && i < j < |ev| && x in tr[i].sess
    requires Announces(tr[i], tr[i + 1], x)
    ensures x in tr[i + 1].sess && tr[i + 1].sess[x].status.Close?
    ensures !Announces(tr[j], tr[j + 1], x)
  {
    RunLife(tr, ev, i, x);
    Lifecycle(tr, ev, i + 1, j, x);
    RunLife(tr, ev, j, x);
  }

  /** Tables and login history are not the handlers' business. */
  ghost predicate SameTables(s: State, t: State)
  {
    t.table == s.table && t.latest == s.latest
  }

  lemma OpenedRest(s: State, sid: string, w: Wire, auth: bool, order: seq<Key>)
    requires sid in s.sess && OrderFits(s.db.store, w, order)
    ensures Opened(s, sid, w, auth, order).table == s.table
  {
  }

  lemma NodeRouteRest(s: State, chan: string, p: Packet)
    ensures SameTables(s, NodeRoute(s, chan, p))
  {
  }

  lemma AckAtRest(s: State, sid: string, id: string)
    requires sid in s.sess
    ensures SameTables(s, AckAt(s, sid, id))
  {
  }

  /** Only registering, cleaning and logging in touch them. */
  lemma RestKept(s: State, e: Event)
    requires Possible(s, e) && !e.Open? && !e.Register? && !e.Clean?
    ensures SameTables(s, Next(s, e))
  {
    match e
    case Worker(chan, it, rpcOk) => WorkRest(s, chan, it, rpcOk);
    case Submit(sid, p) => DeliveredRest(s, sid, p);
    case Ack(sid, id) => AckAtRest(s, sid, id);
    case Shut(sid) => CloseAtRest(s, sid);
    case Arrive(chan, p) => NodeRouteRest(s.(dataCh := s.dataCh[chan := Hops(s, chan) - multiset{p}]), chan, p);
    case Expand(chan, p) => NodeRouteRest(s, chan, p);
    case _ =>
  }

  lemma StepTable(s: State, e: Event, x: string)
    requires CleanOk(s) && Enabled(s, e) && x in s.table && x !in Next(s, e).table
    ensures e == Clean(x) && x in s.sess && s.sess[x].status.Close?
  {
    if e.Open? {
      OpenedRest(s, e.sid, e.w, e.auth, e.order);
    } else if !e.Register? && !e.Clean? {
      RestKept(s, e);
    }
  }

  lemma WorkRest(s: State, chan: string, it: Item, rpcOk: bool)
    ensures SameTables(s, Work(s, chan, it, rpcOk))
  {
    var s1 := Taken(s, chan, it);
    match it.pkt
    case None =>
      if Found(s1, chan, it.sid) { CloseAtRest(s1, it.sid); }
    case Some(p) => WorkOnRest(s1, chan, it, p, rpcOk);
  }

  lemma WorkOnRest(s: State, chan: string, it: Item, p: Packet, rpcOk: bool)
    ensures SameTables(s, WorkOn(s, chan, it, p, rpcOk))
  {
    if Local(chan, it) && Found(s, chan, it.sid) { DeliveredRest(s, it.sid, p); }
  }

  lemma CloseAtRest(s: State, sid: string)
    requires sid in s.sess
    ensures SameTables(s, CloseAt(s, sid))
  {
  }

  lemma DeliveredRest(s: State, sid: string, p: Packet)
    requires sid in s.sess
    ensures SameTables(s, Delivered(s, sid, p)) && SameTables(s, Submitted(s, sid, p))
  {
  }

  /** A session leaves its node's table only once it is closed. */
  lemma TableKeepsOpen(tr: seq<State>, ev: seq<Event>, i: nat, x: string)
    requires IsRun(tr, ev) && i < |ev| && x in tr[i].table && x !in tr[i + 1].table
    ensures x in tr[i].sess && tr[i].sess[x].status.Close?
  {
    var s, e := tr[i], ev[i];
    RunInv(tr, ev, i);
    RunStep(tr, ev, i);
    StepTable(s, e, x);
  }
}
