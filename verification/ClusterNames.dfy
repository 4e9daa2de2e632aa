/** What the registry can claim: which session it names for an address, and when it names none. */
module ClusterNames {
  import opened Options
  import opened Keys
  import opened Packets
  import opened Redis
  import opened Sessions
  import opened Cluster
  import opened ClusterInv
  import opened ClusterSteps
  import opened ClusterRuns
  import opened ClusterRegistry

  ghost predicate Names(s: State, b: string, sid: string)
  {
    && SessionKey(b) in s.db.store
    && var e := s.db.store[SessionKey(b)]; e.Str? && e.v.StatusVal? && e.v.sid == sid
  }

  /** Session `sid` logs in under address `b`. */
  ghost predicate LogsInUnder(e: Event, sid: string, b: string)
  {
    e.Open? && e.sid == sid && Verify(e.w, e.auth).None? && Addr(e.w.p.jid) == b
  }

  /** Some session logs in under `b`. */
  ghost predicate LoginOf(e: Event, b: string)
  {
    e.Open? && LogsInUnder(e, e.sid, b)
  }

  /** The session of `b` that closes in the step. */
  ghost predicate ClosesUnder(s: State, t: State, x: string, b: string)
  {
    && x in s.sess && s.sess[x].status.Login? && BareOf(s.sess[x].jid) == Some(b)
    && x in t.sess && t.sess[x].status.Close?
  }

  // ---------------------------------------------------------------- one step

  lemma StepLatest(s: State, e: Event, b: string)
    requires Enabled(s, e) && b in Next(s, e).latest
    ensures if LoginOf(e, b) then Next(s, e).latest[b] == e.sid
            else b in s.latest && Next(s, e).latest[b] == s.latest[b]
  {
    if e.Open? {
      OpenedLatest(s, e.sid, e.w, e.auth, e.order);
    } else if !e.Register? && !e.Clean? {
      RestKept(s, e);
    }
  }

  lemma OpenedLatest(s: State, sid: string, w: Wire, auth: bool, order: seq<Key>)
    requires sid in s.sess && OrderFits(s.db.store, w, order)
    ensures Opened(s, sid, w, auth, order).latest ==
            if Verify(w, auth).None? then s.latest[Addr(w.p.jid) := sid] else s.latest
  {
  }

  lemma OpenEntry(s: State, sid: string, w: Wire, auth: bool, order: seq<Key>, b: string)
    requires IndexOk(s) && sid in s.sess && s.sess[sid].sid == sid && OrderFits(s.db.store, w, order)
    ensures var t := Opened(s, sid, w, auth, order);
            if LogsInUnder(Open(sid, w, auth, order), sid, b) then Names(t, b, sid)
            else SameOn(s.db.store, t.db.store, SessionKey(b))
  {
    var c := View(s, sid);
    OpenedDb(s, sid, w, auth, order);
    OpenDb(c, w, auth, order);
    if Verify(w, auth).None? {
      PutSession(s.db, c.me.nodeid, Addr(w.p.jid), StatusVal(c.me.sid, c.me.chan, w.p.jid, c.me.nodeid));
    } else {
      CloseKeepsStore(c);
    }
  }

  lemma WriteEntry(s: State, cmd: Cmd, b: string)
    requires PendOk(s) && cmd in s.db.pend
    ensures if cmd == Del(SessionKey(b)) then SessionKey(b) !in Written(s, cmd).db.store
            else SameOn(s.db.store, Written(s, cmd).db.store, SessionKey(b))
  {
    assert CmdOk(s, cmd);
  }

  /** An entry is set by a login, removed by a delete, and otherwise left alone. */
  lemma StepEntry(s: State, e: Event, b: string)
    requires BuffersOk(s) && PendOk(s) && IndexOk(s) && Enabled(s, e)
    ensures LoginOf(e, b) ==> Names(Next(s, e), b, e.sid)
    ensures e == Write(Del(SessionKey(b))) ==> SessionKey(b) !in Next(s, e).db.store
    ensures !LoginOf(e, b) && e != Write(Del(SessionKey(b))) ==> SameOn(s.db.store, Next(s, e).db.store, SessionKey(b))
  {
    match e
    case Open(sid, w, auth, order) => NamedAt(s, sid); OpenEntry(s, sid, w, auth, order, b);
    case Write(cmd) => WriteEntry(s, cmd, b);
    case Expire(id) => ExpireEntry(s, id, b);
    case _ => StoreKept(s, e);
  }

  lemma ExpireEntry(s: State, id: string, b: string)
    ensures SameOn(s.db.store, Next(s, Expire(id)).db.store, SessionKey(b))
  {
  }

  lemma CloseDrops(s: State, sid: string, b: string)
    requires sid in s.sess && BufferOk(s, sid)
    requires Del(SessionKey(b)) in CloseSession(View(s, sid)).db.pend && Del(SessionKey(b)) !in s.db.pend
    ensures s.sess[sid].status.Login? && BareOf(s.sess[sid].jid) == Some(b)
  {
  }

  lemma RouteDropsNothing(c: Ctx, p: Packet, b: string)
    ensures Del(SessionKey(b)) in RoutePacket(c, p).db.pend ==> Del(SessionKey(b)) in c.db.pend
  {
  }

  lemma {:induction false} AckCmdsDropNothing(a: string, ids: seq<string>, b: string)
    ensures Del(SessionKey(b)) !in AckCmds(a, ids)
  {
    if ids != [] {
      AckCmdsDropNothing(a, ids[1..], b);
    }
  }

  lemma AckDropsNothing(c: Ctx, id: string, b: string)
    ensures Del(SessionKey(b)) in ServerAck(c, id).db.pend ==> Del(SessionKey(b)) in c.db.pend
  {
    if BareOf(c.me.jid).Some? && id in c.cache {
      AckCmdsDropNothing(Addr(c.me.jid), c.cache[id], b);
    }
  }

  lemma NodeRouteDropsNothing(s: State, chan: string, p: Packet, b: string)
    ensures Del(SessionKey(b)) in NodeRoute(s, chan, p).db.pend ==> Del(SessionKey(b)) in s.db.pend
  {
  }

  lemma WorkDrops(s: State, chan: string, it: Item, rpcOk: bool, b: string)
    requires BuffersOk(s)
    requires Del(SessionKey(b)) in Work(s, chan, it, rpcOk).db.pend && Del(SessionKey(b)) !in s.db.pend
    ensures ClosesUnder(s, Work(s, chan, it, rpcOk), it.sid, b)
  {
    var s1 := Taken(s, chan, it);
    match it.pkt
    case None =>
      if Found(s1, chan, it.sid) {
        assert BufferOk(s, it.sid);
        assert BufferOk(s1, it.sid);
        CloseDrops(s1, it.sid, b);
      }
    case Some(p) =>
      WorkOnDropsNothing(s1, chan, it, p, rpcOk, b);
  }

  lemma WorkOnDropsNothing(s: State, chan: string, it: Item, p: Packet, rpcOk: bool, b: string)
    ensures Del(SessionKey(b)) in WorkOn(s, chan, it, p, rpcOk).db.pend ==> Del(SessionKey(b)) in s.db.pend
  {
    if Local(chan, it) && Found(s, chan, it.sid) { RouteDropsNothing(View(s, it.sid), p, b); }
  }

  lemma OpenDropsNothing(s: State, sid: string, w: Wire, auth: bool, order: seq<Key>, b: string)
    requires sid in s.sess && s.sess[sid].status.Conn? && OrderFits(s.db.store, w, order)
    ensures Del(SessionKey(b)) in Opened(s, sid, w, auth, order).db.pend ==> Del(SessionKey(b)) in s.db.pend
  {
    OpenedDb(s, sid, w, auth, order);
    OpenDb(View(s, sid), w, auth, order);
    CloseConnDropsNothing(View(s, sid), b);
  }

  lemma CloseConnDropsNothing(c: Ctx, b: string)
    requires c.me.status.Conn?
    ensures Del(SessionKey(b)) in CloseSession(c).db.pend ==> Del(SessionKey(b)) in c.db.pend
  {
  }

  /** Only the close of a logged-in session of `b` queues a delete of the entry of `b`. */
  lemma StepDrop(s: State, e: Event, b: string) returns (x: string)
    requires BuffersOk(s) && Enabled(s, e)
    requires Del(SessionKey(b)) in Next(s, e).db.pend && Del(SessionKey(b)) !in s.db.pend
    ensures ClosesUnder(s, Next(s, e), x, b)
  {
    x := "";
    if e.Shut? {
      x := e.sid;
      assert BufferOk(s, x);
      CloseDrops(s, x, b);
    } else if e.Worker? {
      x := e.item.sid;
      WorkDrops(s, e.chan, e.item, e.rpcOk, b);
    } else {
      DropsNothing(s, e, b);
    }
  }

  lemma DropsNothing(s: State, e: Event, b: string)
    requires Possible(s, e) && !e.Shut? && !e.Worker?
    ensures Del(SessionKey(b)) in Next(s, e).db.pend ==> Del(SessionKey(b)) in s.db.pend
  {
    match e
    case Open(sid, w, auth, order) => OpenDropsNothing(s, sid, w, auth, order, b);
    case Submit(sid, p) => RouteDropsNothing(View(s, sid), p, b);
    case Ack(sid, id) => AckDropsNothing(View(s, sid), id, b);
    case Arrive(chan, p) =>
      NodeRouteDropsNothing(s.(dataCh := s.dataCh[chan := Hops(s, chan) - multiset{p}]), chan, p, b);
    case Expand(chan, p) => NodeRouteDropsNothing(s, chan, p, b);
    case _ =>
  }

  // ---------------------------------------------------------------- safety

  lemma {:induction false} LatestIsLast(tr: seq<State>, ev: seq<Event>, j: nat, b: string) returns (l: nat)
    requires IsRun(tr, ev) && j < |tr| && b in tr[j].latest
    ensures l < j && LogsInUnder(ev[l], tr[j].latest[b], b)
    ensures forall k :: l < k < j ==> !LoginOf(ev[k], b)
    decreases j
  {
    RunLatest(tr, ev, j, b);
    if LoginOf(ev[j - 1], b) {
      l := j - 1;
    } else {
      l := LatestIsLast(tr, ev, j - 1, b);
    }
  }

  lemma RunLatest(tr: seq<State>, ev: seq<Event>, j: nat, b: string)
    requires IsRun(tr, ev) && j < |tr| && b in tr[j].latest
    ensures j > 0
    ensures if LoginOf(ev[j - 1], b) then tr[j].latest[b] == ev[j - 1].sid
            else b in tr[j - 1].latest && tr[j].latest[b] == tr[j - 1].latest[b]
  {
    if j > 0 {
      NextLatest(tr, ev, j - 1, b);
    }
  }

  lemma NextLatest(tr: seq<State>, ev: seq<Event>, k: nat, b: string)
    requires IsRun(tr, ev) && k < |ev| && b in tr[k + 1].latest
    ensures if LoginOf(ev[k], b) then tr[k + 1].latest[b] == ev[k].sid
            else b in tr[k].latest && tr[k + 1].latest[b] == tr[k].latest[b]
  {
    var s, e := tr[k], ev[k];
    RunStep(tr, ev, k);
    StepLatest(s, e, b);
  }

  /**
   Registry safety: in every reachable state an entry names the session that logged in last under its
   address, and if that session is closed a delete of the entry is queued or in a worker's hand.
   */
  lemma RegistrySafety(tr: seq<State>, ev: seq<Event>, j: nat, b: string, sid: string) returns (l: nat)
    requires IsRun(tr, ev) && j < |tr| && Names(tr[j], b, sid)
    ensures l < j && LogsInUnder(ev[l], sid, b) && forall k :: l < k < j ==> !LoginOf(ev[k], b)
    ensures Serves(tr[j], sid, Some(b))
    ensures Del(SessionKey(b)) !in tr[j].db.pend ==> tr[j].sess[sid].status.Login?
  {
    NamedIsLatest(tr, ev, j, b, sid);
    l := LatestIsLast(tr, ev, j, b);
  }

  lemma NamedIsLatest(tr: seq<State>, ev: seq<Event>, j: nat, b: string, sid: string)
    requires IsRun(tr, ev) && j < |tr| && Names(tr[j], b, sid)
    ensures b in tr[j].latest && tr[j].latest[b] == sid && Serves(tr[j], sid, Some(b))
    ensures Del(SessionKey(b)) !in tr[j].db.pend ==> tr[j].sess[sid].status.Login?
  {
    var s := tr[j];
    RunInv(tr, ev, j);
    assert EntryOk(s, b);
  }

  // ---------------------------------------------------------------- completeness

  lemma RunEntry(tr: seq<State>, ev: seq<Event>, k: nat, b: string)
    requires IsRun(tr, ev) && k < |ev|
    ensures LoginOf(ev[k], b) ==> Names(tr[k + 1], b, ev[k].sid)
    ensures ev[k] == Write(Del(SessionKey(b))) ==> SessionKey(b) !in tr[k + 1].db.store
    ensures !LoginOf(ev[k], b) && ev[k] != Write(Del(SessionKey(b))) ==>
              SameOn(tr[k].db.store, tr[k + 1].db.store, SessionKey(b))
  {
    var s, e := tr[k], ev[k];
    RunInv(tr, ev, k);
    RunStep(tr, ev, k);
    StepEntry(s, e, b);
  }

  /** The latest session of an address is named if and only if no delete of the entry ran after its login. */
  lemma {:induction false} NamedIff(tr: seq<State>, ev: seq<Event>, l: nat, j: nat, sid: string, b: string)
    requires IsRun(tr, ev) && l < j < |tr| && LogsInUnder(ev[l], sid, b)
    requires forall k :: l < k < j ==> !LoginOf(ev[k], b)
    ensures Names(tr[j], b, sid) <==> forall k :: l < k < j ==> ev[k] != Write(Del(SessionKey(b)))
    ensures !Names(tr[j], b, sid) ==> SessionKey(b) !in tr[j].db.store
    decreases j
  {
    RunEntry(tr, ev, j - 1, b);
    if l < j - 1 {
      NamedIff(tr, ev, l, j - 1, sid, b);
      assert !LoginOf(ev[j - 1], b);
    } else {
      assert LoginOf(ev[l], b);
    }
  }

  lemma {:induction false} DropProvenance(tr: seq<State>, ev: seq<Event>, j: nat, b: string) returns (c: nat, x: string)
    requires IsRun(tr, ev) && j < |tr| && Del(SessionKey(b)) in tr[j].db.pend
    ensures c < j && ClosesUnder(tr[c], tr[c + 1], x, b)
    decreases j
  {
    if j == 0 {
      StartIsDrained(tr, ev);
    } else if Del(SessionKey(b)) in tr[j - 1].db.pend {
      c, x := DropProvenance(tr, ev, j - 1, b);
    } else {
      x := RunDrop(tr, ev, j - 1, b);
      c := j - 1;
    }
  }

  lemma RunDrop(tr: seq<State>, ev: seq<Event>, k: nat, b: string) returns (x: string)
    requires IsRun(tr, ev) && k < |ev|
    requires Del(SessionKey(b)) in tr[k + 1].db.pend && Del(SessionKey(b)) !in tr[k].db.pend
    ensures ClosesUnder(tr[k], tr[k + 1], x, b)
  {
    var s, e := tr[k], ev[k];
    RunStep(tr, ev, k);
    RunInv(tr, ev, k);
    x := StepDrop(s, e, b);
  }

  /**
   Registry completeness: a logged-in session that logged in last under its address is missing from the
   registry only because a delete ran after its login, and that delete was queued by the close of another
   session of the same address.
   */
  lemma MissingBecause(tr: seq<State>, ev: seq<Event>, l: nat, j: nat, sid: string, b: string)
    returns (d: nat, c: nat, x: string)
    requires IsRun(tr, ev) && l < j < |tr| && LogsInUnder(ev[l], sid, b)
    requires forall k :: l < k < j ==> !LoginOf(ev[k], b)
    requires sid in tr[j].sess && tr[j].sess[sid].status.Login? && !Names(tr[j], b, sid)
    ensures l < d < j && ev[d] == Write(Del(SessionKey(b)))
    ensures c < d && x != sid && ClosesUnder(tr[c], tr[c + 1], x, b)
  {
    NamedIff(tr, ev, l, j, sid, b);
    d :| l < d < j && ev[d] == Write(Del(SessionKey(b)));
    RunStep(tr, ev, d);
    c, x := DropProvenance(tr, ev, d, b);
    Lifecycle(tr, ev, c + 1, j, x);
  }

  /** No delete of the entry is under way and no session of the address but `sid` is logged in. */
  ghost predicate Undisturbed(s: State, b: string, sid: string)
  {
    && Del(SessionKey(b)) !in s.db.pend
    && forall x :: x in s.sess && x != sid && BareOf(s.sess[x].jid) == Some(b) ==> !s.sess[x].status.Login?
  }

  lemma StillUndisturbed(s: State, e: Event, b: string, sid: string)
    requires Inv(s) && Enabled(s, e) && Undisturbed(s, b, sid)
    requires LoginOf(e, b) ==> e.sid == sid
    requires sid in Next(s, e).sess && !Next(s, e).sess[sid].status.Close?
    ensures Undisturbed(Next(s, e), b, sid)
  {
    var t := Next(s, e);
    if Del(SessionKey(b)) in t.db.pend {
      var x := StepDrop(s, e, b);
    }
    forall x | x in t.sess && x != sid && BareOf(t.sess[x].jid) == Some(b) ensures !t.sess[x].status.Login? {
      if x in s.sess {
        StepLifecycle(s, e, x);
        if s.sess[x].status.Conn? { OnlyOpenLogsIn(s, e, x); }
      } else {
        NewIsConnected(s, e, x);
      }
    }
  }

  lemma OnlyOpenLogsIn(s: State, e: Event, x: string)
    requires Enabled(s, e) && x in s.sess && s.sess[x].status.Conn? && x in Next(s, e).sess
    ensures Next(s, e).sess[x].status.Login? ==> LogsInUnder(e, x, Addr(Next(s, e).sess[x].jid))
  {
    match e
    case Open(sid, w, auth, order) => OpenedLogsIn(s, sid, w, auth, order, x);
    case Ack(sid, id) => AckKeepsStatus(s, sid, id, x);
    case Shut(sid) => CloseAtLogsNobodyIn(s, sid, x);
    case Worker(chan, it, rpcOk) => WorkLogsNobodyIn(s, chan, it, rpcOk, x);
    case Submit(sid, p) => DeliveredKeepsStatus(s, sid, p, x);
    case _ => OtherStepsKeepStatus(s, e, x);
  }

  lemma OpenedLogsIn(s: State, sid: string, w: Wire, auth: bool, order: seq<Key>, x: string)
    requires Enabled(s, Open(sid, w, auth, order)) && x in s.sess && s.sess[x].status.Conn?
    ensures var t := Opened(s, sid, w, auth, order);
            x in t.sess && (t.sess[x].status.Login? ==> LogsInUnder(Open(sid, w, auth, order), x, Addr(t.sess[x].jid)))
  {
  }

  lemma AckKeepsStatus(s: State, sid: string, id: string, x: string)
    requires sid in s.sess && x in s.sess
    ensures var t := AckAt(s, sid, id); x in t.sess && t.sess[x].status == s.sess[x].status
  {
  }

  lemma OtherStepsKeepStatus(s: State, e: Event, x: string)
    requires Enabled(s, e) && x in s.sess
    requires !e.Open? && !e.Ack? && !e.Shut? && !e.Worker? && !e.Submit?
    ensures x in Next(s, e).sess && Next(s, e).sess[x].status == s.sess[x].status
  {
    match e
    case Arrive(chan, p) => NodeRouteLife(s.(dataCh := s.dataCh[chan := Hops(s, chan) - multiset{p}]), chan, p);
    case Expand(chan, p) => NodeRouteLife(s, chan, p);
    case _ =>
  }

  lemma DeliveredKeepsStatus(s: State, sid: string, p: Packet, x: string)
    requires sid in s.sess && x in s.sess
    ensures var t := Delivered(s, sid, p); x in t.sess && t.sess[x].status == s.sess[x].status
    ensures var t := Submitted(s, sid, p); x in t.sess && t.sess[x].status == s.sess[x].status
  {
    RouteKeepsStatus(View(s, sid), p);
  }

  lemma CloseAtLogsNobodyIn(s: State, sid: string, x: string)
    requires sid in s.sess && x in s.sess && s.sess[x].status.Conn?
    ensures x in CloseAt(s, sid).sess && !CloseAt(s, sid).sess[x].status.Login?
  {
  }

  lemma WorkOnLogsNobodyIn(s: State, chan: string, it: Item, p: Packet, rpcOk: bool, x: string)
    requires x in s.sess && s.sess[x].status.Conn?
    ensures x in WorkOn(s, chan, it, p, rpcOk).sess && !WorkOn(s, chan, it, p, rpcOk).sess[x].status.Login?
  {
    if Local(chan, it) && Found(s, chan, it.sid) { DeliveredKeepsStatus(s, it.sid, p, x); }
  }

  lemma WorkLogsNobodyIn(s: State, chan: string, it: Item, rpcOk: bool, x: string)
    requires x in s.sess && s.sess[x].status.Conn?
    ensures x in Work(s, chan, it, rpcOk).sess && !Work(s, chan, it, rpcOk).sess[x].status.Login?
  {
    var s1 := Taken(s, chan, it);
    match it.pkt
    case None =>
      if Found(s1, chan, it.sid) { CloseAtLogsNobodyIn(s1, it.sid, x); }
    case Some(p) => WorkOnLogsNobodyIn(s1, chan, it, p, rpcOk, x);
  }

  lemma NewIsConnected(s: State, e: Event, x: string)
    requires Enabled(s, e) && x !in s.sess && x in Next(s, e).sess
    ensures e.Accept? && Next(s, e).sess[x].status.Conn?
  {
    match e
    case Arrive(chan, p) => NodeRouteLife(s.(dataCh := s.dataCh[chan := Hops(s, chan) - multiset{p}]), chan, p);
    case Expand(chan, p) => NodeRouteLife(s, chan, p);
    case Worker(chan, it, rpcOk) => WorkAddsNobody(s, chan, it, rpcOk, x);
    case Open(sid, w, auth, order) => OpenAddsNobody(s, sid, w, auth, order, x);
    case Submit(sid, p) => SubmitAddsNobody(s, sid, p, x);
    case Ack(sid, id) => AckAddsNobody(s, sid, id, x);
    case Shut(sid) => CloseAddsNobody(s, sid, x);
    case Accept(_, _, _) =>
    case Register(_) =>
    case Clean(_) =>
    case Push(_, _) =>
    case Write(_) =>
    case Expire(_) =>
  }

  lemma OpenAddsNobody(s: State, sid: string, w: Wire, auth: bool, order: seq<Key>, x: string)
    requires sid in s.sess && OrderFits(s.db.store, w, order)
    ensures x in Opened(s, sid, w, auth, order).sess ==> x in s.sess
  {
  }

  lemma SubmitAddsNobody(s: State, sid: string, p: Packet, x: string)
    requires sid in s.sess
    ensures x in Submitted(s, sid, p).sess ==> x in s.sess
  {
  }

  lemma AckAddsNobody(s: State, sid: string, id: string, x: string)
    requires sid in s.sess
    ensures x in AckAt(s, sid, id).sess ==> x in s.sess
  {
  }

  lemma CloseAddsNobody(s: State, sid: string, x: string)
    requires sid in s.sess
    ensures x in CloseAt(s, sid).sess ==> x in s.sess
  {
  }

  lemma WorkAddsNobody(s: State, chan: string, it: Item, rpcOk: bool, x: string)
    ensures x in Work(s, chan, it, rpcOk).sess ==> x in s.sess
  {
    var s1 := Taken(s, chan, it);
    match it.pkt
    case None => if Found(s1, chan, it.sid) { CloseAddsNobody(s1, it.sid, x); }
    case Some(p) => WorkOnAddsNobody(s1, chan, it, p, rpcOk, x);
  }

  lemma WorkOnAddsNobody(s: State, chan: string, it: Item, p: Packet, rpcOk: bool, x: string)
    ensures x in WorkOn(s, chan, it, p, rpcOk).sess ==> x in s.sess
  {
    if Found(s, chan, it.sid) { DeliveredAddsNobody(s, it.sid, p, x); }
  }

  lemma DeliveredAddsNobody(s: State, sid: string, p: Packet, x: string)
    requires sid in s.sess
    ensures x in Delivered(s, sid, p).sess ==> x in s.sess
  {
  }
}
