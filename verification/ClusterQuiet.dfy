/** Exactly when the registry names a session for as long as it is logged in. */
module ClusterQuiet {
  import opened Options
  import opened Keys
  import opened Packets
  import opened Redis
  import opened Sessions
  import opened Cluster
  import opened ClusterInv
  import opened ClusterEvents
  import opened ClusterRuns
  import opened ClusterRegistry
  import opened ClusterNames
  import opened ClusterPaths
  import opened ClusterDelivery

  ghost predicate NoLogin(ev: seq<Event>, b: string)
  {
    forall k :: 0 <= k < |ev| ==> !LoginOf(ev[k], b)
  }

  /** Whatever happens, until the next login of `b`, the registry names `sid` while `sid` is logged in. */
  ghost predicate NamedWhileLoggedIn(s: State, b: string, sid: string)
  {
    forall ev, t :: Leads(s, ev, t, true) && NoLogin(ev, b) && LoggedIn(t, sid) ==> Names(t, b, sid)
  }

  ghost predicate LoggedIn(s: State, sid: string)
  {
    sid in s.sess && s.sess[sid].status.Login?
  }

  // ---------------------------------------------------------------- an undisturbed login is named

  lemma {:induction false} NeverReopens(s: State, ev: seq<Event>, t: State, sid: string)
    requires Inv(s) && Leads(s, ev, t, true) && sid in s.sess
    ensures sid in t.sess && (s.sess[sid].status.Close? ==> t.sess[sid].status.Close?)
    decreases |ev|
  {
    if ev != [] {
      NextOk(s, ev[0]);
      StepLifecycle(s, ev[0], sid);
      NeverReopens(Next(s, ev[0]), ev[1..], t, sid);
    }
  }

  /** One step, while the session stays open. */
  lemma QuietStep(s: State, e: Event, b: string, sid: string)
    requires Inv(s) && Enabled(s, e) && !LoginOf(e, b) && Undisturbed(s, b, sid) && Names(s, b, sid)
    requires sid in Next(s, e).sess && !Next(s, e).sess[sid].status.Close?
    ensures Undisturbed(Next(s, e), b, sid) && Names(Next(s, e), b, sid)
  {
    StillUndisturbed(s, e, b, sid);
    StepEntry(s, e, b);
  }

  lemma {:induction false} QuietStays(s: State, ev: seq<Event>, t: State, b: string, sid: string)
    requires Inv(s) && Leads(s, ev, t, true) && NoLogin(ev, b) && sid in s.sess && LoggedIn(t, sid)
    requires Undisturbed(s, b, sid) && Names(s, b, sid)
    ensures Names(t, b, sid)
    decreases |ev|
  {
    if ev != [] {
      var e, rest := ev[0], ev[1..];
      NoLoginRest(ev, b);
      QuietFirst(s, e, rest, t, b, sid);
      QuietStays(Next(s, e), rest, t, b, sid);
    }
  }

  lemma NoLoginRest(ev: seq<Event>, b: string)
    requires ev != [] && NoLogin(ev, b)
    ensures !LoginOf(ev[0], b) && NoLogin(ev[1..], b)
  {
  }

  lemma QuietFirst(s: State, e: Event, rest: seq<Event>, t: State, b: string, sid: string)
    requires Inv(s) && Enabled(s, e) && Leads(Next(s, e), rest, t, true) && !LoginOf(e, b) && sid in s.sess
    requires LoggedIn(t, sid)
    requires Undisturbed(s, b, sid) && Names(s, b, sid)
    ensures Inv(Next(s, e)) && sid in Next(s, e).sess && Undisturbed(Next(s, e), b, sid) && Names(Next(s, e), b, sid)
  {
    NextOk(s, e);
    StepLifecycle(s, e, sid);
    NeverReopens(Next(s, e), rest, t, sid);
    QuietStep(s, e, b, sid);
  }

  // ---------------------------------------------------------------- a disturbed one can lose its entry

  /** The session is logged in under the address. */
  ghost predicate LoggedAs(s: State, sid: string, b: string)
  {
    LoggedIn(s, sid) && BareOf(s.sess[sid].jid) == Some(b)
  }

  lemma LoginIs(s: State, e: Event, b: string)
    requires e.Open? && Enabled(s, e) && LogsInUnder(e, e.sid, b)
    ensures Next(s, e).db.pend == s.db.pend && LoggedAs(Next(s, e), e.sid, b)
  {
    OpenAnswers(View(s, e.sid), e.w, e.auth, e.order);
    OpenPend(View(s, e.sid), e.w, e.auth, e.order);
  }

  lemma OpenPend(c: Ctx, w: Wire, auth: bool, order: seq<Key>)
    requires OrderFits(c.db.store, w, order) && Verify(w, auth).None?
    ensures OpenSession(c, w, auth, order).db.pend == c.db.pend
  {
    KickKeeps(c, w);
  }

  /** What a login leaves of the other sessions. */
  lemma LoginKeeps(s: State, e: Event, x: string)
    requires e.Open? && Enabled(s, e) && x in s.sess && x != e.sid
    ensures Next(s, e).table == s.table && x in Next(s, e).sess && Next(s, e).sess[x] == s.sess[x]
  {
    OpenedRest(s, e.sid, e.w, e.auth, e.order);
    OpenedOthers(s, e.sid, e.w, e.auth, e.order, x);
  }

  lemma OpenedOthers(s: State, sid: string, w: Wire, auth: bool, order: seq<Key>, x: string)
    requires sid in s.sess && OrderFits(s.db.store, w, order) && x in s.sess && x != sid
    ensures x in Opened(s, sid, w, auth, order).sess && Opened(s, sid, w, auth, order).sess[x] == s.sess[x]
  {
  }

  lemma DeleteUnnames(s: State, b: string, sid: string)
    requires Del(SessionKey(b)) in s.db.pend && LoggedAs(s, sid, b)
    ensures var t := Next(s, Write(Del(SessionKey(b))));
            Leads(s, [Write(Del(SessionKey(b)))], t, true) && LoggedAs(t, sid, b) && SessionKey(b) !in t.db.store
  {
    LeadsOne(s, Write(Del(SessionKey(b))), true);
  }

  lemma CloseDropsEntry(s: State, x: string, b: string, sid: string)
    requires LoggedAs(s, x, b) && LoggedAs(s, sid, b) && sid != x
    ensures Del(SessionKey(b)) in CloseAt(s, x).db.pend && LoggedAs(CloseAt(s, x), sid, b)
  {
    assert Del(SessionKey(b)) in DropCmds(s.sess[x]);
  }

  /** The close of one session of an address evicts the other. */
  lemma ShutEvicts(s: State, x: string, b: string, sid: string) returns (ev: seq<Event>, t: State)
    requires LoggedAs(s, x, b) && LoggedAs(s, sid, b) && sid != x
    ensures Leads(s, ev, t, true) && NoLogin(ev, b) && LoggedAs(t, sid, b) && SessionKey(b) !in t.db.store
  {
    var s1, delete := CloseAt(s, x), Write(Del(SessionKey(b)));
    CloseDropsEntry(s, x, b, sid);
    DeleteUnnames(s1, b, sid);
    t := Next(s1, delete);
    LeadsThen(s, Shut(x), [delete], t, true);
    ev := [Shut(x)] + [delete];
  }

  /** With a delete under way, or another session of the address logged in, steps lead to a state in which the
      session is logged in and its address has no entry. */
  lemma DisturbedIsEvicted(s: State, e: Event, b: string) returns (ev: seq<Event>, t: State)
    requires e.Open? && Enabled(s, e) && LogsInUnder(e, e.sid, b) && !Undisturbed(s, b, e.sid)
    ensures Leads(Next(s, e), ev, t, true) && NoLogin(ev, b) && LoggedAs(t, e.sid, b) && SessionKey(b) !in t.db.store
  {
    var s1, delete := Next(s, e), Write(Del(SessionKey(b)));
    LoginIs(s, e, b);
    if Del(SessionKey(b)) in s.db.pend {
      DeleteUnnames(s1, b, e.sid);
      ev, t := [delete], Next(s1, delete);
    } else {
      var x :| x in s.sess && x != e.sid && BareOf(s.sess[x].jid) == Some(b) && s.sess[x].status.Login?;
      LoginKeeps(s, e, x);
      ev, t := ShutEvicts(s1, x, b, e.sid);
    }
  }

  /**
   Registry completeness, exactly: at the moment of a login, no delete of the entry under way and no other
   session of the address logged in is what it takes, and no less, for the registry to name the session for
   as long as it is logged in, until the next login of the address.
   */
  lemma QuietIff(s: State, e: Event, b: string)
    requires Inv(s) && e.Open? && Enabled(s, e) && LogsInUnder(e, e.sid, b)
    ensures Undisturbed(s, b, e.sid) <==> NamedWhileLoggedIn(Next(s, e), b, e.sid)
  {
    var s1 := Next(s, e);
    LoginIs(s, e, b);
    if Undisturbed(s, b, e.sid) {
      NextOk(s, e);
      StillUndisturbed(s, e, b, e.sid);
      StepEntry(s, e, b);
      forall ev, t | Leads(s1, ev, t, true) && NoLogin(ev, b) && LoggedIn(t, e.sid) ensures Names(t, b, e.sid) {
        QuietStays(s1, ev, t, b, e.sid);
      }
    } else {
      var ev, t := DisturbedIsEvicted(s, e, b);
      assert !Names(t, b, e.sid);
    }
  }

  /** The same at every login of every run. */
  lemma RunQuietIff(tr: seq<State>, ev: seq<Event>, l: nat, sid: string, b: string)
    requires IsRun(tr, ev) && l < |ev| && LogsInUnder(ev[l], sid, b)
    ensures Undisturbed(tr[l], b, sid) <==> NamedWhileLoggedIn(tr[l + 1], b, sid)
  {
    var s, e := tr[l], ev[l];
    RunInv(tr, ev, l);
    RunStep(tr, ev, l);
    QuietIff(s, e, b);
  }

  // ---------------------------------------------------------------- the ordinary way there

  lemma KillDrops(s: State, chan: string, it: Item, rpcOk: bool, b: string, sid: string)
    requires it in Queue(s, chan) && it.pkt.None? && it.signal == KILL && Local(chan, it) && Found(s, chan, it.sid)
    requires LoggedAs(s, it.sid, b) && LoggedAs(s, sid, b) && sid != it.sid
    ensures Enabled(s, Worker(chan, it, rpcOk))
    ensures var t := Next(s, Worker(chan, it, rpcOk)); Del(SessionKey(b)) in t.db.pend && LoggedAs(t, sid, b)
  {
    CloseDropsEntry(Taken(s, chan, it), it.sid, b, sid);
  }

  lemma KillEvicts(s: State, chan: string, it: Item, rpcOk: bool, b: string, sid: string) returns (t: State)
    requires it in Queue(s, chan) && it.pkt.None? && it.signal == KILL && Local(chan, it) && Found(s, chan, it.sid)
    requires LoggedAs(s, it.sid, b) && LoggedAs(s, sid, b) && sid != it.sid
    ensures Leads(s, [Worker(chan, it, rpcOk), Write(Del(SessionKey(b)))], t, true)
    ensures LoggedAs(t, sid, b) && SessionKey(b) !in t.db.store
  {
    var work, delete := Worker(chan, it, rpcOk), Write(Del(SessionKey(b)));
    KillDrops(s, chan, it, rpcOk, b, sid);
    DeleteUnnames(Next(s, work), b, sid);
    t := Next(Next(s, work), delete);
    LeadsThen(s, work, [delete], t, true);
    assert [work] + [delete] == [work, delete];
  }

  /** The kick of the previous session, carried out: its own delete removes the entry of the new session. */
  lemma KickEvicts(s: State, e: Event, b: string, x: string, rpcOk: bool) returns (ev: seq<Event>, t: State)
    requires RegistryOk(s) && e.Open? && Enabled(s, e) && LogsInUnder(e, e.sid, b)
    requires x != e.sid && Names(s, b, x) && LoggedIn(s, x) && Found(s, s.sess[e.sid].chan, x)
    requires |Queue(s, s.sess[e.sid].chan)| < ROUTER_QUEUE_SIZE
    ensures ev == [e, Worker(s.sess[e.sid].chan, Item(s.sess[x].chan, x, None, KILL), rpcOk), Write(Del(SessionKey(b)))]
    ensures Leads(s, ev, t, true) && LoggedAs(t, e.sid, b) && SessionKey(b) !in t.db.store
  {
    var chan := s.sess[e.sid].chan;
    var it := Item(s.sess[x].chan, x, None, KILL);
    assert EntryOk(s, b);
    LoginKicksPrevious(s, e, x);
    LoginKeeps(s, e, x);
    LoginIs(s, e, b);
    t := KillEvicts(Next(s, e), chan, it, rpcOk, b, e.sid);
    var rest := [Worker(chan, it, rpcOk), Write(Del(SessionKey(b)))];
    LeadsThen(s, e, rest, t, true);
    ev := [e] + rest;
  }

  /** Two connections to a node, the first of them in its table. */
  ghost predicate TwoConnected(s: State, chan: string)
  {
    && "1" in s.sess && s.sess["1"].status.Conn? && s.sess["1"].chan == chan && "1" in s.table
    && "2" in s.sess && s.sess["2"].status.Conn? && s.sess["2"].chan == chan
  }

  lemma TwoConnect(s: State, chan: string, nodeid: string) returns (ev: seq<Event>, t: State)
    requires Start(s)
    ensures Leads(s, ev, t, true) && TwoConnected(t, chan) && t.db == s.db && Queue(t, chan) == multiset{}
  {
    var a, r, c := Accept("1", chan, nodeid), Register("1"), Accept("2", chan, nodeid);
    var s1 := Next(s, a);
    var s2 := Next(s1, r);
    t := Next(s2, c);
    LeadsTwo(s1, r, c);
    LeadsThen(s, a, [r, c], t, true);
    ev := [a] + [r, c];
  }

  /** The first login of an address without an entry. */
  lemma FirstLogin(s: State, e: Event, b: string, chan: string)
    requires Inv(s) && TwoConnected(s, chan) && Queue(s, chan) == multiset{} && SessionKey(b) !in s.db.store
    requires e.Open? && Enabled(s, e) && LogsInUnder(e, "1", b)
    ensures var t := Next(s, e);
            && Inv(t) && Names(t, b, "1") && LoggedIn(t, "1") && Found(t, chan, "1")
            && "2" in t.sess && t.sess["2"].status.Conn? && t.sess["2"].chan == chan && Queue(t, chan) == multiset{}
  {
    NextOk(s, e);
    StepEntry(s, e, b);
    LoginIs(s, e, b);
    LoginKeeps(s, e, "2");
    StepLifecycle(s, e, "1");
    OpenAsksNobody(View(s, "1"), e.w, e.auth, e.order);
    BackIs(s, "1", OpenSession(View(s, "1"), e.w, e.auth, e.order), chan);
  }

  lemma OpenAsksNobody(c: Ctx, w: Wire, auth: bool, order: seq<Key>)
    requires OrderFits(c.db.store, w, order) && (w.Msg? ==> SessionKey(Addr(w.p.jid)) !in c.db.store)
    ensures OpenSession(c, w, auth, order).routeQ == c.routeQ
  {
  }

  /**
   And every start leads there: two connections to a node log in under one address, the first is kicked and
   its delete runs. The second is then logged in and has no entry.
   */
  lemma EvictionHappens(s: State, chan: string, nodeid: string, p: Packet) returns (ev: seq<Event>, t: State)
    requires Start(s) && p.mtype == MSG_TYPE_OPEN_SESSION && BareOf(p.jid).Some?
    ensures Leads(s, ev, t, true) && LoggedAs(t, "2", Addr(p.jid)) && SessionKey(Addr(p.jid)) !in t.db.store
  {
    var b, w := Addr(p.jid), Msg(p);
    StartOk(s);
    var first, m := TwoConnect(s, chan, nodeid);
    LeadsInv(s, first, m);
    var e := Open("1", w, true, AnyListing(m.db.store, w));
    FirstLogin(m, e, b, chan);
    var m1 := Next(m, e);
    var last;
    last, t := KickEvicts(m1, Open("2", w, true, AnyListing(m1.db.store, w)), b, "1", true);
    LeadsThen(m, e, last, t, true);
    LeadsOn(s, first, m, [e] + last, t, true);
    ev := first + ([e] + last);
  }
}
