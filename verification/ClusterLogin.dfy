/** What a first packet does in the cluster: who gets in, what is told, and what is handed out. */
module ClusterLogin {
  import opened Options
  import opened Keys
  import opened Packets
  import opened Redis
  import opened Sessions
  import opened SessionLaws
  import opened Cluster
  import opened ClusterInv
  import opened ClusterFates

  /** The first packet of a connection is accepted. */
  predicate Credentials(w: Wire, auth: bool)
  {
    w.Msg? && w.p.mtype == MSG_TYPE_OPEN_SESSION && '@' in w.p.jid && auth
  }

  lemma OpenedSession(s: State, sid: string, w: Wire, auth: bool, order: seq<Key>)
    requires sid in s.sess && OrderFits(s.db.store, w, order)
    ensures var t, r := Opened(s, sid, w, auth, order), OpenSession(View(s, sid), w, auth, order);
            sid in t.sess && t.sess[sid] == r.me && t.db == r.db
  {
  }

  /** A session is logged in by an open-session packet with an address that parses and the right password, and by
      nothing else. */
  lemma LoginStepIff(s: State, e: Event)
    requires e.Open? && Enabled(s, e)
    ensures e.sid in Next(s, e).sess
    ensures Next(s, e).sess[e.sid].status.Login? <==>
            e.w.Msg? && e.w.p.mtype == MSG_TYPE_OPEN_SESSION && '@' in e.w.p.jid && e.auth
  {
    OpenedSession(s, e.sid, e.w, e.auth, e.order);
    LoginIff(View(s, e.sid), e.w, e.auth, e.order);
  }

  /** Any other first packet closes the session with one answer; registry, store and history of logins stay. */
  lemma RefusedStep(s: State, e: Event)
    requires e.Open? && Enabled(s, e) && !Credentials(e.w, e.auth)
    ensures var t := Next(s, e);
            && e.sid in t.sess && t.sess[e.sid] == s.sess[e.sid].(status := Close)
            && t.db.store == s.db.store && t.latest == s.latest
    ensures OpenSession(View(s, e.sid), e.w, e.auth, e.order).out == [AuthFail(Reason(e.w))]
  {
    OpenedSession(s, e.sid, e.w, e.auth, e.order);
    LoginIff(View(s, e.sid), e.w, e.auth, e.order);
    RefusedIs(View(s, e.sid), e.w, e.auth, e.order);
    RefusedLatest(s, e.sid, e.w, e.auth, e.order);
  }

  lemma RefusedLatest(s: State, sid: string, w: Wire, auth: bool, order: seq<Key>)
    requires sid in s.sess && OrderFits(s.db.store, w, order)
    ensures Credentials(w, auth) <==> Verify(w, auth).None?
    ensures Opened(s, sid, w, auth, order).latest ==
            if Credentials(w, auth) then s.latest[Addr(w.p.jid) := sid] else s.latest
  {
    if w.Msg? { ParsesIfAt(w.p.jid); }
  }

  // ---------------------------------------------------------------- each packet once

  lemma OneHolder(s: State, b: string, p: Packet)
    requires IdsOk(s) && IndexOk(s)
    ensures var fields := Fields(s.db.store, OfflineIdx(b));
            Holders(fields, p) == if InIndexOf(s, p) && BareOf(p.to) == Some(b) then {IdKey(p.id)} else {}
  {
    var fields := Fields(s.db.store, OfflineIdx(b));
    forall k | k in Holders(fields, p) ensures k == IdKey(p.id) && BareOf(p.to) == Some(b) {
      assert FieldOk(s, b, k);
    }
  }

  /** A login answer lists every packet of the recipient's offline index exactly once, and nothing else. */
  lemma ListedOnce(s: State, e: Event) returns (pks: seq<Packet>)
    requires IdsOk(s) && IndexOk(s) && e.Open? && Enabled(s, e) && Credentials(e.w, e.auth)
    ensures OpenSession(View(s, e.sid), e.w, e.auth, e.order).out == [AuthOk(e.w.p.id, pks)]
    ensures forall p :: multiset(pks)[p] == if InIndexOf(s, p) && BareOf(p.to) == BareOf(e.w.p.jid) then 1 else 0
  {
    var ids;
    pks, ids := AnswerLists(View(s, e.sid), e.w, e.auth, e.order);
    ParsesIfAt(e.w.p.jid);
    forall p ensures multiset(pks)[p] == if InIndexOf(s, p) && BareOf(p.to) == BareOf(e.w.p.jid) then 1 else 0 {
      OneHolder(s, Addr(e.w.p.jid), p);
    }
  }
}
