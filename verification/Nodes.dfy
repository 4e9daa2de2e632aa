/** A node: its session table, the clean loop, the router worker and the shutdown (node/). */
module Nodes {
  import opened Options
  import opened Keys
  import opened Packets
  import opened Redis
  import opened Database
  import opened Sessions
  import opened SessionLaws
  import opened Services
  import opened SessionObjects
  import Groups

  // ---------------------------------------------------------------- what shutdown hands to the database

  /** What the close of one session queues. */
  function HandedBy(me: Sess): (r: multiset<Cmd>)
  {
    if me.status.Close? then multiset{} else DropCmds(me) + multiset(FlushCmds(me.buff))
  }

  function Handed(ss: seq<Sess>): (r: multiset<Cmd>)
  {
    if ss == [] then multiset{} else HandedBy(ss[0]) + Handed(ss[1..])
  }

  /** The sids that closing the sessions announces. */
  function Announced(ss: seq<Sess>): (r: multiset<string>)
  {
    if ss == [] then multiset{}
    else (if ss[0].status.Close? then multiset{} else multiset{ss[0].sid}) + Announced(ss[1..])
  }

  /** `ss` lists the sessions of a table, each once. */
  ghost predicate Lists(ss: seq<Sess>, table: map<string, Sess>)
  {
    && (forall i :: 0 <= i < |ss| ==> ss[i].sid in table && table[ss[i].sid] == ss[i])
    && (forall i, j :: 0 <= i < j < |ss| ==> ss[i].sid != ss[j].sid)
    && (forall k :: k in table ==> table[k] in ss)
  }

  // ---------------------------------------------------------------- routing in from outside

  /** Node.routePacket on the database and the queue. */
  function Dispatch(d: Db, q: multiset<Item>, p: Packet): (r: (Db, multiset<Item>))
  {
    if BareOf(p.to).None? then (d, q)
    else match Get(d.store, SessionKey(Owner(p)))
         case Some(v) => (d, Sessions.Route(q, PacketItem(v, p)))
         case None => (StorePacket(d, p), q)
  }

  function DispatchAll(d: Db, q: multiset<Item>, ps: seq<Packet>): (r: (Db, multiset<Item>))
    decreases |ps|
  {
    if ps == [] then (d, q)
    else
      var next := Dispatch(d, q, ps[0]);
      DispatchAll(next.0, next.1, ps[1..])
  }

  /** Every packet of the list is dispatched, in order: `ds[k]` is the database and the queue before the packet `k`. */
  lemma {:induction false} AllAreDispatched(d: Db, q: multiset<Item>, ps: seq<Packet>)
    returns (ds: seq<(Db, multiset<Item>)>)
    ensures |ds| == |ps| + 1 && ds[0] == (d, q) && ds[|ps|] == DispatchAll(d, q, ps)
    ensures forall k :: 0 <= k < |ps| ==> ds[k + 1] == Dispatch(ds[k].0, ds[k].1, ps[k])
    decreases |ps|
  {
    if ps == [] {
      ds := [(d, q)];
    } else {
      var next := Dispatch(d, q, ps[0]);
      var rest := AllAreDispatched(next.0, next.1, ps[1..]);
      ds := [(d, q)] + rest;
    }
  }

  /** What becomes of one: ignored if its recipient does not parse, queued for the session the registry names if there
      is room, and stored otherwise. */
  lemma DispatchIs(d: Db, q: multiset<Item>, p: Packet, cmd: Cmd)
    ensures var r, entry := Dispatch(d, q, p), Get(d.store, SessionKey(Addr(p.to)));
            && r.0.store == d.store
            && r.0.pend[cmd] == d.pend[cmd] + (if '@' in p.to && entry.None? && StoresOne(cmd, p) then 1 else 0)
            && ('@' !in p.to || entry.None? ==> r.1 == q)
            && ('@' in p.to && entry.Some? && entry.value.StatusVal? ==>
                  var it := Item(entry.value.chan, entry.value.sid, Some(p), 0);
                  r.1 == if |q| < 100000 then q + multiset{it} else q)
  {
    ParsesIfAt(p.to);
  }

  /** Of the sessions of a table, exactly the open ones are announced, once each. */
  lemma {:induction false} AnnouncedAre(ss: seq<Sess>, x: string)
    requires forall i, j :: 0 <= i < j < |ss| ==> ss[i].sid != ss[j].sid
    ensures Announced(ss)[x] == if exists i :: 0 <= i < |ss| && ss[i].sid == x && !ss[i].status.Close? then 1 else 0
  {
    if ss != [] {
      var rest := ss[1..];
      AnnouncedAre(rest, x);
      assert forall i :: 0 <= i < |rest| ==> rest[i] == ss[i + 1];
      if i :| 0 <= i < |ss| && ss[i].sid == x && !ss[i].status.Close? {
        assert i > 0 ==> rest[i - 1] == ss[i];
      }
    }
  }

  class Node {
    const chan: string
    const db: SaraDatabase
    const cache: OfflineCache
    const router: Router
    const clean: CleanChannel
    var sessionMap: map<string, Session>
    var published: seq<(string, Packet)>

    constructor (chan: string, db: SaraDatabase, cache: OfflineCache)
      ensures Valid() && sessionMap == map[] && published == []
      ensures this.chan == chan && this.db == db && this.cache == cache && fresh(router) && fresh(clean)
    {
      this.chan, this.db, this.cache := chan, db, cache;
      router := new Router();
      clean := new CleanChannel();
      sessionMap, published := map[], [];
    }

    ghost predicate Owns(s: Session)
    {
      s.chan == chan && s.db == db && s.cache == cache && s.router == router && s.clean == clean
    }

    /** The table maps sids to sessions of this node, and only closed sessions announced themselves. */
    ghost predicate Valid()
      reads this, sessionMap.Values, router, clean
    {
      && router.Valid()
      && (forall k :: k in sessionMap ==>
            sessionMap[k].sid == k && k != "" && Owns(sessionMap[k]) && sessionMap[k].Valid())
      && (forall k :: k in clean.sids && k in sessionMap ==> sessionMap[k].status.Close?)
    }

    ghost function Table(): (r: map<string, Sess>)
      reads this, sessionMap.Values
    {
      map k | k in sessionMap :: sessionMap[k].Me()
    }

    method RegisterSession(s: Session)
      requires Valid() && Owns(s) && s.Valid() && (s.sid in clean.sids ==> s.status.Close?)
      modifies this`sessionMap
      ensures Valid()
      ensures sessionMap == if s.sid != "" then old(sessionMap)[s.sid := s] else old(sessionMap)
    {
      if s.sid != "" {
        sessionMap := sessionMap[s.sid := s];
      }
    }

    /** The clean loop, until the channel is empty: only closed sessions leave the table. */
    method Clean()
      requires Valid()
      modifies this`sessionMap, clean
      ensures Valid() && clean.sids == []
      ensures sessionMap == old(sessionMap) - set k | k in old(clean.sids)
      ensures forall k :: k in old(sessionMap) && k !in sessionMap ==> old(sessionMap)[k].status.Close?
    {
      while clean.sids != []
        invariant Valid() && sessionMap.Keys <= old(sessionMap).Keys
        invariant forall k :: k in clean.sids ==> k in old(clean.sids)
        invariant forall k :: k in sessionMap ==> sessionMap[k] == old(sessionMap)[k]
        invariant forall k :: k in old(sessionMap) && k !in sessionMap ==>
                    k in old(clean.sids) && old(sessionMap)[k].status.Close?
        invariant forall k :: k in old(clean.sids) ==> k in clean.sids || k !in sessionMap
        decreases |clean.sids|
      {
        var sid := clean.sids[0];
        assert clean.sids == [sid] + clean.sids[1..];
        clean.sids := clean.sids[1..];
        sessionMap := sessionMap - {sid};
      }
    }

    method RoutePacket(p: Packet)
      requires Valid()
      modifies db, router
      ensures Valid() && (db.Value(), router.Queue()) == Dispatch(old(db.Value()), old(router.Queue()), p)
    {
      if BareOf(p.to).Some? {
        var ss := db.Read(SessionKey(Owner(p)));
        match ss {
          case Some(v) =>
            var ok := router.Route(PacketItem(v, p));
          case None =>
            PutOffline(db, p);
        }
      }
    }

    /** dataChannelHandler on a text. A group packet whose sender does not parse dereferences nil. */
    method DataChannelHandler(p: Packet, cached: Option<string>, listed: Option<seq<string>>, uuid: nat -> string)
      returns (crashed: bool, ghost reply: Groups.Reply)
      requires Valid()
      modifies db, router
      ensures Valid() && (p.mtype == MSG_TYPE_GROUP_CHAT ==> Groups.Answers(NewPacket(p), cached, listed, uuid, reply))
      ensures crashed <==> p.mtype == MSG_TYPE_GROUP_CHAT && reply.Crashed?
      ensures (db.Value(), router.Queue()) ==
              DispatchAll(old(db.Value()), old(router.Queue()),
                          if p.mtype != MSG_TYPE_GROUP_CHAT then [p]
                          else if reply.Expanded? then Texts(reply.packets) else [])
    {
      crashed, reply := false, Groups.NotFound;
      if p.mtype == MSG_TYPE_GROUP_CHAT {
        var answer, put := Groups.GenerateGroupPackets(NewPacket(p), cached, listed, uuid);
        reply := answer;
        crashed := answer.Crashed?;
        if answer.Expanded? {
          RouteAll(Texts(answer.packets));
        }
      } else {
        RoutePacket(ToJson(NewPacket(p)));
        assert [p][1..] == [];
      }
    }

    method RouteAll(ps: seq<Packet>)
      requires Valid()
      modifies db, router
      ensures Valid() && (db.Value(), router.Queue()) == DispatchAll(old(db.Value()), old(router.Queue()), ps)
    {
      var i := 0;
      while i < |ps|
        invariant i <= |ps| && Valid()
        invariant DispatchAll(db.Value(), router.Queue(), ps[i..]) ==
                  DispatchAll(old(db.Value()), old(router.Queue()), ps)
      {
        RoutePacket(ps[i]);
        i := i + 1;
      }
    }

    /** What delivering an item to a session of this node does. */
    static function Served(c: Ctx, it: Item): (r: Ctx)
    {
      if it.signal == KILL then Sessions.Kill(c)
      else if it.signal != 0 || it.pkt.None? then c
      else Sessions.RoutePacket(c, it.pkt.value)
    }

    /** A kill signal kills, another signal is ignored, and a packet without one is routed in the session. */
    static lemma ServedIs(c: Ctx, it: Item)
      ensures it.signal == 3 ==> Served(c, it).me.status.Close? && Served(c, it).out == c.out + [KillSignal]
      ensures it.signal != 0 && it.signal != 3 ==> Served(c, it) == c
      ensures it.signal == 0 && it.pkt.Some? ==> Served(c, it) == Sessions.RoutePacket(c, it.pkt.value)
    {
      KillIs(c);
    }

    predicate Here(it: Item)
    {
      it.channel == "" || it.channel == chan
    }

    /** The worker's call on the session an item names. */
    method Serve(s: Session, it: Item)
      requires Valid() && s in sessionMap.Values
      modifies s, db, router, clean
      ensures Valid() && s.View() == Served(old(s.View()), it)
    {
      if it.signal != 0 {
        if it.signal == KILL {
          KillOne(s);
        }
      } else if it.pkt.Some? {
        RouteOne(s, it.pkt.value);
      }
    }

    method KillOne(s: Session)
      requires Valid() && s in sessionMap.Values
      modifies s, db, clean
      ensures Valid() && s.View() == Sessions.Kill(old(s.View()))
    {
      s.Kill();
    }

    method RouteOne(s: Session, p: Packet)
      requires Valid() && s in sessionMap.Values
      modifies s, db, router
      ensures Valid() && s.View() == Sessions.RoutePacket(old(s.View()), p)
    {
      ghost var was := s.status;
      s.RoutePacket(p);
      assert s.status == was by { RouteKeepsStatus(old(s.View()), p); }
    }

    /** An item for this node; without a packet and a signal it dereferences nil. */
    method WorkHere(it: Item) returns (crashed: bool)
      requires Valid() && Here(it)
      modifies sessionMap.Values, db, router, clean
      ensures Valid() && (crashed <==> it.pkt.None? && it.sid in sessionMap && it.signal == 0)
      ensures it.sid in sessionMap ==> sessionMap[it.sid].View() == Served(old(sessionMap[it.sid].View()), it)
      ensures it.sid !in sessionMap ==> db.Value() == old(db.Value()) && router.Queue() == old(router.Queue())
      ensures forall k :: k in sessionMap && k != it.sid ==> sessionMap[k].Me() == old(sessionMap[k].Me())
    {
      crashed := false;
      if it.sid in sessionMap {
        crashed := it.signal == 0 && it.pkt.None?;
        Serve(sessionMap[it.sid], it);
      }
    }

    /** An item for another node, with the result of the remote call; without a packet it dereferences nil. */
    method WorkAway(it: Item, rpcOk: bool) returns (crashed: bool)
      requires Valid() && !Here(it) && ItemOk(it)
      modifies this`published, db
      ensures Valid() && (crashed <==> it.pkt.None?)
      ensures published == old(published) + if it.pkt.Some? && rpcOk then [(it.channel, it.pkt.value)] else []
      ensures db.Value() ==
              if it.pkt.Some? && !rpcOk then StorePacket(old(db.Value()), it.pkt.value) else old(db.Value())
    {
      crashed := it.pkt.None?;
      if it.pkt.Some? {
        if rpcOk {
          published := published + [(it.channel, it.pkt.value)];
        } else {
          PutOffline(db, it.pkt.value);
        }
      }
    }

    /** What a worker does with an item it has taken. */
    method Process(it: Item, rpcOk: bool) returns (crashed: bool)
      requires Valid() && ItemOk(it)
      modifies this`published, sessionMap.Values, db, router, clean
      ensures Valid()
      ensures crashed <==> it.pkt.None? && (!Here(it) || (it.sid in sessionMap && it.signal == 0))
      ensures Here(it) && it.sid in sessionMap ==>
              sessionMap[it.sid].View() == Served(old(sessionMap[it.sid].View()), it)
      ensures forall k :: k in sessionMap && !(Here(it) && k == it.sid) ==>
                sessionMap[k].Me() == old(sessionMap[k].Me())
      ensures !Here(it) && it.pkt.Some? && rpcOk ==> published == old(published) + [(it.channel, it.pkt.value)]
      ensures !Here(it) && it.pkt.Some? && !rpcOk ==> db.Value() == StorePacket(old(db.Value()), it.pkt.value)
    {
      if it.channel == "" || it.channel == chan {
        crashed := WorkHere(it);
      } else {
        crashed := WorkAway(it, rpcOk);
      }
    }

    /** One round of the router worker takes the oldest item and serves it here or away. */
    method Work(rpcOk: bool) returns (it: Item, crashed: bool)
      requires Valid() && router.items != []
      modifies this`published, sessionMap.Values, db, router, clean
      ensures Valid() && it == old(router.items[0])
      ensures Here(it) <==> it.channel == "" || it.channel == chan
      ensures crashed <==> it.pkt.None? && (!Here(it) || (it.sid in sessionMap && it.signal == 0))
      ensures Here(it) && it.sid in sessionMap ==>
                sessionMap[it.sid].View() ==
                Served(old(sessionMap[router.items[0].sid].View()).(routeQ := old(router.Queue()) - multiset{it}), it)
      ensures forall k :: k in sessionMap && !(Here(it) && k == it.sid) ==>
                sessionMap[k].Me() == old(sessionMap[k].Me())
      ensures !Here(it) && it.pkt.Some? && rpcOk ==> published == old(published) + [(it.channel, it.pkt.value)]
      ensures !Here(it) && it.pkt.Some? && !rpcOk ==> db.Value() == StorePacket(old(db.Value()), it.pkt.value)
    {
      it := router.Receive();
      assert it.sid in sessionMap ==>
               sessionMap[it.sid].View() ==
               old(sessionMap[router.items[0].sid].View()).(routeQ := old(router.Queue()) - multiset{it});
      crashed := Process(it, rpcOk);
    }

    /** `slist` holds every session of the table once. */
    ghost predicate Listing(slist: seq<Session>)
      reads this
    {
      && (forall i :: 0 <= i < |slist| ==> slist[i].sid in sessionMap && sessionMap[slist[i].sid] == slist[i])
      && (forall i, j :: 0 <= i < j < |slist| ==> slist[i].sid != slist[j].sid)
      && (forall k :: k in sessionMap ==> sessionMap[k] in slist)
    }

    /** The sessions of the table, as Wait collects them. */
    method SessionList() returns (slist: seq<Session>)
      requires Valid()
      ensures Listing(slist)
    {
      slist := [];
      var todo := sessionMap.Keys;
      while todo != {}
        invariant todo <= sessionMap.Keys
        invariant forall i :: 0 <= i < |slist| ==>
                    slist[i].sid in sessionMap.Keys - todo && sessionMap[slist[i].sid] == slist[i]
        invariant forall i, j :: 0 <= i < j < |slist| ==> slist[i].sid != slist[j].sid
        invariant forall k :: k in sessionMap.Keys - todo ==> sessionMap[k] in slist
        decreases |todo|
      {
        var k :| k in todo;
        todo := todo - {k};
        slist := slist + [sessionMap[k]];
      }
    }

    /** The listed sessions as values. */
    ghost function Values(slist: seq<Session>): (r: seq<Sess>)
      reads slist
    {
      if slist == [] then [] else [slist[0].Me()] + Values(slist[1..])
    }

    lemma {:induction false} ValuesAt(slist: seq<Session>)
      ensures |Values(slist)| == |slist| && forall i :: 0 <= i < |slist| ==> Values(slist)[i] == slist[i].Me()
    {
      if slist != [] {
        ValuesAt(slist[1..]);
      }
    }

    lemma ValuesList(slist: seq<Session>)
      requires Valid() && Listing(slist)
      ensures Lists(Values(slist), Table())
    {
      ValuesAt(slist);
      forall k | k in Table() ensures Table()[k] in Values(slist) {
        var i :| 0 <= i < |slist| && slist[i] == sessionMap[k];
        assert Values(slist)[i] == Table()[k];
      }
    }

    ghost predicate AllClosed()
      reads this, sessionMap.Values
    {
      forall k :: k in sessionMap ==> sessionMap[k].status.Close?
    }

    /** The shutdown loop of Wait: every session of the table ends closed, and the database has received
        exactly the registry deletes and the unacknowledged packets of those that were open. */
    method Shutdown() returns (ghost before: seq<Sess>)
      requires Valid()
      modifies sessionMap.Values, db, clean
      ensures Valid() && Lists(before, old(Table())) && AllClosed()
      ensures db.Value() == old(db.Value()).(pend := old(db.Value()).pend + Handed(before))
      ensures multiset(clean.sids) == old(multiset(clean.sids)) + Announced(before)
    {
      var slist := SessionList();
      ValuesList(slist);
      before := Values(slist);
      CloseAll(slist);
    }

    method CloseOne(s: Session)
      requires Valid() && s in sessionMap.Values
      modifies s`status, db, clean
      ensures Valid() && s.status.Close? && db.store == old(db.store)
      ensures db.Value().pend == old(db.Value()).pend + HandedBy(old(s.Me()))
      ensures multiset(clean.sids) ==
              old(multiset(clean.sids)) + if old(s.status).Close? then multiset{} else multiset{s.sid}
    {
      s.CloseSession();
      if old(s.status).Close? {
        assert s.View() == old(s.View());
      } else {
        assert s.View() == Sessions.CloseSession(old(s.View()));
        Regroup(old(db.Value()).pend, DropCmds(old(s.Me())), multiset(FlushCmds(s.pkgBuff)));
      }
    }

    /** The first `i` sessions of the list are closed, the others as before. */
    ghost predicate Reached(slist: seq<Session>, before: seq<Sess>, i: nat)
      reads this, sessionMap.Values
    {
      && i <= |slist| == |before|
      && (forall j :: 0 <= j < |slist| ==> slist[j] in sessionMap.Values)
      && (forall j :: 0 <= j < i ==> slist[j].status.Close?)
      && (forall j :: i <= j < |slist| ==> before[j] == slist[j].Me())
    }

    /** `all` and `told` are the totals of what is queued and announced in the end. */
    ghost predicate Progress(slist: seq<Session>, before: seq<Sess>, i: nat, all: multiset<Cmd>, told: multiset<string>)
      reads this, sessionMap.Values, db, router, clean
    {
      && Valid() && Reached(slist, before, i)
      && db.Value().pend + Handed(before[i..]) == all
      && multiset(clean.sids) + Announced(before[i..]) == told
    }

    lemma SplitOff(before: seq<Sess>, i: nat, pend: multiset<Cmd>, sids: multiset<string>)
      requires i < |before|
      ensures pend + Handed(before[i..]) == (pend + HandedBy(before[i])) + Handed(before[i + 1..])
      ensures sids + Announced(before[i..]) ==
              (sids + (if before[i].status.Close? then multiset{} else multiset{before[i].sid})) +
              Announced(before[i + 1..])
    {
      assert before[i..][1..] == before[i + 1..];
    }

    method CloseNext(slist: seq<Session>, ghost before: seq<Sess>, i: nat, ghost all: multiset<Cmd>,
                     ghost told: multiset<string>)
      requires Listing(slist) && Progress(slist, before, i, all, told) && i < |slist|
      modifies sessionMap.Values, db, clean
      ensures Progress(slist, before, i + 1, all, told) && db.store == old(db.store)
    {
      SplitOff(before, i, db.Value().pend, multiset(clean.sids));
      assert before[i] == slist[i].Me();
      CloseOne(slist[i]);
      assert Reached(slist, before, i + 1);
    }

    lemma ListingStarts(slist: seq<Session>)
      requires Valid() && Listing(slist)
      ensures var before := Values(slist);
              Progress(slist, before, 0, db.Value().pend + Handed(before), multiset(clean.sids) + Announced(before))
    {
      ValuesAt(slist);
      assert Values(slist)[0..] == Values(slist);
    }

    lemma ListingEnds(slist: seq<Session>, before: seq<Sess>, all: multiset<Cmd>, told: multiset<string>)
      requires Listing(slist) && Progress(slist, before, |slist|, all, told)
      ensures AllClosed() && db.Value().pend == all && multiset(clean.sids) == told
    {
      assert before[|slist|..] == [];
      forall k | k in sessionMap ensures sessionMap[k].status.Close? {
        var i :| 0 <= i < |slist| && slist[i] == sessionMap[k];
      }
    }

    method CloseAll(slist: seq<Session>)
      requires Valid() && Listing(slist)
      modifies sessionMap.Values, db, clean
      ensures Valid() && AllClosed()
      ensures db.Value() == old(db.Value()).(pend := old(db.Value()).pend + Handed(old(Values(slist))))
      ensures multiset(clean.sids) == old(multiset(clean.sids)) + Announced(old(Values(slist)))
    {
      var i := 0;
      ghost var before := Values(slist);
      ghost var all, told := db.Value().pend + Handed(before), multiset(clean.sids) + Announced(before);
      ListingStarts(slist);
      while i < |slist|
        invariant Progress(slist, before, i, all, told) && db.store == old(db.store)
      {
        CloseNext(slist, before, i, all, told);
        i := i + 1;
      }
      ListingEnds(slist, before, all, told);
    }
  }
}
