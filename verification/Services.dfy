/** The services a session shares with the others of its node. */
module Services {
  import opened Options
  import opened Sessions

  /** The listed ids of each login answer (core/cache.go). */
  class OfflineCache {
    var cache: Cache

    constructor ()
      ensures cache == map[]
    {
      cache := map[];
    }

    method Get(key: string) returns (r: Option<seq<string>>)
      ensures r == if key in cache then Some(cache[key]) else None
    {
      r := if key in cache then Some(cache[key]) else None;
    }

    method Put(key: string, val: seq<string>)
      modifies this
      ensures cache == old(cache)[key := val]
    {
      cache := cache[key := val];
    }
  }

  /** The channel on which closing sessions announce themselves. */
  class CleanChannel {
    var sids: seq<string>

    constructor ()
      ensures sids == []
    {
      sids := [];
    }

    method Send(sid: string)
      modifies this
      ensures sids == old(sids) + [sid]
      ensures multiset(sids) == multiset(old(sids)) + multiset{sid}
    {
      sids := sids + [sid];
    }
  }

  /** A packet to route has a recipient that parses. */
  predicate ItemOk(it: Item)
  {
    it.pkt.Some? ==> BareOf(it.pkt.value.to).Some?
  }

  /** The bounded routing queue (node/router.go). */
  class Router {
    var items: seq<Item>

    constructor ()
      ensures Valid() && items == []
    {
      items := [];
    }

    ghost predicate Valid()
      reads this
    {
      |items| <= ROUTER_QUEUE_SIZE && forall it :: it in items ==> ItemOk(it)
    }

    ghost function Queue(): (q: multiset<Item>)
      reads this
    {
      multiset(items)
    }

    method Route(it: Item) returns (ok: bool)
      requires Valid() && ItemOk(it)
      modifies this
      ensures Valid() && ok == (|old(items)| < ROUTER_QUEUE_SIZE)
      ensures items == old(items) + if ok then [it] else []
      ensures Queue() == Sessions.Route(old(Queue()), it)
    {
      ok := |items| < ROUTER_QUEUE_SIZE;
      if ok {
        items := items + [it];
      }
    }

    /** A worker receives the oldest item. */
    method Receive() returns (it: Item)
      requires Valid() && items != []
      modifies this
      ensures Valid() && ItemOk(it) && [it] + items == old(items)
      ensures Queue() == old(Queue()) - multiset{it} && it in old(Queue())
    {
      it := items[0];
      assert items == [it] + items[1..];
      items := items[1..];
    }
  }
}
