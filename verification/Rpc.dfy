/** The pool of connections to other nodes (sararpc/client.go). */
module Rpc {
  import opened Options

  const POOL_SIZE: nat := 100

  /** A connection, opened for one address. */
  class Client {
    const addr: string
    var open: bool

    constructor (addr: string)
      ensures this.addr == addr && open
    {
      this.addr, open := addr, true;
    }
  }

  ghost predicate NoRepeats(cs: seq<Client>)
  {
    forall i, j :: 0 <= i < j < |cs| ==> cs[i] != cs[j]
  }

  class RpcClient {
    var clientPool: map<string, seq<Client>>
    ghost var handed: set<Client>      // in the hands of callers

    constructor ()
      ensures Valid() && clientPool == map[] && handed == {}
    {
      clientPool, handed := map[], {};
    }

    ghost function Pooled(): (r: set<Client>)
      reads this
    {
      set a, c | a in clientPool && c in clientPool[a] :: c
    }

    function Pool(addr: string): (r: seq<Client>)
      reads this
    {
      if addr in clientPool then clientPool[addr] else []
    }

    /**
     Every pool is bounded and holds open clients of its own address, no client is pooled twice, and no
     pooled client is in the hands of a caller.
     */
    ghost predicate Valid()
      reads this, Pooled(), handed
    {
      && (forall a :: a in clientPool ==>
            && |clientPool[a]| <= POOL_SIZE && NoRepeats(clientPool[a])
            && forall c :: c in clientPool[a] ==> c.addr == a && c.open && c !in handed)
      && (forall c :: c in handed ==> c.open)
    }

    /** getClient: the oldest pooled client, or a new one if the address can be dialled. */
    method GetClient(addr: string, dial: bool) returns (c: Option<Client>)
      requires Valid()
      modifies this
      ensures Valid() && (c.None? <==> old(Pool(addr)) == [] && !dial)
      ensures c.Some? ==> c.value.addr == addr && c.value !in old(handed)
      ensures handed == old(handed) + if c.Some? then {c.value} else {}
      ensures old(Pool(addr)) != [] ==> c == Some(old(Pool(addr))[0]) && Pool(addr) == old(Pool(addr))[1..]
      ensures old(Pool(addr)) == [] ==> Pool(addr) == [] && (c.Some? ==> fresh(c.value))
      ensures forall a :: a != addr ==> Pool(a) == old(Pool(a))
    {
      if addr !in clientPool {
        clientPool := clientPool[addr := []];
      }
      var queue := clientPool[addr];
      if queue != [] {
        c := Some(queue[0]);
        clientPool := clientPool[addr := queue[1..]];
      } else if dial {
        var dialled := new Client(addr);
        c := Some(dialled);
      } else {
        return None;
      }
      handed := handed + {c.value};
    }

    /** putClient: back to the pool of its address, or closed when the pool is full. */
    method PutClient(addr: string, c: Client)
      requires Valid() && c in handed && c.addr == addr
      modifies this, c
      ensures Valid() && handed == old(handed) - {c}
      ensures c.open <==> |old(Pool(addr))| < POOL_SIZE
      ensures Pool(addr) == old(Pool(addr)) + if c.open then [c] else []
      ensures forall a :: a != addr ==> Pool(a) == old(Pool(a))
    {
      if addr !in clientPool {
        clientPool := clientPool[addr := []];
      }
      handed := handed - {c};
      if |clientPool[addr]| < POOL_SIZE {
        clientPool := clientPool[addr := clientPool[addr] + [c]];
      } else {
        c.open := false;
      }
    }

    /** Call: the client of a failed call is dropped, neither pooled nor closed. */
    method Call(addr: string, dial: bool, processed: bool) returns (ok: bool)
      requires Valid()
      modifies this, Pooled()
      ensures Valid() && handed == old(handed)
      ensures ok <==> processed && (dial || old(Pool(addr)) != [])
      ensures ok && old(Pool(addr)) != [] ==> Pool(addr) == old(Pool(addr))[1..] + [old(Pool(addr))[0]]
      ensures ok && old(Pool(addr)) == [] ==> |Pool(addr)| == 1 && fresh(Pool(addr)[0]) && Pool(addr)[0].addr == addr
      ensures !ok ==> Pool(addr) == if old(Pool(addr)) == [] then [] else old(Pool(addr))[1..]
      ensures forall a :: a != addr ==> Pool(a) == old(Pool(a))
    {
      assert addr in clientPool ==> forall c :: c in clientPool[addr] ==> c in Pooled();
      var c := GetClient(addr, dial);
      if c.None? {
        return false;
      }
      ok := processed;
      if processed {
        PutClient(addr, c.value);
      } else {
        handed := handed - {c.value};
      }
    }
  }
}
