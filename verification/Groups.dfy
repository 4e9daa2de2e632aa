/** Group fan-out: one packet per member other than the sender (core/session.go). */
module Groups {
  import opened Options
  import opened Splitting
  import opened Jids
  import opened Packets

  const COMMA := ','

  /** The listed users other than the sender, in order. */
  function Others(us: seq<string>, sender: string): (r: seq<string>)
  {
    if us == [] then []
    else (if us[0] != sender then [us[0]] else []) + Others(us[1..], sender)
  }

  /** The copy of a group packet for one member. */
  function Copy(p: Loaded, domain: string, user: string, id: string): (r: Loaded)
  {
    var to := match NewJidByUidDomain(user, domain) case Some(j) => Bare(j) case None => "";
    Loaded(Envelope(id, "", p.envelope.from, to, MSG_TYPE_GROUP_CHAT, 0, "", p.envelope.gid), p.payload, p.vsn, None)
  }

  /** `ps` holds one copy for each of `us`, in order; `uuid(k)` is the k-th generated id. */
  ghost predicate FansOut(ps: seq<Loaded>, p: Loaded, domain: string, us: seq<string>, uuid: nat -> string)
  {
    |ps| == |us| && forall k :: 0 <= k < |ps| ==> ps[k] == Copy(p, domain, us[k], uuid(k))
  }

  lemma FansOutMore(ps: seq<Loaded>, p: Loaded, domain: string, us: seq<string>, uuid: nat -> string, u: string)
    requires FansOut(ps, p, domain, us, uuid)
    ensures FansOut(ps + [Copy(p, domain, u, uuid(|ps|))], p, domain, us + [u], uuid)
  {
  }

  predicate OccursAt(s: string, t: string, i: int)
  {
    0 <= i <= |s| - |t| && s[i..i + |t|] == t
  }

  /** The permission test on the member string: the sender's name occurs in it. */
  predicate Contains(s: string, t: string)
  {
    exists i :: 0 <= i <= |s| && OccursAt(s, t, i)
  }

  /** `t` is a part of `s`. */
  ghost predicate Within(s: string, t: string)
  {
    exists a, b :: s == a + t + b
  }

  /** The test finds exactly the parts of the string. */
  lemma ContainsIff(s: string, t: string)
    ensures Contains(s, t) <==> Within(s, t)
  {
    if Contains(s, t) {
      var i :| 0 <= i <= |s| && OccursAt(s, t, i);
      assert s == s[..i] + t + s[i + |t|..];
    }
    if Within(s, t) {
      var a, b :| s == a + t + b;
      assert OccursAt(s, t, |a|);
    }
  }

  datatype Reply = Expanded(packets: seq<Loaded>) | NoPermission | NotFound | Crashed

  /** In the order of the list, everybody but the sender. */
  lemma {:induction false} OthersInOrder(a: seq<string>, b: seq<string>, u: string, sender: string)
    ensures Others([], sender) == [] && Others([u], sender) == if u == sender then [] else [u]
    ensures Others(a + b, sender) == Others(a, sender) + Others(b, sender)
  {
    if a == [] {
      assert a + b == b;
    } else {
      var first := if a[0] != sender then [a[0]] else [];
      OthersInOrder(a[1..], b, u, sender);
      assert (a + b)[1..] == a[1..] + b;
      calc {
        Others(a + b, sender);
        first + Others(a[1..] + b, sender);
        first + (Others(a[1..], sender) + Others(b, sender));
        (first + Others(a[1..], sender)) + Others(b, sender);
        Others(a, sender) + Others(b, sender);
      }
    }
  }

  lemma OthersConcat(us: seq<string>, u: string, sender: string)
    ensures Others(us + [u], sender) == Others(us, sender) + if u != sender then [u] else []
  {
    OthersInOrder(us, [u], u, sender);
  }

  /** genGroupPackets. */
  method GenGroupPackets(users: string, p: Loaded, from: Jid, uuid: nat -> string) returns (packets: seq<Loaded>)
    requires NewJid(p.envelope.from) == Some(from)
    ensures FansOut(packets, p, from.domain, Others(Split(users, COMMA), from.user), uuid)
  {
    packets := [];
    var list := Split(users, COMMA);
    var i := 0;
    while i < |list|
      invariant i <= |list|
      invariant FansOut(packets, p, from.domain, Others(list[..i], from.user), uuid)
    {
      assert list[..i + 1] == list[..i] + [list[i]];
      OthersConcat(list[..i], list[i], from.user);
      if from.user != list[i] {
        FansOutMore(packets, p, from.domain, Others(list[..i], from.user), uuid, list[i]);
        packets := packets + [Copy(p, from.domain, list[i], uuid(|packets|))];
      }
      i := i + 1;
    }
    assert list[..i] == list;
  }

  /** The member string: the cached one, or a list of at least two from the service. */
  function Members(cached: Option<string>, listed: Option<seq<string>>): (r: Option<string>)
  {
    if cached.Some? then cached
    else if listed.Some? && |listed.value| >= 2 then Some(Join(listed.value, COMMA))
    else None
  }

  /** The reply to a group packet: `cached` is the stored member string, `listed` the answer of the group service. */
  ghost predicate Answers(p: Loaded, cached: Option<string>, listed: Option<seq<string>>, uuid: nat -> string, r: Reply)
  {
    match NewJid(p.envelope.from)
    case None => r.Crashed?
    case Some(from) =>
      if cached.None? && (listed.None? || |listed.value| <= 1) then r.NotFound?
      else
        var users := if cached.Some? then cached.value else Join(listed.value, COMMA);
        if Contains(users, from.user)
        then r.Expanded? && FansOut(r.packets, p, from.domain, Others(Split(users, COMMA), from.user), uuid)
        else r.NoPermission?
  }

  /** There is always such a reply. */
  ghost function TheReply(p: Loaded, cached: Option<string>, listed: Option<seq<string>>,
                          uuid: nat -> string): (r: Reply)
    ensures Answers(p, cached, listed, uuid, r)
  {
    match NewJid(p.envelope.from)
    case None => Crashed
    case Some(from) =>
      if cached.None? && (listed.None? || |listed.value| <= 1) then NotFound
      else
        var users := if cached.Some? then cached.value else Join(listed.value, COMMA);
        var us := Others(Split(users, COMMA), from.user);
        if Contains(users, from.user)
        then Expanded(seq(|us|, k requires 0 <= k < |us| => Copy(p, from.domain, us[k], uuid(k))))
        else NoPermission
  }

  /** GenerateGroupPackets; `put` is the string to cache. */
  method GenerateGroupPackets(p: Loaded, cached: Option<string>, listed: Option<seq<string>>, uuid: nat -> string)
    returns (r: Reply, put: Option<string>)
    ensures Answers(p, cached, listed, uuid, r)
    ensures r.Crashed? <==> '@' !in p.envelope.from
    ensures r.NotFound? <==> '@' in p.envelope.from && Members(cached, listed).None?
    ensures var users, from := Members(cached, listed), NewJid(p.envelope.from);
            && (r.NoPermission? <==> users.Some? && from.Some? && !Within(users.value, from.value.user))
            && (r.Expanded? <==> users.Some? && from.Some? && Within(users.value, from.value.user))
    ensures put == if NewJid(p.envelope.from).Some? && cached.None? && listed.Some? && |listed.value| > 1
                   then Some(Join(listed.value, COMMA)) else None
  {
    put := None;
    ParsesIff(p.envelope.from);
    if NewJid(p.envelope.from).Some? && Members(cached, listed).Some? {
      ContainsIff(Members(cached, listed).value, NewJid(p.envelope.from).value.user);
    }
    var jid := NewJid(p.envelope.from);
    if jid.None? {
      return Crashed, None;
    }
    var users := "";
    if cached.Some? {
      users := cached.value;
    } else if listed.Some? && |listed.value| > 1 {
      users := Join(listed.value, COMMA);
      put := Some(users);
    } else {
      return NotFound, None;
    }
    if Contains(users, jid.value.user) {
      var packets := GenGroupPackets(users, p, jid.value, uuid);
      r := Expanded(packets);
    } else {
      r := NoPermission;
    }
  }

  // ---------------------------------------------------------------- the cache is transparent

  /** Splitting what was joined: a cached group expands to exactly the listed users. */
  lemma CacheIsTransparent(ulist: seq<string>, sender: string)
    requires ulist != [] && forall i :: 0 <= i < |ulist| ==> COMMA !in ulist[i]
    ensures Others(Split(Join(ulist, COMMA), COMMA), sender) == Others(ulist, sender)
  {
    SplitJoin(ulist, COMMA);
  }

  /** The members that get a copy are the listed users that are not the sender, each as often as listed. */
  lemma {:induction false} OthersAre(us: seq<string>, sender: string, u: string)
    ensures multiset(Others(us, sender))[u] == if u == sender then 0 else multiset(us)[u]
  {
    if us != [] {
      OthersAre(us[1..], sender, u);
      assert us == [us[0]] + us[1..];
      assert multiset(us) == multiset{us[0]} + multiset(us[1..]);
      if us[0] != sender {
        assert multiset(Others(us, sender)) == multiset{us[0]} + multiset(Others(us[1..], sender));
      }
    }
  }

  /** A copy is addressed to the member in the sender's domain, from the sender, in the same group, and takes over
      the parsed payload and version. Its text shows all of this. */
  lemma CopyAddress(p: Loaded, from: Jid, user: string, id: string)
    requires NewJid(p.envelope.from) == Some(from) && '@' !in user
    ensures var c := ToJson(Copy(p, from.domain, user, id));
            && NewJid(c.to) == Some(Jid(user, from.domain, ""))
            && c.from == p.envelope.from && c.gid == p.envelope.gid && c.payload == p.payload && c.vsn == p.vsn
            && c.mtype == MSG_TYPE_GROUP_CHAT && c.id == id
    ensures ShowsEnvelope(Copy(p, from.domain, user, id))
  {
    ParsesIff(p.envelope.from);
    ByUidDomain(user, from.domain);
    ParsePrint(Jid(user, from.domain, ""));
  }

  // ---------------------------------------------------------------- the payload

  /** A text of an envelope alone. */
  predicate Blank(c: Packet)
  {
    c.payload.None? && c.vsn == ""
  }

  /** A group packet that was read has no parsed payload, so no copy carries one: the copies have the payload of the
      sender's text if and only if that has none, or there is nobody to send it to. */
  lemma PayloadKeptIff(text: Packet, cached: Option<string>, listed: Option<seq<string>>, uuid: nat -> string, r: Reply)
    requires Answers(NewPacket(text), cached, listed, uuid, r) && r.Expanded?
    ensures forall c :: c in Texts(r.packets) ==> Blank(c)
    ensures (forall c :: c in Texts(r.packets) ==> c.payload == text.payload) <==>
            text.payload.None? || r.packets == []
    ensures (forall c :: c in Texts(r.packets) ==> c.vsn == text.vsn) <==> text.vsn == "" || r.packets == []
  {
    if r.packets != [] {
      assert Texts(r.packets)[0] in Texts(r.packets);
    }
  }

  function Greeting(): (r: Packet)
  {
    Packet("0", "", "ann@x", "", MSG_TYPE_GROUP_CHAT, 0, "", "1", Some("hello"), "0.0.1")
  }

  /** The loss is real: Ann greets the group of Ann and Bob, and Bob gets an envelope without the greeting. */
  lemma PayloadIsLost(uuid: nat -> string, r: Reply)
    requires Answers(NewPacket(Greeting()), Some(Join(["ann", "bob"], COMMA)), None, uuid, r)
    ensures Greeting().payload == Some("hello")
    ensures r.Expanded? &&
            Texts(r.packets) == [Packet(uuid(0), "", "ann@x", "bob@x", MSG_TYPE_GROUP_CHAT, 0, "", "1", None, "")]
  {
    var ulist, ann, bob := ["ann", "bob"], Jid("ann", "x", ""), Jid("bob", "x", "");
    assert Print(ann) == "ann@x" && Print(bob) == "bob@x";
    ParsePrint(ann);
    ByUidDomain("bob", "x");
    CacheIsTransparent(ulist, "ann");
    MembersPass(ulist, "ann");
    assert Others(ulist, "ann") == ["bob"];
  }

  // ---------------------------------------------------------------- the permission test

  lemma ContainsWithin(a: string, s: string, b: string, t: string)
    requires Contains(s, t)
    ensures Contains(a + s + b, t)
  {
    var i :| 0 <= i <= |s| && OccursAt(s, t, i);
    assert OccursAt(a + s + b, t, |a| + i);
  }

  /** `t` is the end of `name`, a comma, and the beginning of `rest`. */
  predicate Crosses(name: string, rest: string, t: string)
  {
    exists i, j :: 0 <= i <= |name| && 0 <= j <= |rest| && t == name[i..] + [COMMA] + rest[..j]
  }

  /** `t` starts in the name `us[k]` and runs over the comma after it. */
  predicate Straddles(us: seq<string>, k: nat, t: string)
  {
    k + 1 < |us| && Crosses(us[k], Join(us[k + 1..], COMMA), t)
  }

  /** What passes the test, exactly: a part of a listed name, or what runs from inside one over the comma. */
  lemma {:induction false} ContainsJoin(us: seq<string>, t: string)
    requires us != []
    ensures Contains(Join(us, COMMA), t) <==>
            exists k :: 0 <= k < |us| && ((exists a, b :: us[k] == a + t + b) || Straddles(us, k, t))
  {
    JoinHas(us, t);
    ContainsIff(Join(us, COMMA), t);
    if k :| 0 <= k < |us| && (Within(us[k], t) || Straddles(us, k, t)) {
      assert (exists a, b :: us[k] == a + t + b) || Straddles(us, k, t);
    }
    if k :| 0 <= k < |us| && ((exists a, b :: us[k] == a + t + b) || Straddles(us, k, t)) {
      assert Within(us[k], t) || Straddles(us, k, t);
    }
  }

  lemma {:induction false} JoinHas(us: seq<string>, t: string)
    requires us != []
    ensures Within(Join(us, COMMA), t) <==> exists k :: 0 <= k < |us| && (Within(us[k], t) || Straddles(us, k, t))
  {
    if |us| > 1 {
      var tail := us[1..];
      JoinHas(tail, t);
      OccursWhere(us[0], Join(tail, COMMA), t);
      forall k | 0 <= k < |tail| ensures tail[k] == us[k + 1] && Straddles(tail, k, t) == Straddles(us, k + 1, t) {
        assert tail[k + 1..] == us[k + 2..];
      }
      if k :| 0 <= k < |tail| && (Within(tail[k], t) || Straddles(tail, k, t)) {
        assert Within(us[k + 1], t) || Straddles(us, k + 1, t);
      }
      if k :| 0 < k < |us| && (Within(us[k], t) || Straddles(us, k, t)) {
        assert Within(tail[k - 1], t) || Straddles(tail, k - 1, t);
      }
    }
  }

  lemma OccursWhere(name: string, rest: string, t: string)
    ensures Within(name + [COMMA] + rest, t) <==> Within(name, t) || Crosses(name, rest, t) || Within(rest, t)
  {
    var s := name + [COMMA] + rest;
    if Within(s, t) {
      var a, b :| s == a + t + b;
      PartIsWhere(name, rest, t, a, b);
    }
    if Within(name, t) {
      var a, b :| name == a + t + b;
      PartOf("", name, [COMMA] + rest, t, a, b);
      assert s == "" + name + ([COMMA] + rest);
    }
    if Within(rest, t) {
      var a, b :| rest == a + t + b;
      PartOf(name + [COMMA], rest, "", t, a, b);
      assert s == name + [COMMA] + rest + "";
    }
    if Crosses(name, rest, t) {
      CrossingIsPart(name, rest, t);
    }
  }

  lemma PartOf(x: string, s: string, y: string, t: string, a: string, b: string)
    requires s == a + t + b
    ensures Within(x + s + y, t)
  {
    assert x + s + y == (x + a) + t + (b + y);
  }

  lemma CrossingIsPart(name: string, rest: string, t: string)
    requires Crosses(name, rest, t)
    ensures Within(name + [COMMA] + rest, t)
  {
    var i, j :| 0 <= i <= |name| && 0 <= j <= |rest| && t == name[i..] + [COMMA] + rest[..j];
    assert name + [COMMA] + rest == name[..i] + t + rest[j..];
  }

  lemma PartIsWhere(name: string, rest: string, t: string, a: string, b: string)
    requires name + [COMMA] + rest == a + t + b
    ensures Within(name, t) || Crosses(name, rest, t) || Within(rest, t)
  {
    var s := name + [COMMA] + rest;
    var i, n := |a|, |name|;
    assert t == s[i..i + |t|];
    if i + |t| <= n {
      assert s[i..i + |t|] == name[i..i + |t|];
      assert name == name[..i] + name[i..i + |t|] + name[i + |t|..];
    } else if i > n {
      var j := i - n - 1;
      assert s[i..i + |t|] == rest[j..j + |t|];
      assert rest == rest[..j] + rest[j..j + |t|] + rest[j + |t|..];
    } else {
      assert t == name[i..] + [COMMA] + rest[..i + |t| - n - 1];
    }
  }

  /** Only a name with a comma can run over one. */
  lemma CrossingHasComma(name: string, rest: string, t: string)
    requires Crosses(name, rest, t)
    ensures COMMA in t
  {
    var i, j :| 0 <= i <= |name| && 0 <= j <= |rest| && t == name[i..] + [COMMA] + rest[..j];
    assert t[|name| - i] == COMMA;
  }

  lemma StraddlingHasComma(us: seq<string>, k: nat, t: string)
    ensures Straddles(us, k, t) ==> COMMA in t
  {
    if Straddles(us, k, t) {
      CrossingHasComma(us[k], Join(us[k + 1..], COMMA), t);
    }
  }

  /** A part has no letter that the whole has not. */
  lemma PartHasLetters(s: string, t: string, c: char)
    ensures Within(s, t) && c in t ==> c in s
  {
    if Within(s, t) && c in t {
      var a, b :| s == a + t + b;
    }
  }

  /** Every listed member passes the permission test, whatever the list. */
  lemma {:induction false} MembersPass(us: seq<string>, u: string)
    requires u in us
    ensures Contains(Join(us, COMMA), u)
  {
    var s := Join(us, COMMA);
    assert OccursAt(u, u, 0);
    if |us| > 1 {
      var rest := Join(us[1..], COMMA);
      if us[0] == u {
        ContainsWithin("", u, [COMMA] + rest, u);
        assert "" + u + ([COMMA] + rest) == s;
      } else {
        MembersPass(us[1..], u);
        ContainsWithin(us[0] + [COMMA], rest, "", u);
        assert us[0] + [COMMA] + rest + "" == s;
      }
    }
  }

  /** Who is refused: a sender whose name has no comma and is a part of no listed name, whether the list comes from
      the cache or from the service. */
  lemma StrangerIsRefused(p: Loaded, ulist: seq<string>, cached: bool, uuid: nat -> string, r: Reply)
    requires |ulist| >= 2 && NewJid(p.envelope.from).Some?
    requires var user := NewJid(p.envelope.from).value.user;
             COMMA !in user && forall k :: 0 <= k < |ulist| ==> !Within(ulist[k], user)
    requires Answers(p, if cached then Some(Join(ulist, COMMA)) else None, Some(ulist), uuid, r)
    ensures r == NoPermission
  {
    var user := NewJid(p.envelope.from).value.user;
    JoinHas(ulist, user);
    ContainsIff(Join(ulist, COMMA), user);
    forall k | 0 <= k < |ulist| ensures Straddles(ulist, k, user) ==> COMMA in user {
      StraddlingHasComma(ulist, k, user);
    }
  }

  /** Zed writes to the group of Ann and Bob. */
  lemma ZedIsRefused(p: Loaded, uuid: nat -> string, r: Reply)
    requires p.envelope.from == "zed@x" && Answers(p, Some(Join(["ann", "bob"], COMMA)), None, uuid, r)
    ensures r == NoPermission
  {
    var ulist, zed := ["ann", "bob"], Jid("zed", "x", "");
    assert Print(zed) == "zed@x";
    ParsePrint(zed);
    assert "zed"[0] == 'z';
    forall k | 0 <= k < |ulist| ensures !Within(ulist[k], "zed") {
      PartHasLetters(ulist[k], "zed", 'z');
    }
    StrangerIsRefused(p, ulist, true, uuid, r);
  }

  /** The test is on substrings: users who are not listed pass too when a listed name contains theirs, or when
      their name has a comma and lies across two listed ones. */
  lemma SubstringPasses()
    ensures var ulist := ["bob", "eve"];
            && "bo" !in ulist && Contains(Join(ulist, COMMA), "bo")
            && "b,e" !in ulist && Contains(Join(ulist, COMMA), "b,e")
  {
    var ulist := ["bob", "eve"];
    assert Join(ulist, COMMA) == "bob,eve";
    assert OccursAt("bob,eve", "bo", 0);
    assert OccursAt("bob,eve", "b,e", 2);
  }
}
