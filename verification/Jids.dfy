/** Optional values. */
module Options {
  datatype Option<+T> = None | Some(value: T)
}

/** Jabber-style addresses `user@domain/resource` (core/types/packet.go). */
module Jids {
  import opened Options
  import opened Splitting

  datatype Jid = Jid(user: string, domain: string, resource: string)

  /** What every parsed address satisfies. */
  predicate WellFormed(j: Jid) {
    && '@' !in j.user
    && '@' !in j.domain && '/' !in j.domain
    && '@' !in j.resource && '/' !in j.resource
  }

  /** NewJID: everything after a second '@' is ignored, a resource is kept only if it is the one '/' part. */
  function NewJid(str: string): (r: Option<Jid>)
  {
    var arr := Split(str, '@');
    if |arr| > 1 then
      var arr2 := Split(arr[1], '/');
      Some(Jid(arr[0], arr2[0], if |arr2| == 2 then arr2[1] else ""))
    else
      None
  }

  function Bare(j: Jid): (r: string)
  {
    j.user + "@" + j.domain
  }

  function Print(j: Jid): (r: string)
  {
    if j.resource != "" then j.user + "@" + j.domain + "/" + j.resource else j.user + "@" + j.domain
  }

  function NewJidByUidDomain(uid: string, domain: string): (r: Option<Jid>)
  {
    NewJid(uid + "@" + domain)
  }

  /** EqualWithoutResource; None is the nil dereference on an address that does not parse. */
  function EqualWithoutResource(self: Jid, j: string): (r: Option<bool>)
  {
    match NewJid(j)
    case None => None
    case Some(other) => Some(Bare(self) == Bare(other))
  }

  lemma {:induction false} NoNewElements<T>(s: seq<T>, sep: T, x: T)
    requires x !in s
    ensures forall i :: 0 <= i < |Split(s, sep)| ==> x !in Split(s, sep)[i]
  {
    if s != [] {
      NoNewElements(s[1..], sep, x);
    }
  }

  /** Exactly the strings with an '@' parse, and what they parse to is well formed. */
  lemma ParsesIff(str: string)
    ensures NewJid(str).Some? <==> '@' in str
    ensures NewJid(str).Some? ==> WellFormed(NewJid(str).value)
  {
    SplitFree(str, '@');
    var arr := Split(str, '@');
    if |arr| > 1 {
      SplitFree(arr[1], '/');
      NoNewElements(arr[1], '/', '@');
    }
  }

  /** What an address parses to: user and domain are the parts around the first '@', up to a second '@' or the first
      '/'; the resource is what follows that '/', if it has no other. */
  lemma ParsesTo(u: string, d: string, r: string, more: string)
    requires '@' !in u && '@' !in d && '/' !in d && '@' !in r
    ensures NewJid(u + "@" + d) == Some(Jid(u, d, ""))
    ensures NewJid(u + "@" + d + "/" + r) == Some(Jid(u, d, if '/' in r then "" else r))
    ensures NewJid(u + "@" + d + "@" + more) == Some(Jid(u, d, ""))
    ensures NewJid(u + "@" + d + "/" + r + "@" + more) == Some(Jid(u, d, if '/' in r then "" else r))
  {
    ResourceOf(d, r);
    assert u + "@" + d == u + "@" + (d + "");
    ParsesHead(u, d, "");
    assert u + "@" + d + "/" + r == u + "@" + ((d + "/" + r) + "");
    ParsesHead(u, d + "/" + r, "");
    assert u + "@" + d + "@" + more == u + "@" + (d + ("@" + more));
    ParsesHead(u, d, "@" + more);
    assert u + "@" + d + "/" + r + "@" + more == u + "@" + ((d + "/" + r) + ("@" + more));
    ParsesHead(u, d + "/" + r, "@" + more);
  }

  /** Only what stands between the first '@' and the next counts. */
  lemma ParsesHead(u: string, a: string, rest: string)
    requires '@' !in u && '@' !in a && (rest == "" || rest[0] == '@')
    ensures var parts := Split(a, '/');
            NewJid(u + "@" + (a + rest)) == Some(Jid(u, parts[0], if |parts| == 2 then parts[1] else ""))
  {
    SplitHead(u, a + rest, '@');
    if rest == "" {
      assert a + rest == a;
      SplitFree(a, '@');
    } else {
      assert a + rest == a + "@" + rest[1..];
      SplitHead(a, rest[1..], '@');
    }
  }

  lemma ResourceOf(d: string, r: string)
    requires '/' !in d
    ensures Split(d, '/') == [d]
    ensures Split(d + "/" + r, '/')[0] == d
    ensures |Split(d + "/" + r, '/')| == 2 <==> '/' !in r
    ensures '/' !in r ==> Split(d + "/" + r, '/') == [d, r]
  {
    SplitFree(d, '/');
    SplitHead(d, r, '/');
    SplitFree(r, '/');
  }

  /** Parsing undoes printing. */
  lemma ParsePrint(j: Jid)
    requires WellFormed(j)
    ensures NewJid(Print(j)) == Some(j)
  {
    var after := if j.resource != "" then j.domain + "/" + j.resource else j.domain;
    assert Print(j) == j.user + "@" + after;
    assert Split(Print(j), '@') == [j.user, after] by {
      SplitHead(j.user, after, '@');
      SplitFree(after, '@');
    }
    SplitFree(j.domain, '/');
    if j.resource != "" {
      SplitHead(j.domain, j.resource, '/');
      SplitFree(j.resource, '/');
    }
  }

  /** Printing keeps the identity of every string that parses. */
  lemma ParsePrintParse(str: string)
    requires NewJid(str).Some?
    ensures NewJid(Print(NewJid(str).value)) == NewJid(str)
  {
    ParsesIff(str);
    ParsePrint(NewJid(str).value);
  }

  /** One '@', and after it nothing or one '/' followed by something. */
  predicate Canonical(str: string) {
    var arr := Split(str, '@');
    |arr| == 2 &&
    var arr2 := Split(arr[1], '/');
    |arr2| == 1 || (|arr2| == 2 && arr2[1] != "")
  }

  lemma CanonicalPrints(str: string)
    requires Canonical(str)
    ensures NewJid(str).Some? && Print(NewJid(str).value) == str
  {
    var arr := Split(str, '@');
    JoinSplit(str, '@');
    JoinSplit(arr[1], '/');
    assert Join(arr, '@') == arr[0] + "@" + Join(arr[1..], '@');
    assert str == arr[0] + "@" + arr[1];
    var arr2 := Split(arr[1], '/');
    if |arr2| == 2 {
      assert Join(arr2, '/') == arr2[0] + "/" + Join(arr2[1..], '/');
    }
  }

  lemma PrintIsCanonical(j: Jid)
    requires WellFormed(j)
    ensures Canonical(Print(j))
  {
    var after := if j.resource != "" then j.domain + "/" + j.resource else j.domain;
    assert Print(j) == j.user + "@" + after;
    SplitHead(j.user, after, '@');
    SplitFree(after, '@');
    SplitFree(j.domain, '/');
    if j.resource != "" {
      SplitHead(j.domain, j.resource, '/');
      SplitFree(j.resource, '/');
    }
  }

  /** Printing a parsed string gives it back exactly when it was canonical. */
  lemma PrintParseIffCanonical(str: string)
    requires NewJid(str).Some?
    ensures Print(NewJid(str).value) == str <==> Canonical(str)
  {
    ParsesIff(str);
    PrintIsCanonical(NewJid(str).value);
    if Canonical(str) {
      CanonicalPrints(str);
    }
  }

  /** The bare form identifies user and domain. */
  lemma BareInjective(a: Jid, b: Jid)
    requires WellFormed(a) && WellFormed(b)
    ensures Bare(a) == Bare(b) <==> a.user == b.user && a.domain == b.domain
  {
    ParsePrint(a.(resource := ""));
    ParsePrint(b.(resource := ""));
  }

  /** EqualWithoutResource decides exactly equality of user and domain, and fails exactly on strings without '@'. */
  lemma EqualWithoutResourceIff(self: Jid, j: string)
    requires WellFormed(self)
    ensures EqualWithoutResource(self, j).None? <==> '@' !in j
    ensures '@' in j ==>
              (EqualWithoutResource(self, j) == Some(true) <==>
                 NewJid(j).value.user == self.user && NewJid(j).value.domain == self.domain)
  {
    ParsesIff(j);
    if '@' in j {
      BareInjective(self, NewJid(j).value);
    }
  }

  /** NewJIDByUidDomain is the inverse of Bare on separator-free parts. */
  lemma ByUidDomain(uid: string, domain: string)
    requires '@' !in uid && '@' !in domain && '/' !in domain
    ensures NewJidByUidDomain(uid, domain) == Some(Jid(uid, domain, ""))
  {
    ParsePrint(Jid(uid, domain, ""));
  }
}

/** The keys under which the server stores sessions, offline messages and packets. */
module Keys {
  const SESSION_PREFIX := "session_"
  const OFFLINE_PREFIX := "offline_"
  const IDX_SUFFIX := "_idx"

  datatype Key =
    | SessionKey(bare: string)   // ToSessionid
    | OfflineIdx(bare: string)   // ToOfflineKey with the index suffix
    | NodeIdx(node: string)      // a node id with the index suffix
    | IdKey(id: string)          // a packet id

  function Render(k: Key): (r: string)
  {
    match k
    case SessionKey(b) => SESSION_PREFIX + b
    case OfflineIdx(b) => OFFLINE_PREFIX + b + IDX_SUFFIX
    case NodeIdx(n) => n + IDX_SUFFIX
    case IdKey(id) => id
  }

  predicate HasPrefix(s: string, p: string) {
    |p| <= |s| && s[..|p|] == p
  }

  predicate HasSuffix(s: string, p: string) {
    |p| <= |s| && s[|s| - |p|..] == p
  }

  /** Packet ids that cannot be mistaken for a session key or an index. */
  predicate PlainId(id: string) {
    !HasPrefix(id, SESSION_PREFIX) && !HasSuffix(id, IDX_SUFFIX)
  }

  predicate Sound(k: Key) {
    match k
    case SessionKey(b) => '@' in b
    case OfflineIdx(b) => '@' in b
    case NodeIdx(n) => !HasPrefix(n + IDX_SUFFIX, SESSION_PREFIX) && !HasPrefix(n, OFFLINE_PREFIX)
    case IdKey(id) => PlainId(id)
  }

  /** is4s: the session-queue test on the stored bytes. */
  predicate Is4s(key: string) {
    HasPrefix(key, SESSION_PREFIX)
  }

  /** Reads a stored name back as the key it came from. */
  function Classify(s: string): (k: Key)
  {
    if HasPrefix(s, SESSION_PREFIX) && '@' in s[8..] then SessionKey(s[8..])
    else if HasSuffix(s, IDX_SUFFIX) then
      var n := s[..|s| - 4];
      if HasPrefix(n, OFFLINE_PREFIX) then OfflineIdx(n[8..]) else NodeIdx(n)
    else IdKey(s)
  }

  /** Every sound key is recovered from its stored name. */
  lemma ClassifyRender(k: Key)
    requires Sound(k)
    ensures Classify(Render(k)) == k
  {
    var x := Render(k);
    match k
    case SessionKey(b) =>
      assert x[..8] == SESSION_PREFIX && x[8..] == b;
    case OfflineIdx(b) =>
      assert x[0] == 'o' && x[|x| - 4..] == IDX_SUFFIX;
      assert x[..|x| - 4] == OFFLINE_PREFIX + b;
      assert (OFFLINE_PREFIX + b)[..8] == OFFLINE_PREFIX && (OFFLINE_PREFIX + b)[8..] == b;
      assert x[..8][0] != SESSION_PREFIX[0];
    case NodeIdx(n) =>
      assert x[|x| - 4..] == IDX_SUFFIX && x[..|x| - 4] == n;
    case IdKey(id) =>
  }

  /** Different keys have different stored names: the namespaces never meet and each is injective. */
  lemma RenderInjective(a: Key, b: Key)
    requires Sound(a) && Sound(b)
    ensures Render(a) == Render(b) <==> a == b
  {
    ClassifyRender(a);
    ClassifyRender(b);
  }

  /** The stored names. */
  lemma KeyNames()
    ensures Render(SessionKey("ann@x")) == "session_ann@x" && Render(OfflineIdx("ann@x")) == "offline_ann@x_idx"
    ensures Render(NodeIdx("n1")) == "n1_idx" && Render(IdKey("7")) == "7"
  {
  }

  /** The prefix test picks out exactly the session keys. */
  lemma Is4sIffSessionKey(k: Key)
    requires Sound(k)
    ensures Is4s(Render(k)) <==> k.SessionKey?
  {
    var x := Render(k);
    match k
    case SessionKey(b) => assert x[..8] == SESSION_PREFIX;
    case OfflineIdx(b) => assert x[..8][0] == 'o';
    case _ =>
  }

  /** A node called "session" would have its index taken for a session key. */
  lemma SessionIsNoNodeId()
    ensures Is4s(Render(NodeIdx("session"))) && !Sound(NodeIdx("session"))
  {
    assert Render(NodeIdx("session"))[..8] == SESSION_PREFIX;
  }
}
