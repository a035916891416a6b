/** A request reaches the handler at most once, whatever happens to the cache. */
module BrokerProofs {
  import opened Wrappers
  import opened Broker
  import Runs

  // ---------- Parts of the cache ----------

  /** What is left of a cache is a part of it, in its order. */
  lemma {:induction false} LiveIs(results: seq<Entry>, now: int, ttl: int, admitted: seq<Request>)
    requires ResultsOk(results, admitted)
    ensures ResultsOk(Live(results, now, ttl), admitted) && |Live(results, now, ttl)| <= |results|
    ensures forall e :: e in Live(results, now, ttl) ==> e in results
  {
    if results != [] {
      LiveIs(results[1..], now, ttl, admitted);
      Prepended(results[0], Live(results[1..], now, ttl), results[1..], admitted);
    }
  }

  lemma {:induction false} WithoutIs(results: seq<Entry>, key: string, admitted: seq<Request>)
    requires ResultsOk(results, admitted)
    ensures ResultsOk(Without(results, key), admitted) && |Without(results, key)| <= |results|
    ensures forall e :: e in Without(results, key) ==> e in results
  {
    if results != [] {
      WithoutIs(results[1..], key, admitted);
      Prepended(results[0], Without(results[1..], key), results[1..], admitted);
    }
  }

  lemma Prepended(e: Entry, part: seq<Entry>, rest: seq<Entry>, admitted: seq<Request>)
    requires ResultsOk([e] + rest, admitted) && ResultsOk(part, admitted) && forall x :: x in part ==> x in rest
    ensures ResultsOk([e] + part, admitted)
  {
    assert ([e] + rest)[0] == e;
    forall i | 0 <= i < |part| ensures part[i].key != e.key {
      assert part[i] in rest;
      var j :| 0 <= j < |rest| && rest[j] == part[i];
      assert ([e] + rest)[j + 1] == part[i];
    }
  }

  lemma {:induction false} LookUpIs(results: seq<Entry>, key: string)
    ensures match LookUp(results, key)
      case Some(e) => e in results && e.key == key
      case None => forall e :: e in results ==> e.key != key
  {
    if results != [] {
      LookUpIs(results[1..], key);
    }
  }

  // ---------- Invariant ----------

  lemma MoreAdmitted(results: seq<Entry>, admitted: seq<Request>, r: Request)
    requires ResultsOk(results, admitted)
    ensures ResultsOk(results, admitted + [r])
  {
  }

  lemma Raised(admitted: seq<Request>, highWater: map<string, nat>, r: Request)
    requires Ascending(admitted, highWater)
    requires r.client in highWater ==> highWater[r.client] < r.sequence
    ensures Ascending(admitted + [r], highWater[r.client := r.sequence])
  {
  }

  lemma Remembered(results: seq<Entry>, admitted: seq<Request>, e: Entry)
    requires ResultsOk(results, admitted) && EntryOk(e, admitted) && |results| <= ResultsMax
    requires forall x :: x in results ==> x.key != e.key
    ensures ResultsOk(Kept(results + [e]), admitted) && |Kept(results + [e])| <= ResultsMax
  {
    assert forall i :: 0 <= i < |results| ==> results[i] in results;
    var more := results + [e];
    assert ResultsOk(more, admitted) by {
      assert forall i :: 0 <= i < |more| ==> more[i] == if i < |results| then results[i] else e;
    }
    Shortened(more, admitted);
  }

  lemma Shortened(results: seq<Entry>, admitted: seq<Request>)
    requires ResultsOk(results, admitted) && results != []
    ensures ResultsOk(results[1..], admitted)
  {
  }

  lemma AdmitKeeps(b: Broker, r: Request, now: int, queued: bool)
    requires BrokerInv(b) && LookUp(b.results, KeyOf(r)).None?
    ensures BrokerInv(Admit(b, r, now, queued).0)
  {
    if r.sequence > Sequence(b, r.client) && (r.client in b.highWater || |b.highWater| < b.maxClients) {
      Raised(b.admitted, b.highWater, r);
      MoreAdmitted(b.results, b.admitted, r);
      assert forall x :: ReplyOk(x, b.admitted) ==> ReplyOk(x, b.admitted + [r]);
      LookUpIs(b.results, KeyOf(r));
      Remembered(b.results, b.admitted + [r], Entry(KeyOf(r), DigestOf(r), now, |b.admitted|));
    }
  }

  lemma AcceptKeeps(b: Broker, r: Request, now: int, authorized: bool, queued: bool)
    requires BrokerInv(b)
    ensures BrokerInv(Accept(b, r, now, authorized, queued).0)
  {
    LiveIs(b.results, now, b.ttl, b.admitted);
    var live := b.(results := Live(b.results, now, b.ttl));
    LookUpIs(live.results, KeyOf(r));
    if LookUp(live.results, KeyOf(r)).None? {
      AdmitKeeps(live, r, now, queued);
    }
  }

  lemma StepKeeps(b: Broker, e: Event)
    requires BrokerInv(b)
    ensures BrokerInv(Step(b, e))
  {
    match e
    case RequestE(r, now, authorized, queued) => AcceptKeeps(b, r, now, authorized, queued);
    case HandleE(_) =>
    case ForgetE(key) => WithoutIs(b.results, key, b.admitted);
  }

  lemma RunKeeps(maxClients: nat, ttl: int, events: seq<Event>)
    ensures BrokerInv(Runs.After(Step, Start(maxClients, ttl), events))
  {
    forall b, e | BrokerInv(b) ensures BrokerInv(Step(b, e)) {
      StepKeeps(b, e);
    }
    Runs.Always(BrokerInv, Step, Start(maxClients, ttl), events);
  }

  // ---------- Main results ----------

  /** Over any run, with entries expiring, evicted, forgotten or replayed, the handler is reached at
      most once for a client's sequence number, and never for a lower one than before. */
  lemma HandledAtMostOnce(maxClients: nat, ttl: int, events: seq<Event>, i: nat, j: nat)
    requires var b := Runs.After(Step, Start(maxClients, ttl), events); i < |b.handled| && j < |b.handled| && i != j
    ensures var b := Runs.After(Step, Start(maxClients, ttl), events);
      && b.handled[i] < |b.admitted| && b.handled[j] < |b.admitted|
      && var r, s := b.admitted[b.handled[i]], b.admitted[b.handled[j]];
         r.client == s.client ==> (r.sequence < s.sequence <==> b.handled[i] < b.handled[j]) && r.sequence != s.sequence
  {
    RunKeeps(maxClients, ttl, events);
    var b := Runs.After(Step, Start(maxClients, ttl), events);
    assert b.handled[i] != b.handled[j];
  }

  /** A replayed result answers a request with the very same digest as the one that produced it. */
  lemma ReplaysMatch(maxClients: nat, ttl: int, events: seq<Event>, i: nat)
    requires i < |Runs.After(Step, Start(maxClients, ttl), events).replies|
    ensures var b := Runs.After(Step, Start(maxClients, ttl), events);
      && b.replies[i].1 < |b.admitted|
      && DigestOf(b.replies[i].0) == DigestOf(b.admitted[b.replies[i].1])
  {
    RunKeeps(maxClients, ttl, events);
  }

  /** Neither table grows without bound. */
  lemma TablesBounded(maxClients: nat, ttl: int, events: seq<Event>)
    ensures var b := Runs.After(Step, Start(maxClients, ttl), events);
      |b.results| <= ResultsMax && |b.highWater| <= b.maxClients
  {
    RunKeeps(maxClients, ttl, events);
  }

  // ---------- Whose result is replayed ----------

  lemma LastColon(a: string, b: string, c: string, d: string)
    requires a + ":" + b == c + ":" + d && ':' !in b && ':' !in d
    ensures a == c && b == d
  {
    var s := a + ":" + b;
    NoColonAfter(a, b);
    NoColonAfter(c, d);
    assert s[|a|] == ':' && s[|c|] == ':';
    assert |a| == |c|;
    assert a == s[..|a|] && b == s[|a| + 1..] && c == s[..|c|] && d == s[|c| + 1..];
  }

  lemma NoColonAfter(a: string, b: string)
    requires ':' !in b
    ensures var s := a + ":" + b; forall k :: |a| < k < |s| ==> s[k] != ':'
  {
    var s := a + ":" + b;
    forall k | |a| < k < |s| ensures s[k] != ':' {
      assert s[k] == b[k - |a| - 1];
      assert b[k - |a| - 1] in b;
    }
  }

  /** Where no request id holds a colon, a result is replayed to the client that asked for it only. */
  lemma ReplayedToItsClient(maxClients: nat, ttl: int, events: seq<Event>, i: nat)
    requires i < |Runs.After(Step, Start(maxClients, ttl), events).replies|
    requires forall e :: e in events && e.RequestE? ==> ':' !in e.request.id
    ensures var b := Runs.After(Step, Start(maxClients, ttl), events);
      && b.replies[i].1 < |b.admitted| && b.replies[i].0 == b.admitted[b.replies[i].1]
  {
    RunKeeps(maxClients, ttl, events);
    var start := Start(maxClients, ttl);
    OnlyPlainIds(start, events);
    var b := Runs.After(Step, start, events);
    var (r, k) := b.replies[i];
    assert ReplyOk(b.replies[i], b.admitted);
    LastColon(r.client, r.id, b.admitted[k].client, b.admitted[k].id);
  }

  predicate PlainIds(b: Broker) {
    && (forall i :: 0 <= i < |b.admitted| ==> ':' !in b.admitted[i].id)
    && (forall i :: 0 <= i < |b.replies| ==> ':' !in b.replies[i].0.id)
  }

  lemma {:induction false} OnlyPlainIds(b: Broker, events: seq<Event>)
    requires PlainIds(b) && forall e :: e in events && e.RequestE? ==> ':' !in e.request.id
    ensures PlainIds(Runs.After(Step, b, events))
    decreases |events|
  {
    if events != [] {
      assert events[0] in events;
      OnlyPlainIds(Step(b, events[0]), events[1..]);
    }
  }

  /** The lengths that the parser of requests accepts. */
  predicate Proper(r: Request) {
    8 <= |r.client| <= 128 && 1 <= |r.id| <= 128
  }

  /** A colon at which a key can be read as a client and an id. */
  predicate SplitsAt(key: string, k: nat) {
    k < |key| && key[k] == ':' && 8 <= k <= 128 && 1 <= |key| - k - 1 <= 128
  }

  ghost predicate SharedBy(r: Request, s: Request) {
    r.client != s.client && KeyOf(r) == KeyOf(s)
  }

  function ReadAt(s: Request, k: nat): Request
    requires k < |KeyOf(s)|
  {
    s.(client := KeyOf(s)[..k], id := KeyOf(s)[k+1..])
  }

  lemma SameKeySplits(r: Request, s: Request)
    requires SharedBy(r, s)
    ensures KeyOf(s)[|r.client|] == ':' && |r.client| != |s.client|
    ensures ':' in s.client || ':' in s.id
  {
    var key, k := KeyOf(s), |r.client|;
    assert key == KeyOf(r) && key[k] == ':';
    assert r.client == key[..|r.client|] && s.client == key[..|s.client|];
    if k < |s.client| {
      assert s.client[k] == key[k];
      assert s.client[k] in s.client;
    } else {
      assert s.id[k - |s.client| - 1] == key[k];
      assert s.id[k - |s.client| - 1] in s.id;
    }
  }

  lemma ReadAtShares(s: Request, k: nat)
    requires k < |KeyOf(s)| && KeyOf(s)[k] == ':' && k != |s.client|
    ensures SharedBy(ReadAt(s, k), s)
  {
    var key := KeyOf(s);
    assert key == key[..k] + ":" + key[k+1..];
  }

  /** Some other client has the key of a request exactly when its client or its id holds a colon. */
  lemma KeySharedExactly(s: Request)
    ensures (exists r :: SharedBy(r, s)) <==> ':' in s.client || ':' in s.id
  {
    if r :| SharedBy(r, s) {
      SameKeySplits(r, s);
    }
    if ':' in s.client {
      var k :| 0 <= k < |s.client| && s.client[k] == ':';
      assert KeyOf(s)[k] == ':';
      ReadAtShares(s, k);
    } else if ':' in s.id {
      var k :| 0 <= k < |s.id| && s.id[k] == ':';
      assert KeyOf(s)[|s.client| + 1 + k] == ':';
      ReadAtShares(s, |s.client| + 1 + k);
    }
  }

  /** The same among requests of the lengths that are accepted. */
  lemma ProperKeySharedExactly(s: Request)
    requires Proper(s)
    ensures (exists r :: Proper(r) && SharedBy(r, s)) <==> exists k: nat :: SplitsAt(KeyOf(s), k) && k != |s.client|
  {
    if r :| Proper(r) && SharedBy(r, s) {
      SameKeySplits(r, s);
      assert |KeyOf(r)| == |KeyOf(s)|;
      assert SplitsAt(KeyOf(s), |r.client|);
    }
    if k: nat :| SplitsAt(KeyOf(s), k) && k != |s.client| {
      ReadAtShares(s, k);
      assert Proper(ReadAt(s, k));
    }
  }

  lemma {:induction false} LiveKeeps(results: seq<Entry>, now: int, ttl: int, e: Entry)
    requires e in results && now - e.acceptedAt < ttl
    ensures e in Live(results, now, ttl)
  {
    if e != results[0] {
      LiveKeeps(results[1..], now, ttl, e);
    }
  }

  lemma {:induction false} LookUpFinds(results: seq<Entry>, admitted: seq<Request>, e: Entry)
    requires ResultsOk(results, admitted) && e in results
    ensures LookUp(results, e.key) == Some(e)
  {
    if e != results[0] {
      var i :| 0 <= i < |results| && results[i] == e;
      assert results[0].key != results[i].key;
      LookUpFinds(results[1..], admitted, e);
    }
  }

  /** Whenever a request is admitted, every request with its key and digest, whichever client sends
      it, is answered with its result for as long as the result lives. */
  lemma SharedKeyReplays(b: Broker, r: Request, s: Request, now: int, later: int)
    requires BrokerInv(b) && KeyOf(r) == KeyOf(s) && DigestOf(r) == DigestOf(s) && later - now < b.ttl
    requires Accept(b, r, now, true, true).1 == Admitted(|b.admitted|)
    ensures var first := Accept(b, r, now, true, true).0;
      && first.admitted[|b.admitted|] == r
      && Accept(first, s, later, true, true).1 == Replayed(|b.admitted|)
  {
    AcceptKeeps(b, r, now, true, true);
    var first := Accept(b, r, now, true, true).0;
    var e := Entry(KeyOf(r), DigestOf(r), now, |b.admitted|);
    assert e in first.results by {
      assert first.results[|first.results|-1] == e;
    }
    LiveIs(first.results, later, b.ttl, first.admitted);
    LiveKeeps(first.results, later, b.ttl, e);
    LookUpFinds(Live(first.results, later, b.ttl), first.admitted, e);
  }
}
