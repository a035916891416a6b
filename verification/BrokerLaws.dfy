/** What a request is answered, exactly: from the cache, by admission, or with a refusal. */
module BrokerLaws {
  import opened Wrappers
  import opened Broker
  import opened BrokerProofs
  import Runs

  /** A result for this request is still alive. */
  ghost predicate Cached(b: Broker, r: Request, now: int, e: Entry) {
    e in b.results && e.key == KeyOf(r) && now - e.acceptedAt < b.ttl
  }

  /** The request is new to the broker: nothing is cached for it, its number is past all that its client
      has used, and the client is known or there is room for another. */
  ghost predicate Fresh(b: Broker, r: Request, now: int) {
    && (forall e :: !Cached(b, r, now, e))
    && (if r.client in b.highWater then r.sequence > b.highWater[r.client]
        else r.sequence > 0 && |b.highWater| < b.maxClients)
  }

  lemma {:induction false} LiveIsAlive(results: seq<Entry>, now: int, ttl: int)
    ensures forall e :: e in Live(results, now, ttl) <==> e in results && now - e.acceptedAt < ttl
    ensures |Live(results, now, ttl)| <= |results|
  {
    if results != [] { LiveIsAlive(results[1..], now, ttl); }
  }

  lemma {:induction false} WithoutIsRest(results: seq<Entry>, key: string)
    ensures forall e :: e in Without(results, key) <==> e in results && e.key != key
  {
    if results != [] { WithoutIsRest(results[1..], key); }
  }

  lemma OneEntry(b: Broker, r: Request, now: int, e: Entry)
    requires BrokerInv(b) && Cached(b, r, now, e)
    ensures LookUp(Live(b.results, now, b.ttl), KeyOf(r)) == Some(e)
  {
    LiveIsAlive(b.results, now, b.ttl);
    LookUpIs(Live(b.results, now, b.ttl), KeyOf(r));
    var f := LookUp(Live(b.results, now, b.ttl), KeyOf(r)).value;
    var i :| 0 <= i < |b.results| && b.results[i] == e;
    var j :| 0 <= j < |b.results| && b.results[j] == f;
  }

  lemma NoEntry(b: Broker, r: Request, now: int)
    requires forall e :: !Cached(b, r, now, e)
    ensures LookUp(Live(b.results, now, b.ttl), KeyOf(r)).None?
  {
    LiveIsAlive(b.results, now, b.ttl);
    LookUpIs(Live(b.results, now, b.ttl), KeyOf(r));
    if LookUp(Live(b.results, now, b.ttl), KeyOf(r)).Some? {
      assert Cached(b, r, now, LookUp(Live(b.results, now, b.ttl), KeyOf(r)).value);
    }
  }

  /** A new request is admitted, uses up its number, and is remembered, unless its queue is full: then
      it is refused, but its number is used up as well. */
  lemma FreshIsAdmitted(b: Broker, r: Request, now: int, authorized: bool, queued: bool)
    requires Fresh(b, r, now)
    ensures var (d, verdict) := Accept(b, r, now, authorized, queued);
      && verdict == (if queued then Admitted(|b.admitted|) else Refused)
      && d.admitted == b.admitted + [r] && d.handled == b.handled && d.replies == b.replies
      && d.highWater == b.highWater[r.client := r.sequence]
      && (queued ==> Entry(KeyOf(r), DigestOf(r), now, |b.admitted|) in d.results)
  {
    NoEntry(b, r, now);
    var live := Live(b.results, now, b.ttl);
    var entry := Entry(KeyOf(r), DigestOf(r), now, |b.admitted|);
    var kept := Kept(live + [entry]);
    assert kept[|kept|-1] == entry;
  }

  /** Where nothing is cached, anything else is refused and changes nothing but what has expired. */
  lemma StaleIsRefused(b: Broker, r: Request, now: int, authorized: bool, queued: bool)
    requires !Fresh(b, r, now) && forall e :: !Cached(b, r, now, e)
    ensures Accept(b, r, now, authorized, queued).1 == Refused
    ensures Accept(b, r, now, authorized, queued).0 == b.(results := Live(b.results, now, b.ttl))
  {
    NoEntry(b, r, now);
  }

  /** Where a result is cached, it is the answer exactly to the same request again, if that is
      authorized; and nothing is admitted. */
  lemma CachedIsReplayed(b: Broker, r: Request, now: int, authorized: bool, queued: bool, e: Entry)
    requires BrokerInv(b) && Cached(b, r, now, e)
    ensures var (d, verdict) := Accept(b, r, now, authorized, queued);
      && d.admitted == b.admitted && d.highWater == b.highWater
      && (if authorized && e.digest == DigestOf(r)
          then verdict == Replayed(e.admission) && d.replies == b.replies + [(r, e.admission)]
          else verdict == Refused && d.replies == b.replies)
  {
    OneEntry(b, r, now, e);
  }

  /** Results go only when they expire, are forgotten, or are the oldest of more than the limit. */
  lemma ResultsStay(b: Broker, r: Request, now: int, authorized: bool, queued: bool, e: Entry)
    requires e in b.results && now - e.acceptedAt < b.ttl
    requires |b.results| < ResultsMax
    ensures e in Accept(b, r, now, authorized, queued).0.results
  {
    LiveIsAlive(b.results, now, b.ttl);
  }

  /** An admitted request reaches the handler, once; forgetting a key takes its result and no other. */
  lemma HandledAndForgotten(b: Broker, i: nat, key: string)
    ensures i < |b.admitted| ==> i in Step(b, HandleE(i)).handled
    ensures forall e :: e in Step(b, ForgetE(key)).results <==> e in b.results && e.key != key
  {
    WithoutIsRest(b.results, key);
    if i < |b.admitted| && i !in b.handled {
      assert (b.handled + [i])[|b.handled|] == i;
    }
  }

  // ---------- The high-water mark ----------

  /** The mark of a client is the number of one of its admitted requests. */
  ghost predicate Marked(b: Broker) {
    && (forall client :: client in b.highWater ==> exists i :: IsMark(b, client, i))
    && (forall i :: 0 <= i < |b.admitted| ==> b.admitted[i].client in b.highWater)
  }

  predicate IsMark(b: Broker, client: string, i: int) {
    && 0 <= i < |b.admitted| && client in b.highWater
    && b.admitted[i].client == client && b.admitted[i].sequence == b.highWater[client]
  }

  lemma MarkedStep(b: Broker, e: Event)
    requires Marked(b)
    ensures Marked(Step(b, e))
  {
    var d := Step(b, e);
    if d.highWater != b.highWater || d.admitted != b.admitted {
      MarkedAdmission(b, d, e.request);
    } else {
      forall client | client in d.highWater ensures exists i :: IsMark(d, client, i) {
        var i :| IsMark(b, client, i);
        assert IsMark(d, client, i);
      }
    }
  }

  lemma MarkedAdmission(b: Broker, d: Broker, r: Request)
    requires Marked(b) && d.admitted == b.admitted + [r] && d.highWater == b.highWater[r.client := r.sequence]
    ensures Marked(d)
  {
    forall client | client in d.highWater ensures exists i :: IsMark(d, client, i) {
      if client == r.client {
        assert IsMark(d, client, |b.admitted|);
      } else {
        var i :| IsMark(b, client, i);
        assert IsMark(d, client, i);
      }
    }
  }

  /** Over every run the mark of a client is the highest number it has had admitted. */
  lemma MarkIsHighest(maxClients: nat, ttl: int, events: seq<Event>, client: string)
    ensures var b := Runs.After(Step, Start(maxClients, ttl), events);
      && (client in b.highWater ==> exists i :: IsMark(b, client, i))
      && forall i :: 0 <= i < |b.admitted| && b.admitted[i].client == client ==>
           client in b.highWater && b.admitted[i].sequence <= b.highWater[client]
  {
    forall b, e | Marked(b) ensures Marked(Step(b, e)) { MarkedStep(b, e); }
    Runs.Always(Marked, Step, Start(maxClients, ttl), events);
    RunKeeps(maxClients, ttl, events);
  }
}
