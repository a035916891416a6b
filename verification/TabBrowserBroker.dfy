/** The admission part of `TabBrowserBrokerServer` as the source writes it. */
module TabBrowserBroker {
  import opened Wrappers
  import opened Broker
  import B = Broker
  import BrokerProofs

  class TabBrowserBrokerServer {
    const maxClients: nat
    const ttl: int
    var highWater: map<string, nat>
    var results: seq<Entry>
    var admitted: seq<Request>
    var handled: seq<nat>
    var replies: seq<(Request, nat)>

    function Model(): Broker
      reads this
    {
      Broker(maxClients, ttl, highWater, results, admitted, handled, replies)
    }

    constructor (maxClients: nat, ttl: int)
      ensures Model() == Start(maxClients, ttl)
    {
      this.maxClients, this.ttl := maxClients, ttl;
      highWater, results, admitted, handled, replies := map[], [], [], [], [];
    }

    /** Expired results are dropped before every look-up. */
    method DropExpired(now: int)
      modifies this`results
      ensures results == Live(old(results), now, ttl)
    {
      var kept: seq<Entry> := [];
      var i := 0;
      while i < |results|
        invariant i <= |results| && results == old(results)
        invariant kept + Live(results[i..], now, ttl) == Live(results, now, ttl)
      {
        assert results[i..][1..] == results[i+1..];
        if now - results[i].acceptedAt < ttl {
          kept := kept + [results[i]];
        }
        i := i + 1;
      }
      results := kept;
    }

    method Find(key: string) returns (r: Option<Entry>)
      ensures r == LookUp(results, key)
    {
      var i := 0;
      while i < |results|
        invariant i <= |results| && LookUp(results, key) == LookUp(results[i..], key)
      {
        assert results[i..][1..] == results[i+1..];
        if results[i].key == key { return Some(results[i]); }
        i := i + 1;
      }
      return None;
    }

    method Accept(r: Request, now: int, authorized: bool, queued: bool) returns (verdict: Verdict)
      modifies this
      ensures (Model(), verdict) == B.Accept(old(Model()), r, now, authorized, queued)
      ensures BrokerInv(old(Model())) ==> BrokerInv(Model())
    {
      if BrokerInv(Model()) { BrokerProofs.StepKeeps(Model(), RequestE(r, now, authorized, queued)); }
      DropExpired(now);
      var cached := Find(KeyOf(r));
      if cached.Some? {
        if cached.value.digest != DigestOf(r) { return Refused; }
        if !authorized { return Refused; }
        replies := replies + [(r, cached.value.admission)];
        return Replayed(cached.value.admission);
      }
      var known := r.client in highWater;
      var previous := if known then highWater[r.client] else 0;
      if r.sequence <= previous { return Refused; }
      if !known && |highWater| >= maxClients { return Refused; }
      highWater := highWater[r.client := r.sequence];
      var admission := |admitted|;
      admitted := admitted + [r];
      if !queued { return Refused; }
      results := results + [Entry(KeyOf(r), DigestOf(r), now, admission)];
      if |results| > ResultsMax {
        results := results[1..];
      }
      return Admitted(admission);
    }

    method Handle(admission: nat)
      modifies this`handled
      ensures Model() == Step(old(Model()), HandleE(admission))
      ensures BrokerInv(old(Model())) ==> BrokerInv(Model())
    {
      if BrokerInv(Model()) { BrokerProofs.StepKeeps(Model(), HandleE(admission)); }
      if admission < |admitted| && admission !in handled {
        handled := handled + [admission];
      }
    }

    method Forget(key: string)
      modifies this`results
      ensures Model() == Step(old(Model()), ForgetE(key))
      ensures BrokerInv(old(Model())) ==> BrokerInv(Model())
    {
      if BrokerInv(Model()) { BrokerProofs.StepKeeps(Model(), ForgetE(key)); }
      var kept: seq<Entry> := [];
      var i := 0;
      while i < |results|
        invariant i <= |results| && results == old(results)
        invariant kept + Without(results[i..], key) == Without(results, key)
      {
        assert results[i..][1..] == results[i+1..];
        if results[i].key != key {
          kept := kept + [results[i]];
        }
        i := i + 1;
      }
      results := kept;
    }
  }
}
