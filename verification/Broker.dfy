/** Admission of broker requests: the sequence high-water marks and the cache of results. */
module Broker {
  import opened Wrappers

  const ResultsMax: nat := 256

  datatype Request = Request(client: string, id: string, sequence: nat, session: string, action: nat)

  /** The digest covers the sequence, the session and the action, and not the client. */
  datatype Digest = Digest(sequence: nat, session: string, action: nat)

  datatype Entry = Entry(key: string, digest: Digest, acceptedAt: int, admission: nat)

  datatype Verdict = Admitted(admission: nat) | Replayed(admission: nat) | Refused

  datatype Broker = Broker(
    maxClients: nat,
    ttl: int,
    highWater: map<string, nat>,
    results: seq<Entry>,                 // in insertion order
    admitted: seq<Request>,              // every request ever admitted
    handled: seq<nat>,                   // the admissions that have reached the handler
    replies: seq<(Request, nat)>)        // requests answered with the result of an admission

  datatype Event =
    | RequestE(request: Request, now: int, authorized: bool, queued: bool)
    | HandleE(admission: nat)
    | ForgetE(key: string)               // cancelled, timed out, delivered as binary, or closed

  function DigestOf(r: Request): Digest {
    Digest(r.sequence, r.session, r.action)
  }

  function KeyOf(r: Request): string {
    r.client + ":" + r.id
  }

  function Live(results: seq<Entry>, now: int, ttl: int): seq<Entry> {
    if results == [] then []
    else if now - results[0].acceptedAt >= ttl then Live(results[1..], now, ttl)
    else [results[0]] + Live(results[1..], now, ttl)
  }

  function Without(results: seq<Entry>, key: string): seq<Entry> {
    if results == [] then []
    else if results[0].key == key then Without(results[1..], key)
    else [results[0]] + Without(results[1..], key)
  }

  function LookUp(results: seq<Entry>, key: string): Option<Entry> {
    if results == [] then None else if results[0].key == key then Some(results[0]) else LookUp(results[1..], key)
  }

  function Kept(results: seq<Entry>): seq<Entry> {
    if |results| > ResultsMax then results[1..] else results
  }

  function Sequence(b: Broker, client: string): nat {
    if client in b.highWater then b.highWater[client] else 0
  }

  /** A request that is not cached is admitted when its sequence is new; it is remembered unless its
      queue is full. */
  function Admit(b: Broker, r: Request, now: int, queued: bool): (Broker, Verdict) {
    if r.sequence <= Sequence(b, r.client) then (b, Refused)
    else if r.client !in b.highWater && |b.highWater| >= b.maxClients then (b, Refused)
    else
      var raised := b.(highWater := b.highWater[r.client := r.sequence], admitted := b.admitted + [r]);
      if !queued then (raised, Refused)
      else
        var entry := Entry(KeyOf(r), DigestOf(r), now, |b.admitted|);
        (raised.(results := Kept(b.results + [entry])), Admitted(|b.admitted|))
  }

  function Accept(b: Broker, r: Request, now: int, authorized: bool, queued: bool): (Broker, Verdict) {
    var live := b.(results := Live(b.results, now, b.ttl));
    var cached := LookUp(live.results, KeyOf(r));
    if cached.None? then Admit(live, r, now, queued)
    else if cached.value.digest != DigestOf(r) || !authorized then (live, Refused)
    else (live.(replies := live.replies + [(r, cached.value.admission)]), Replayed(cached.value.admission))
  }

  function Step(b: Broker, e: Event): Broker {
    match e
    case RequestE(r, now, authorized, queued) => Accept(b, r, now, authorized, queued).0
    case HandleE(i) => if i < |b.admitted| && i !in b.handled then b.(handled := b.handled + [i]) else b
    case ForgetE(key) => b.(results := Without(b.results, key))
  }

  function Start(maxClients: nat, ttl: int): Broker {
    Broker(maxClients, ttl, map[], [], [], [], [])
  }

  // ---------- Invariant ----------

  /** The sequences admitted for one client ascend, up to its high-water mark. */
  ghost predicate Ascending(admitted: seq<Request>, highWater: map<string, nat>) {
    && (forall i :: 0 <= i < |admitted| ==>
          admitted[i].client in highWater && admitted[i].sequence <= highWater[admitted[i].client])
    && (forall i, j :: 0 <= i < j < |admitted| && admitted[i].client == admitted[j].client ==>
          admitted[i].sequence < admitted[j].sequence)
  }

  /** A cached result belongs to the admission with its key and digest. */
  predicate EntryOk(e: Entry, admitted: seq<Request>) {
    e.admission < |admitted| && e.key == KeyOf(admitted[e.admission]) && e.digest == DigestOf(admitted[e.admission])
  }

  predicate ResultsOk(results: seq<Entry>, admitted: seq<Request>) {
    && (forall i :: 0 <= i < |results| ==> EntryOk(results[i], admitted))
    && (forall i, j :: 0 <= i < j < |results| ==> results[i].key != results[j].key)
  }

  predicate ReplyOk(reply: (Request, nat), admitted: seq<Request>) {
    && reply.1 < |admitted|
    && DigestOf(reply.0) == DigestOf(admitted[reply.1]) && KeyOf(reply.0) == KeyOf(admitted[reply.1])
  }

  ghost predicate BrokerInv(b: Broker) {
    && Ascending(b.admitted, b.highWater)
    && ResultsOk(b.results, b.admitted) && |b.results| <= ResultsMax
    && (forall i :: 0 <= i < |b.replies| ==> ReplyOk(b.replies[i], b.admitted))
    && (forall i :: 0 <= i < |b.handled| ==> b.handled[i] < |b.admitted|)
    && (forall i, j :: 0 <= i < j < |b.handled| ==> b.handled[i] != b.handled[j])
    && |b.highWater| <= b.maxClients
  }
}
