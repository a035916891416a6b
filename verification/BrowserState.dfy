/** The two durable files, the browser state file and the layout file, and what their readers make
    of them. */
module BrowserState {
  import opened Wrappers

  const RecoveryMax: nat := 100                          // BROWSER_RECOVERY_MAX
  const LayoutMaxBytes: nat := 8 * 1024 * 1024           // LAYOUT_FILE_MAX_BYTES
  const JournalMaxChars: nat := 2 * 1024 * 1024          // the longest journalled text that is read back
  const TransactionIdMax: nat := 128
  const StateMaxBytes: nat := 8 * 1024 * 1024            // BROWSER_STATE_MAX_BYTES
  const RecordMax: nat := 1000                           // BROWSER_STATE_RECORD_MAX

  // ---------- Layout text ----------

  datatype Version = Missing | Number(n: int) | Other
  datatype Json = Malformed | Plain | Object(version: Version, workspacesIsObject: bool, browsers: nat)

  /** A text is known by its content, here a serial number, and by what its readers see in it;
      `quoted` is its length as a string inside another file. */
  datatype Text = Text(serial: nat, chars: nat, bytes: nat, quoted: nat, json: Json)

  predicate Supported(version: Version) {
    version == Number(1) || version == Number(2)
  }

  /** The weaker of the two checks: no version that this program does not know. */
  predicate NoFuture(text: Text) {
    text.bytes <= LayoutMaxBytes && (text.json.Object? ==> text.json.version.Missing? || Supported(text.json.version))
  }

  /** The stronger check: a layout that this program may replace, or install. */
  predicate Writable(text: Text) {
    NoFuture(text) && text.json.Object? && Supported(text.json.version) && text.json.workspacesIsObject
  }

  /** The layout cell as `loadLayoutFile` and the check that follows it accept it. */
  predicate Usable(layout: Option<Text>) {
    layout.Some? ==> layout.value.bytes <= LayoutMaxBytes && (layout.value.chars > 0 ==> Writable(layout.value))
  }

  // ---------- State file ----------

  // Browser ids, numbered in the order in which a state file lists them.
  type BrowserId = nat
  type RecoveryId = nat

  // `bytes` is the length of the text that stands for the value in the state file.
  datatype Profile = Profile(serial: nat, bytes: nat)
  datatype Record = Record(url: string, stateRevision: nat, lastUsedAt: int, bytes: nat)
  datatype RecoveryItem = RecoveryItem(id: RecoveryId, workspace: int, tab: int, url: string, bytes: nat)
  datatype Kind = LegacyLayoutMigration | BrowserAssociation
  datatype Transaction = Transaction(id: string, kind: Kind, expected: Option<Text>, target: Text)

  datatype StateFile = StateFile(
    revision: nat,
    layoutRevision: nat,
    profile: Profile,
    records: map<BrowserId, Record>,
    recovery: seq<RecoveryItem>,
    pending: Option<Transaction>)

  /** What an unreadable state file is taken for; the time of its creation is not modelled. */
  const EmptyState := StateFile(0, 0, Profile(0, 0), map[], [], None)

  // ---------- Reading a state file back ----------

  /** The last of the ids. */
  function Greatest(ids: set<BrowserId>): (g: BrowserId)
    requires ids != {}
    ensures g in ids && forall x :: x in ids ==> x <= g
  {
    assert exists g :: g in ids && forall x :: x in ids ==> x <= g by {
      var g := GreatestExists(ids);
    }
    var g :| g in ids && forall x :: x in ids ==> x <= g;
    g
  }

  lemma {:induction false} GreatestExists(ids: set<BrowserId>) returns (g: BrowserId)
    requires ids != {}
    ensures g in ids && forall x :: x in ids ==> x <= g
    decreases |ids|
  {
    g :| g in ids;
    var rest := ids - {g};
    assert ids == rest + {g};
    if rest != {} {
      var h := GreatestExists(rest);
      if g < h { g := h; }
    }
  }

  lemma OneRecordLess(records: map<BrowserId, Record>, id: BrowserId)
    requires id in records
    ensures |records - {id}| == |records| - 1
  {
    assert (records - {id}).Keys == records.Keys - {id};
  }

  function RecordsBytes(records: map<BrowserId, Record>): nat
    decreases |records|
  {
    if records == map[] then 0
    else
      var last := Greatest(records.Keys);
      OneRecordLess(records, last);
      RecordsBytes(records - {last}) + records[last].bytes
  }

  function RecoveryBytes(items: seq<RecoveryItem>): nat {
    if items == [] then 0 else RecoveryBytes(items[..|items|-1]) + items[|items|-1].bytes
  }

  function Digits(n: nat): nat {
    if n < 10 then 1 else 1 + Digits(n / 10)
  }

  /** The journal entry as the state file spells it: its fixed words, its id and kind, and both whole
      layouts, each quoted. */
  function EntryBytes(tx: Transaction): nat {
    107 + (|tx.id| + 2) + (if tx.kind.BrowserAssociation? then 21 else 25)
    + (if tx.expected.Some? then tx.expected.value.quoted else 4) + tx.target.quoted
  }

  function FileBytes(state: StateFile): nat {
    state.profile.bytes + Digits(state.revision) + Digits(state.layoutRevision)
    + RecordsBytes(state.records) + RecoveryBytes(state.recovery)
    + if state.pending.Some? then EntryBytes(state.pending.value) else 0
  }

  /** What the parser of the state file keeps of a journalled transaction. */
  predicate Retained(tx: Transaction) {
    |tx.id| <= TransactionIdMax && tx.target.chars <= JournalMaxChars
  }

  /** And of the records: the first ones. */
  function FirstRecords(records: map<BrowserId, Record>): map<BrowserId, Record>
    decreases |records|
  {
    if |records| <= RecordMax then records
    else
      var last := Greatest(records.Keys);
      OneRecordLess(records, last);
      FirstRecords(records - {last})
  }

  /** A state as it is read back; a file that is too long is taken for an empty one. */
  function Loaded(state: StateFile): StateFile {
    if FileBytes(state) > StateMaxBytes then EmptyState
    else
      state.(records := FirstRecords(state.records),
             pending := if state.pending.Some? && Retained(state.pending.value) then state.pending else None)
  }

  /** A state that is read back whole, but perhaps for its journal entry. */
  predicate Intact(state: StateFile) {
    FileBytes(state) <= StateMaxBytes && |state.records| <= RecordMax
  }

  // ---------- Facts ----------

  lemma {:induction false} FirstRecordsFit(records: map<BrowserId, Record>)
    ensures |FirstRecords(records)| <= RecordMax
    ensures |records| > RecordMax ==> |FirstRecords(records)| < |records|
    ensures RecordsBytes(FirstRecords(records)) <= RecordsBytes(records)
    decreases |records|
  {
    if |records| > RecordMax {
      var last := Greatest(records.Keys);
      OneRecordLess(records, last);
      FirstRecordsFit(records - {last});
    }
  }

  /** What is read back can be written and read again unchanged. */
  lemma LoadedIsIntact(state: StateFile)
    ensures Intact(Loaded(state)) && Loaded(Loaded(state)) == Loaded(state)
  {
    FirstRecordsFit(state.records);
    assert RecordsBytes(map[]) == 0;
  }

  /** Of the records exactly the first ones are kept, as many as there may be. */
  lemma {:induction false} FirstRecordsAre(records: map<BrowserId, Record>)
    ensures var kept := FirstRecords(records);
      && (forall id :: id in kept ==> id in records && kept[id] == records[id])
      && (forall x, y :: x in kept && y in records && y !in kept ==> x < y)
      && |kept| == if |records| < RecordMax then |records| else RecordMax
    decreases |records|
  {
    if |records| > RecordMax {
      var last := Greatest(records.Keys);
      OneRecordLess(records, last);
      FirstRecordsAre(records - {last});
    }
  }
}
