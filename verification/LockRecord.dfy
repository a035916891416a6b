/** The text of a layout lock: what is written, and exactly what is accepted. */
module LockRecord {
  import opened Wrappers

  const Protocol: string := "amber-layout-lock-v1"
  const PidMax: nat := 0xffff_ffff

  datatype Record = Record(pid: nat, start: string, token: string)

  // ---------- Numbers and names ----------

  predicate IsDigit(c: char) {
    '0' <= c <= '9'
  }

  predicate AllDigits(s: string) {
    s != [] && forall i :: 0 <= i < |s| ==> IsDigit(s[i])
  }

  function Value(s: string): nat
    requires forall i :: 0 <= i < |s| ==> IsDigit(s[i])
  {
    if s == [] then 0
    else
      assert IsDigit(s[|s|-1]);
      Value(s[..|s|-1]) * 10 + (s[|s|-1] as int - '0' as int)
  }

  function Decimal(n: nat): (s: string)
    ensures AllDigits(s)
  {
    (if n < 10 then "" else Decimal(n / 10)) + [('0' as nat + n % 10) as char]
  }

  predicate IsNameChar(c: char) {
    'A' <= c <= 'Z' || 'a' <= c <= 'z' || IsDigit(c) || c in "_.:-"
  }

  predicate IsName(s: string) {
    1 <= |s| <= 256 && forall i :: 0 <= i < |s| ==> IsNameChar(s[i])
  }

  predicate Valid(r: Record) {
    0 < r.pid <= PidMax && IsName(r.start) && IsName(r.token)
  }

  // ---------- Lines ----------

  function Split(text: string): (lines: seq<string>)
    ensures lines != []
  {
    if text == [] then [""]
    else
      var rest := Split(text[1..]);
      if text[0] == '\n' then [""] + rest else [[text[0]] + rest[0]] + rest[1..]
  }

  function Join(lines: seq<string>): string
    requires lines != []
  {
    if |lines| == 1 then lines[0] else lines[0] + "\n" + Join(lines[1..])
  }

  function IndexOf(s: string, c: char): (i: nat)
    ensures i <= |s| && c !in s[..i] && (i < |s| ==> s[i] == c)
  {
    if s == [] || s[0] == c then 0
    else
      var i := 1 + IndexOf(s[1..], c);
      assert s[..i] == [s[0]] + s[1..][..i-1];
      i
  }

  const Names: set<string> := {"pid", "start", "token"}

  /** The key of a line is what stands before its first equals sign. */
  function KeyOf(line: string): Option<string> {
    var i := IndexOf(line, '=');
    if 0 < i < |line| then Some(line[..i]) else None
  }

  function ValueOf(line: string): string
    requires KeyOf(line).Some?
  {
    line[IndexOf(line, '=') + 1..]
  }

  function Line(key: string, value: string): string {
    key + "=" + value
  }

  // ---------- Format and parse ----------

  function Format(r: Record): string {
    Protocol + "\npid=" + Decimal(r.pid) + "\nstart=" + r.start + "\ntoken=" + r.token + "\n"
  }

  /** The fields of the lines; an unknown or repeated key spoils them all. */
  function Fields(lines: seq<string>): Option<map<string, string>> {
    if lines == [] then Some(map[])
    else
      var n := |lines| - 1;
      match Fields(lines[..n])
      case None => None
      case Some(values) =>
        var key := KeyOf(lines[n]);
        if key.None? || key.value !in Names || key.value in values then None
        else Some(values[key.value := ValueOf(lines[n])])
  }

  function Checked(values: map<string, string>): Option<Record> {
    if "pid" !in values || "start" !in values || "token" !in values then None
    else if !AllDigits(values["pid"]) || !IsName(values["start"]) || !IsName(values["token"]) then None
    else
      var pid := Value(values["pid"]);
      if 0 < pid <= PidMax then Some(Record(pid, values["start"], values["token"])) else None
  }

  function Parse(text: string): Option<Record> {
    var lines := Split(text);
    if lines[|lines|-1] != "" || lines[0] != Protocol then None
    else
      assert |lines| >= 2;
      match Fields(lines[1..|lines|-1])
      case None => None
      case Some(values) => Checked(values)
  }

  /** The parser as the source writes it, a loop that fills a table. */
  method ParseLayoutLockRecord(text: string) returns (r: Option<Record>)
    ensures r == Parse(text)
  {
    var lines := Split(text);
    if lines[|lines|-1] != "" || lines[0] != Protocol { return None; }
    assert |lines| >= 2;
    var fields := lines[1..|lines|-1];
    var values: map<string, string> := map[];
    var i := 0;
    while i < |fields|
      invariant i <= |fields| && Fields(fields[..i]) == Some(values)
    {
      assert fields[..i+1][..i] == fields[..i];
      var key := KeyOf(fields[i]);
      if key.None? || key.value !in Names || key.value in values {
        SpoiledStaysSpoiled(fields, i + 1);
        return None;
      }
      values := values[key.value := ValueOf(fields[i])];
      i := i + 1;
    }
    assert fields[..i] == fields;
    return Checked(values);
  }

  lemma {:induction false} SpoiledStaysSpoiled(lines: seq<string>, k: nat)
    requires k <= |lines| && Fields(lines[..k]).None?
    ensures Fields(lines).None?
    decreases |lines|
  {
    if k < |lines| {
      assert lines[..|lines|-1][..k] == lines[..k];
      SpoiledStaysSpoiled(lines[..|lines|-1], k);
    } else {
      assert lines[..k] == lines;
    }
  }

  // ---------- Facts ----------

  lemma {:induction false} ValueOfDecimal(n: nat)
    ensures Value(Decimal(n)) == n
  {
    var s, lead := Decimal(n), if n < 10 then "" else Decimal(n / 10);
    var last := ('0' as nat + n % 10) as char;
    assert s == lead + [last] && s[..|s|-1] == lead && s[|s|-1] == last;
    if n >= 10 {
      ValueOfDecimal(n / 10);
    }
    assert Value(lead) == n / 10;
    assert last as int - '0' as int == n % 10;
  }

  lemma {:induction false} JoinSplit(text: string)
    ensures Join(Split(text)) == text
    ensures forall i :: 0 <= i < |Split(text)| ==> '\n' !in Split(text)[i]
  {
    if text != [] {
      JoinSplit(text[1..]);
      var rest := Split(text[1..]);
      if text[0] != '\n' && |rest| > 1 {
        assert Split(text)[1..] == rest[1..];
      }
    }
  }

  lemma {:induction false} SplitOne(line: string)
    requires '\n' !in line
    ensures Split(line) == [line]
  {
    if line != [] {
      assert line[0] in line && line == [line[0]] + line[1..];
      SplitOne(line[1..]);
    }
  }

  lemma {:induction false} SplitFirst(line: string, text: string)
    requires '\n' !in line
    ensures Split(line + "\n" + text) == [line] + Split(text)
  {
    var all := line + "\n" + text;
    if line == [] {
      assert all[1..] == text;
    } else {
      assert line[0] in line && line == [line[0]] + line[1..];
      assert all[1..] == line[1..] + "\n" + text;
      SplitFirst(line[1..], text);
      assert ([line[1..]] + Split(text))[1..] == Split(text);
    }
  }

  lemma {:induction false} SplitJoin(lines: seq<string>)
    requires lines != [] && forall i :: 0 <= i < |lines| ==> '\n' !in lines[i]
    ensures Split(Join(lines)) == lines
  {
    if |lines| == 1 {
      SplitOne(lines[0]);
    } else {
      SplitJoin(lines[1..]);
      SplitFirst(lines[0], Join(lines[1..]));
    }
  }

  lemma KeyOfLine(key: string, value: string)
    requires key != [] && '=' !in key
    ensures KeyOf(Line(key, value)) == Some(key) && ValueOf(Line(key, value)) == value
  {
    var line := Line(key, value);
    assert line[..|key|] == key && line[|key| + 1..] == value;
    IndexIs(line, '=', |key|);
  }

  lemma {:induction false} IndexIs(s: string, c: char, i: nat)
    requires i < |s| && s[i] == c && c !in s[..i]
    ensures IndexOf(s, c) == i
  {
    if i > 0 {
      assert s[..i][0] == s[0] && s[..i][1..] == s[1..][..i-1];
      IndexIs(s[1..], c, i - 1);
    }
  }

  lemma LineOfKey(line: string)
    requires KeyOf(line).Some?
    ensures line == Line(KeyOf(line).value, ValueOf(line))
  {
  }

  predicate KeysOk(lines: seq<string>) {
    && (forall i :: 0 <= i < |lines| ==> KeyOf(lines[i]).Some? && KeyOf(lines[i]).value in Names)
    && (forall i, j :: 0 <= i < j < |lines| ==> KeyOf(lines[i]) != KeyOf(lines[j]))
  }

  predicate Agree(lines: seq<string>, values: map<string, string>) {
    && (forall i :: 0 <= i < |lines| && KeyOf(lines[i]).Some? ==>
          KeyOf(lines[i]).value in values && values[KeyOf(lines[i]).value] == ValueOf(lines[i]))
    && (forall k :: k in values ==> HasKey(lines, k))
  }

  predicate HasKey(lines: seq<string>, key: string) {
    exists i :: 0 <= i < |lines| && KeyOf(lines[i]) == Some(key)
  }

  /** Lines have fields exactly when their keys are known and distinct, and then each line gives one. */
  lemma {:induction false} FieldsAre(lines: seq<string>)
    ensures Fields(lines).Some? <==> KeysOk(lines)
    ensures Fields(lines).Some? ==> Agree(lines, Fields(lines).value)
  {
    if lines != [] {
      var n := |lines| - 1;
      FieldsAre(lines[..n]);
      assert lines == lines[..n] + [lines[n]];
      LastKey(lines[..n], lines[n]);
      if Fields(lines).Some? {
        AgreeMore(lines[..n], lines[n], Fields(lines[..n]).value);
      }
    }
  }

  lemma LastKey(lines: seq<string>, last: string)
    ensures KeysOk(lines + [last]) <==>
      KeysOk(lines) && KeyOf(last).Some? && KeyOf(last).value in Names && !HasKey(lines, KeyOf(last).value)
  {
    var all := lines + [last];
    assert forall i :: 0 <= i < |lines| ==> all[i] == lines[i];
    assert all[|lines|] == last;
  }

  lemma AgreeMore(lines: seq<string>, last: string, values: map<string, string>)
    requires Agree(lines, values) && KeyOf(last).Some? && KeyOf(last).value !in values
    ensures Agree(lines + [last], values[KeyOf(last).value := ValueOf(last)])
  {
    var all, more := lines + [last], values[KeyOf(last).value := ValueOf(last)];
    assert forall i :: 0 <= i < |lines| ==> all[i] == lines[i];
    forall k | k in more ensures HasKey(all, k) {
      if k == KeyOf(last).value {
        assert all[|lines|] == last;
      } else {
        assert HasKey(lines, k);
      }
    }
  }

  // ---------- What is accepted ----------

  /** The header, the three lines in some order, and a final newline. */
  ghost predicate IsRecordText(text: string, r: Record, pidText: string, lines: seq<string>) {
    && InSomeOrder(lines, Line("pid", pidText), Line("start", r.start), Line("token", r.token))
    && text == Join([Protocol] + lines + [""])
    && AllDigits(pidText) && Value(pidText) == r.pid && Valid(r)
  }

  predicate InSomeOrder(lines: seq<string>, a: string, b: string, c: string) {
    || lines == [a, b, c] || lines == [a, c, b] || lines == [b, a, c]
    || lines == [b, c, a] || lines == [c, a, b] || lines == [c, b, a]
  }

  predicate OneOf(i: int, p: int, s: int, t: int) {
    i == p || i == s || i == t
  }

  /** Lines with distinct keys that name all three fields are three lines, one for each. */
  lemma ThreeLines(lines: seq<string>, values: map<string, string>)
    requires KeysOk(lines) && Agree(lines, values) && "pid" in values && "start" in values && "token" in values
    ensures InSomeOrder(lines, Line("pid", values["pid"]), Line("start", values["start"]),
      Line("token", values["token"]))
  {
    var p := KeyIndex(lines, values, "pid");
    var s := KeyIndex(lines, values, "start");
    var t := KeyIndex(lines, values, "token");
    forall i: nat | i < |lines| ensures OneOf(i, p, s, t) {
      assert KeyOf(lines[i]).value in Names;
      assert i != p ==> KeyOf(lines[i]) != KeyOf(lines[p]);
      assert i != s ==> KeyOf(lines[i]) != KeyOf(lines[s]);
      assert i != t ==> KeyOf(lines[i]) != KeyOf(lines[t]);
    }
    OnlyThree(|lines|, p, s, t);
    Arranged(lines, p, s, t);
  }

  lemma Arranged(lines: seq<string>, p: nat, s: nat, t: nat)
    requires |lines| == 3 && p < 3 && s < 3 && t < 3 && p != s && s != t && p != t
    ensures InSomeOrder(lines, lines[p], lines[s], lines[t])
  {
    assert lines == [lines[0], lines[1], lines[2]];
  }

  lemma KeyIndex(lines: seq<string>, values: map<string, string>, key: string) returns (i: nat)
    requires KeysOk(lines) && Agree(lines, values) && key in values
    ensures i < |lines| && KeyOf(lines[i]) == Some(key) && lines[i] == Line(key, values[key])
  {
    assert HasKey(lines, key);
    i :| 0 <= i < |lines| && KeyOf(lines[i]) == Some(key);
    LineOfKey(lines[i]);
  }

  lemma OnlyThree(n: nat, p: nat, s: nat, t: nat)
    requires p < n && s < n && t < n && p != s && s != t && p != t
    requires forall i: nat :: i < n ==> OneOf(i, p, s, t)
    ensures n == 3
  {
    assert n > 3 ==> OneOf(0, p, s, t) && OneOf(1, p, s, t) && OneOf(2, p, s, t) && OneOf(3, p, s, t);
  }

  lemma ParsedLines(text: string)
    requires Parse(text).Some?
    ensures var lines := Split(text);
      |lines| >= 2 && text == Join([Protocol] + lines[1..|lines|-1] + [""])
  {
    JoinSplit(text);
    var lines := Split(text);
    assert |lines| >= 2;
    assert lines == [lines[0]] + lines[1..|lines|-1] + [lines[|lines|-1]];
  }

  /** Whatever is parsed is a record text: no duplicated or unknown line can shadow a value. */
  lemma ParsedIsRecord(text: string) returns (pidText: string, lines: seq<string>)
    requires Parse(text).Some?
    ensures IsRecordText(text, Parse(text).value, pidText, lines)
  {
    ParsedLines(text);
    lines := Split(text)[1..|Split(text)|-1];
    FieldsAre(lines);
    var values := Fields(lines).value;
    ThreeLines(lines, values);
    pidText := values["pid"];
  }

  lemma RecordLines(r: Record, pidText: string, lines: seq<string>)
    requires AllDigits(pidText) && Valid(r)
    requires InSomeOrder(lines, Line("pid", pidText), Line("start", r.start), Line("token", r.token))
    ensures KeysOk(lines) && HasKey(lines, "pid") && HasKey(lines, "start") && HasKey(lines, "token")
    ensures forall i :: 0 <= i < |lines| ==> '\n' !in lines[i]
  {
    KeyOfLine("pid", pidText);
    KeyOfLine("start", r.start);
    KeyOfLine("token", r.token);
    OneLine("pid", pidText);
    OneLine("start", r.start);
    OneLine("token", r.token);
    InOrderKeys(lines, Line("pid", pidText), Line("start", r.start), Line("token", r.token));
  }

  lemma OneLine(key: string, value: string)
    requires '\n' !in key && '\n' !in value
    ensures '\n' !in Line(key, value)
  {
  }

  lemma InOrderKeys(lines: seq<string>, a: string, b: string, c: string)
    requires InSomeOrder(lines, a, b, c)
    requires KeyOf(a) == Some("pid") && KeyOf(b) == Some("start") && KeyOf(c) == Some("token")
    ensures KeysOk(lines) && HasKey(lines, "pid") && HasKey(lines, "start") && HasKey(lines, "token")
  {
    assert KeyOf(lines[0]).Some? && KeyOf(lines[1]).Some? && KeyOf(lines[2]).Some?;
    assert "pid" != "start" && "start" != "token" && "pid" != "token";
    KeysDiffer(lines, KeyOf(lines[0]), KeyOf(lines[1]), KeyOf(lines[2]));
  }

  lemma KeysDiffer(lines: seq<string>, a: Option<string>, b: Option<string>, c: Option<string>)
    requires |lines| == 3 && a == KeyOf(lines[0]) && b == KeyOf(lines[1]) && c == KeyOf(lines[2])
    requires a != b && b != c && a != c
    ensures forall i, j :: 0 <= i < j < |lines| ==> KeyOf(lines[i]) != KeyOf(lines[j])
  {
  }

  /** Every record text is parsed to its record. */
  lemma RecordIsParsed(text: string, r: Record, pidText: string, lines: seq<string>)
    requires IsRecordText(text, r, pidText, lines)
    ensures Parse(text) == Some(r)
  {
    RecordLines(r, pidText, lines);
    SplitRecord(text, lines);
    FieldsAre(lines);
    ValuesAre(r, pidText, lines, Fields(lines).value);
  }

  lemma SplitRecord(text: string, lines: seq<string>)
    requires text == Join([Protocol] + lines + [""]) && forall i :: 0 <= i < |lines| ==> '\n' !in lines[i]
    ensures var all := Split(text);
      |all| == |lines| + 2 && all[0] == Protocol && all[|all|-1] == "" && all[1..|all|-1] == lines
  {
    var all := [Protocol] + lines + [""];
    SplitJoin(all);
    assert all[1..|all|-1] == lines;
  }

  lemma ValuesAre(r: Record, pidText: string, lines: seq<string>, values: map<string, string>)
    requires InSomeOrder(lines, Line("pid", pidText), Line("start", r.start), Line("token", r.token))
    requires KeysOk(lines) && Agree(lines, values)
    ensures "pid" in values && "start" in values && "token" in values
    ensures values["pid"] == pidText && values["start"] == r.start && values["token"] == r.token
  {
    KeyOfLine("pid", pidText);
    KeyOfLine("start", r.start);
    KeyOfLine("token", r.token);
    assert forall i :: 0 <= i < |lines| ==> KeyOf(lines[i]).value in values;
    assert lines[0] in lines && lines[1] in lines && lines[2] in lines;
  }

  /** The texts that are accepted, exactly. */
  lemma AcceptsExactly(text: string, r: Record)
    ensures Parse(text) == Some(r) <==> exists pidText, lines :: IsRecordText(text, r, pidText, lines)
  {
    if Parse(text) == Some(r) {
      var pidText, lines := ParsedIsRecord(text);
    }
    forall pidText, lines | IsRecordText(text, r, pidText, lines) ensures Parse(text) == Some(r) {
      RecordIsParsed(text, r, pidText, lines);
    }
  }

  lemma FormatJoins(r: Record)
    ensures Format(r) == Join([Protocol, Line("pid", Decimal(r.pid)), Line("start", r.start),
      Line("token", r.token), ""])
  {
    var pid, start, token := Line("pid", Decimal(r.pid)), Line("start", r.start), Line("token", r.token);
    JoinFive(Protocol, pid, start, token, "");
    NextLine(Protocol, "\npid=", "pid", Decimal(r.pid));
    NextLine(Protocol + "\n" + pid, "\nstart=", "start", r.start);
    NextLine(Protocol + "\n" + pid + "\n" + start, "\ntoken=", "token", r.token);
  }

  lemma NextLine(before: string, lead: string, key: string, value: string)
    requires lead == "\n" + key + "="
    ensures before + lead + value == before + "\n" + Line(key, value)
  {
  }

  /** What is written is read back. */
  lemma RoundTrip(r: Record)
    requires Valid(r)
    ensures Parse(Format(r)) == Some(r)
  {
    var lines := [Line("pid", Decimal(r.pid)), Line("start", r.start), Line("token", r.token)];
    ValueOfDecimal(r.pid);
    FormatJoins(r);
    assert [Protocol] + lines + [""] == [Protocol, lines[0], lines[1], lines[2], ""];
    RecordIsParsed(Format(r), r, Decimal(r.pid), lines);
  }

  lemma JoinFive(a: string, b: string, c: string, d: string, e: string)
    ensures Join([a, b, c, d, e]) == a + "\n" + b + "\n" + c + "\n" + d + "\n" + e
  {
    var all := [a, b, c, d, e];
    assert all[1..] == [b, c, d, e] && [b, c, d, e][1..] == [c, d, e] && [c, d, e][1..] == [d, e] && [d, e][1..] == [e];
    assert Join([d, e]) == d + "\n" + e;
    assert Join([c, d, e]) == c + "\n" + (d + "\n" + e);
    assert Join([b, c, d, e]) == b + "\n" + (c + "\n" + (d + "\n" + e));
  }
}
