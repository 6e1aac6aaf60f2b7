/** EagerResult.String, stringifyRecords and stringifySummary. Go's `%q` (quoting a
    string) and `%v` (of a database value) are supplied as renderers. */
module Format {
  import opened Wrappers
  import opened Text
  import opened Work

  datatype Renderers = Renderers(quote: string -> string, show: Value -> string)

  const NotAvailable := "<N/A>"

  /** `"%q: %v"` of one key and its value, `<N/A>` when the lookup fails. */
  function EntryText(record: Record, key: string, r: Renderers): string
  {
    r.quote(key) + ": " + (match record.Get(key) case Some(v) => r.show(v) case None => NotAvailable)
  }

  function Entries(record: Record, r: Renderers): (entries: seq<string>)
    ensures |entries| == |record.keys|
  {
    seq(|record.keys|, i requires 0 <= i < |record.keys| => EntryText(record, record.keys[i], r))
  }

  /** One record: its entries in key order, comma separated, inside braces. */
  function RecordText(record: Record, r: Renderers): string
  {
    "{" + Join(Entries(record, r), ',') + "}"
  }

  /** The records' texts one after another, with nothing between them. */
  function RecordsText(records: seq<Record>, r: Renderers): string
    decreases |records|
  {
    if |records| == 0 then ""
    else RecordsText(records[..|records| - 1], r) + RecordText(records[|records| - 1], r)
  }

  /** What the inner loop has written after `j` of the entries: each entry followed
      by a comma, except that the last entry of the record gets none. */
  ghost function Written(entries: seq<string>, j: nat): string
    requires j <= |entries|
  {
    if j == 0 then "" else Join(entries[..j], ',') + (if j < |entries| then "," else "")
  }

  lemma WrittenStep(entries: seq<string>, j: nat)
    requires j < |entries|
    ensures Written(entries, j + 1) == Written(entries, j) + entries[j] + (if j == |entries| - 1 then "" else ",")
  {
    JoinPrefixStep(entries, ',', j);
  }

  /** stringifyRecords: the outer loop, one record after another into one builder. */
  method StringifyRecords(records: seq<Record>, r: Renderers) returns (s: string)
    ensures s == RecordsText(records, r)
  {
    var builder := "";
    for i := 0 to |records|
      invariant builder == RecordsText(records[..i], r)
    {
      builder := WriteRecord(builder, records[i], r);
      RecordsTextStep(records, i, r);
    }
    assert records[..|records|] == records;
    s := builder;
  }

  /** The body of the outer loop of stringifyRecords: an opening brace, the inner loop
      over the record's keys choosing each value and separator, a closing brace. */
  method WriteRecord(builder: string, record: Record, r: Renderers) returns (b: string)
    ensures b == builder + RecordText(record, r)
  {
    ghost var entries := Entries(record, r);
    var n := |record.keys|;
    b := builder + "{";
    for j := 0 to n
      invariant b == builder + "{" + Written(entries, j)
    {
      var key := record.keys[j];
      var value := match record.Get(key) case Some(v) => r.show(v) case None => NotAvailable;
      var separator := ",";
      if j == n - 1 {
        separator := "";
      }
      var entry := r.quote(key) + ": " + value;
      assert entry == entries[j];
      WrittenStep(entries, j);
      b := b + entry + separator;
    }
    b := b + "}";
    assert Written(entries, n) == Join(entries, ',') by { assert entries[..n] == entries; }
  }

  lemma RecordsTextStep(records: seq<Record>, i: nat, r: Renderers)
    requires i < |records|
    ensures RecordsText(records[..i + 1], r) == RecordsText(records[..i], r) + RecordText(records[i], r)
  {
    assert records[..i + 1][..i] == records[..i];
  }

  lemma {:induction false} RecordsTextAppend(a: seq<Record>, b: seq<Record>, r: Renderers)
    ensures RecordsText(a + b, r) == RecordsText(a, r) + RecordsText(b, r)
    decreases |b|
  {
    if |b| == 0 {
      assert a + b == a;
    } else {
      var n := |b|;
      assert (a + b)[..|a + b| - 1] == a + b[..n - 1];
      RecordsTextAppend(a, b[..n - 1], r);
    }
  }

  /** Inside a record's braces the entries are separated by commas with none after
      the last: splitting the inner text at ',' gives back the entries, in key order,
      when no entry itself contains a comma. */
  lemma RecordTextSplitsIntoEntries(record: Record, r: Renderers)
    requires |record.keys| >= 1
    requires forall i :: 0 <= i < |record.keys| ==> ',' !in EntryText(record, record.keys[i], r)
    ensures var t := RecordText(record, r);
      |t| >= 2 && t[0] == '{' && t[|t| - 1] == '}' &&
      Split(t[1..|t| - 1], ',') == Entries(record, r)
  {
    var t := RecordText(record, r);
    assert t[1..|t| - 1] == Join(Entries(record, r), ',');
    SplitJoin(Entries(record, r), ',');
  }

  /** Go's `%v` of a []string: the elements space separated inside brackets. */
  function KeysText(keys: seq<string>): string
  {
    "[" + Join(keys, ' ') + "]"
  }

  lemma KeysTextSplitsIntoKeys(keys: seq<string>)
    requires |keys| >= 1
    requires forall i :: 0 <= i < |keys| ==> ' ' !in keys[i]
    ensures var t := KeysText(keys);
      |t| >= 2 && t[0] == '[' && t[|t| - 1] == ']' && Split(t[1..|t| - 1], ' ') == keys
  {
    var t := KeysText(keys);
    assert t[1..|t| - 1] == Join(keys, ' ');
    SplitJoin(keys, ' ');
  }

  /** `"%d.%d"` of the protocol version. */
  function VersionText(major: int, minor: int): string
  {
    IntToDecimal(major) + "." + IntToDecimal(minor)
  }

  function ParseVersion(text: string): Option<(int, int)>
  {
    var pieces := Split(text, '.');
    if |pieces| != 2 then None
    else
      match (ParseInt(pieces[0]), ParseInt(pieces[1]))
      case (Some(major), Some(minor)) => Some((major, minor))
      case _ => None
  }

  /** The protocol version text names major and minor unambiguously. */
  lemma VersionRoundTrip(major: int, minor: int)
    ensures ParseVersion(VersionText(major, minor)) == Some((major, minor))
  {
    IntDecimalOmitsChar(major, '.');
    IntDecimalOmitsChar(minor, '.');
    SplitAtFirstSeparator(IntToDecimal(major), '.', IntToDecimal(minor));
    SplitWithoutSeparator(IntToDecimal(minor), '.');
    IntDecimalRoundTrip(major);
    IntDecimalRoundTrip(minor);
  }

  function SummaryText(summary: Summary, r: Renderers): string
  {
    "{\"db\": " + r.quote(summary.database)
    + ", \"address\": " + r.quote(summary.address)
    + ", \"protocol_version\": \"" + VersionText(summary.protocolMajor, summary.protocolMinor)
    + "\", \"agent\": " + r.quote(summary.agent) + "}"
  }

  /** EagerResult.String. */
  function EagerResultText(e: EagerResult, r: Renderers): string
  {
    "keys: " + KeysText(e.keys) + ", records: " + RecordsText(e.records, r) + ", summary: " + SummaryText(e.summary, r)
  }
}
