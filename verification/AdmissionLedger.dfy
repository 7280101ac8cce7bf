/**
 The admission ledger that several tabs of one origin share: what each operation answers, and which
 writes it makes to browser storage, in which order. Every operation runs under one cross-tab lock,
 and a tab may die after any of its writes.
 */
module AdmissionLedger {
  import opened Wrappers
  import opened AdmissionRecovery

  const MAX_RECORDS := 256
  const MAX_BYTES := 8_000_000
  const MAX_TERMINAL_RECORDS := 64
  const MAX_RECORD_BYTES := 1_000_000
  const MAX_RECEIPT_BYTES := 5 * 512 * 6 + 4096

  /** The text that storage holds for a key. */
  type Raw = string

  /** The codec and the hash, with the lengths of what they write in UTF-8 bytes. */
  datatype Codec = Codec(
    text: Record -> Raw,
    parse: Raw -> Option<Record>,
    size: Raw -> nat,
    frozenSize: Frozen -> nat,
    receiptSize: Receipt -> nat,
    keySize: nat -> nat,
    sha256: Intent -> nat)

  /** The JSON of a record is the JSON of its parts: `null` and `true` have four bytes, `false` has five. */
  ghost predicate CodecOk(c: Codec) {
    && (forall r :: c.parse(c.text(r)) == Some(r))
    && (forall r :: c.size(c.text(r)) == c.frozenSize(r.frozen)
                      + (if r.receipt.None? then 4 else c.receiptSize(r.receipt.value)) + (if r.uncertain then 4 else 5))
  }

  /** The codec itself refuses a receipt over its limit. */
  predicate Decodable(c: Codec, r: Record) {
    Valid(r) && (r.receipt.Some? ==> c.receiptSize(r.receipt.value) <= MAX_RECEIPT_BYTES)
  }

  function Encode(c: Codec, r: Record): Result<Raw> {
    if Decodable(c, r) && c.size(c.text(r)) <= MAX_RECORD_BYTES then Ok(c.text(r)) else Refused
  }

  function Decode(c: Codec, scope: nat, raw: Raw): Result<Record> {
    if c.size(raw) > MAX_RECORD_BYTES || c.parse(raw).None? then Refused
    else
      var r := c.parse(raw).value;
      if r.frozen.storeId == scope && Encode(c, r).Ok? && c.sha256(r.frozen.envelope.intent) == r.frozen.envelope.key.payloadSha256
      then Ok(r) else Refused
  }

  /** Storage in its own order; keys are request identities under this ledger's prefix. */
  datatype Item = Item(key: nat, raw: Raw)
  datatype Entry = Entry(item: Item, record: Record, reserved: nat)

  function RequestId(r: Record): nat { r.frozen.envelope.key.requestId }

  predicate Unresolved(r: Record) { !Terminal(r.receipt) }

  predicate CanExpire(r: Record) {
    Terminal(r.receipt) && (r.receipt.value.state.Admitted? ==> !r.frozen.envelope.intent.operation.ScienceMessage?)
  }

  function Base(c: Codec, r: Record): nat {
    c.size(c.text(r.(receipt := None, uncertain := false)))
  }

  /** An entry with the bytes it takes, with room for a terminal receipt while it is unresolved. */
  function DecodeEntry(c: Codec, scope: nat, item: Item): (e: Result<Entry>)
    ensures e.Ok? ==> e.value.item == item
  {
    var d := Decode(c, scope, item.raw);
    if d.Refused? || item.key != RequestId(d.value) then Refused
    else if !Unresolved(d.value) then Ok(Entry(item, d.value, c.keySize(item.key) + c.size(item.raw)))
    else if Base(c, d.value) + MAX_RECEIPT_BYTES > MAX_RECORD_BYTES then Refused
    else
      var reserved := Base(c, d.value) + MAX_RECEIPT_BYTES;
      Ok(Entry(item, d.value, c.keySize(item.key) + if c.size(item.raw) > reserved then c.size(item.raw) else reserved))
  }

  /** All of storage, or nothing if one entry cannot be read. */
  function ReadAll(c: Codec, scope: nat, items: seq<Item>): Result<seq<Entry>> {
    if items == [] then Ok([])
    else
      var e := DecodeEntry(c, scope, items[0]);
      if e.Refused? then Refused
      else
        var es := ReadAll(c, scope, items[1..]);
        if es.Refused? then Refused else Ok([e.value] + es.value)
  }

  // ----- Retention

  function Sum(es: seq<Entry>, weight: Entry -> nat): nat {
    if es == [] then 0 else weight(es[0]) + Sum(es[1..], weight)
  }

  function Size(e: Entry): nat { e.reserved }
  function Count(e: Entry): nat { 1 }
  function CountExpirable(e: Entry): nat { if CanExpire(e.record) then 1 else 0 }

  function Bytes(es: seq<Entry>): nat { Sum(es, Size) }
  function Terminals(es: seq<Entry>): nat { Sum(es, CountExpirable) }

  predicate InRange(es: seq<Entry>) {
    |es| <= MAX_RECORDS && Bytes(es) <= MAX_BYTES && Terminals(es) <= MAX_TERMINAL_RECORDS
  }

  predicate Expirable(e: Entry, protected: Option<nat>) {
    protected != Some(e.item.key) && CanExpire(e.record)
  }

  function Kept(es: seq<Entry>, protected: Option<nat>): seq<Entry> {
    if es == [] then []
    else if Expirable(es[0], protected) then Kept(es[1..], protected)
    else [es[0]] + Kept(es[1..], protected)
  }

  function Expired(es: seq<Entry>, protected: Option<nat>): seq<Entry> {
    if es == [] then []
    else if Expirable(es[0], protected) then [es[0]] + Expired(es[1..], protected)
    else Expired(es[1..], protected)
  }

  /** The entries without the expirable ones among the first `n`. */
  function Cut(es: seq<Entry>, protected: Option<nat>, n: nat): seq<Entry>
    requires n <= |es|
  {
    Kept(es[..n], protected) + es[n..]
  }

  /** The shortest prefix whose expirable entries have to go, from `n` on: all of it if none suffices. */
  function CutPoint(es: seq<Entry>, protected: Option<nat>, n: nat): (m: nat)
    requires n <= |es|
    ensures n <= m <= |es|
    ensures m < |es| ==> InRange(Cut(es, protected, m))
    ensures forall k :: n <= k < m ==> !InRange(Cut(es, protected, k))
    decreases |es| - n
  {
    if n == |es| || InRange(Cut(es, protected, n)) then n else CutPoint(es, protected, n + 1)
  }

  function Retained(es: seq<Entry>, protected: Option<nat>): seq<Entry> {
    Cut(es, protected, CutPoint(es, protected, 0))
  }

  function Victims(es: seq<Entry>, protected: Option<nat>): seq<Entry> {
    Expired(es[..CutPoint(es, protected, 0)], protected)
  }

  // ----- Operations

  /** One write to storage. */
  datatype Write = Remove(e: Entry) | Put(e: Entry)

  /** What one operation writes, in order, and what it answers. */
  datatype Plan<T> = Plan(writes: seq<Write>, answer: Result<T>)

  /** How storage behaves during the write of one record: so many quota refusals, then a broken write
      or a good one. */
  datatype Weather = Weather(full: nat, broken: bool)

  function Removals(es: seq<Entry>): (ws: seq<Write>)
    ensures |ws| == |es|
    ensures forall i :: 0 <= i < |es| ==> ws[i] == Remove(es[i])
  {
    seq(|es|, i requires 0 <= i < |es| => Remove(es[i]))
  }

  function Without(es: seq<Entry>, key: nat): seq<Entry> {
    if es == [] then []
    else if es[0].item.key == key then Without(es[1..], key) else [es[0]] + Without(es[1..], key)
  }

  /** On a quota refusal the oldest expirable entry gives way, as long as there is one. */
  function WritePlan(c: Codec, scope: nat, es: seq<Entry>, r: Record, requireCapacity: bool, weather: Weather): Plan<Record> {
    var raw := Encode(c, r);
    if raw.Refused? then Plan([], Refused)
    else
      var key := RequestId(r);
      var e := DecodeEntry(c, scope, Item(key, raw.value));
      if e.Refused? then Plan([], Refused)
      else
        var all := Without(es, key) + [e.value];
        var first := Removals(Victims(all, Some(key)));
        var kept := Retained(all, Some(key));
        if requireCapacity && (|kept| > MAX_RECORDS || Bytes(kept) > MAX_BYTES) then Plan(first, Refused)
        else
          var room := Expired(kept, Some(key));
          if weather.full > |room| then Plan(first + Removals(room), Refused)
          else
            var second := first + Removals(room[..weather.full]);
            if weather.broken then Plan(second, Refused) else Plan(second + [Put(e.value)], Ok(e.value.record))
  }

  function Find(es: seq<Entry>, requestId: nat): Option<Entry> {
    if es == [] then None
    else if RequestId(es[0].record) == requestId then Some(es[0]) else Find(es[1..], requestId)
  }

  /** An unresolved request of the same draft, of the same chain, or of the same conversation. */
  predicate Blocks(a: Record, b: Record) {
    && Unresolved(a)
    && (a.frozen.draftKey == b.frozen.draftKey
        || a.frozen.envelope.intent.chainId == b.frozen.envelope.intent.chainId
        || (b.frozen.envelope.intent.conversationId.Some?
            && a.frozen.envelope.intent.conversationId == b.frozen.envelope.intent.conversationId))
  }

  predicate Blocked(es: seq<Entry>, r: Record) {
    exists i :: 0 <= i < |es| && Blocks(es[i].record, r)
  }

  function ReservePlan(c: Codec, scope: nat, es: seq<Entry>, r: Record, weather: Weather): Plan<Record> {
    if Find(es, RequestId(r)).Some? || Blocked(es, r) then Plan([], Refused)
    else WritePlan(c, scope, es, r, true, weather)
  }

  /** What the record in storage is settled with: the receipt that the caller's own record has now,
      or else an absence, under the whole envelope where a key belongs. */
  function Relayed(observed: Record): Evidence {
    if observed.receipt.Some? then Bare(observed.receipt.value) else Absent(WholeEnvelope(observed.frozen.envelope))
  }

  function SettlePlan(c: Codec, scope: nat, es: seq<Entry>, r: Record, e: Evidence, weather: Weather): Plan<Record> {
    var previous := Find(es, RequestId(r));
    var observed := Settle(r, e);
    if observed.Refused? then Plan([], Refused)
    else if previous.None? then
      if !Terminal(Incoming(e)) then Plan([], Refused) else WritePlan(c, scope, es, observed.value, false, weather)
    else
      var merged := Settle(previous.value.record, Relayed(observed.value));
      if merged.Refused? then Plan([], Refused) else WritePlan(c, scope, es, merged.value, false, weather)
  }

  function RemovePlan(es: seq<Entry>, r: Record): Plan<()> {
    var found := Find(es, RequestId(r));
    if found.None? then Plan([], Ok(()))
    else if Unresolved(found.value.record) || Settle(r, Bare(found.value.record.receipt.value)).Refused? then Plan([], Refused)
    else Plan([Remove(found.value)], Ok(()))
  }

  function ReadPlan(es: seq<Entry>): Plan<seq<Entry>> {
    Plan(Removals(Victims(es, None)), Ok(Retained(es, None)))
  }

  // ----- Storage

  function Erase(items: seq<Item>, key: nat): seq<Item> {
    if items == [] then []
    else if items[0].key == key then Erase(items[1..], key) else [items[0]] + Erase(items[1..], key)
  }

  /** An existing key keeps its place, a new one goes to the end. */
  function Store(items: seq<Item>, item: Item): seq<Item> {
    if items == [] then [item]
    else if items[0].key == item.key then [item] + items[1..]
    else [items[0]] + Store(items[1..], item)
  }

  function ApplyOne(items: seq<Item>, w: Write): seq<Item> {
    match w
    case Remove(e) => Erase(items, e.item.key)
    case Put(e) => Store(items, e.item)
  }

  function Apply(items: seq<Item>, ws: seq<Write>): seq<Item>
    decreases |ws|
  {
    if ws == [] then items else Apply(ApplyOne(items, ws[0]), ws[1..])
  }
}
