/** The deduplicating far end: a receipt is committed before STORED is answered
    (src/plcnext_iot/storage/receiver.py). SHA-256 is taken as injective, so a digest is its bytes;
    what JSON text says is given by a reader of bytes. */
module Receiver {
  import opened Common
  import opened Outbox

  datatype Value = Value(device: string, point: string, timestamp: int, good: bool, isBool: bool)

  /** What `identity` and the schema make of a payload's text. */
  datatype Wire = Wire(id: Key, version: nat, schemaOk: bool, timestamp: int, values: seq<Value>)

  type Reader = Bytes -> Option<Wire>

  /** An installed configuration: its enabled points and whether each is boolean. */
  datatype Config = Config(text: Bytes, content: Bytes, parses: bool, intact: bool,
                           devices: map<string, map<string, bool>>)

  datatype Receipt = Receipt(id: Key, payload: Bytes, storedAt: int)

  datatype Ack = Ack(id: Key, code: Option<string>)

  datatype Quota = Quota(maxBatches: nat, maxBytes: nat)

  function Lookup(receipts: seq<Receipt>, id: Key): Option<Bytes> {
    if receipts == [] then None
    else if receipts[0].id == id then Some(receipts[0].payload)
    else Lookup(receipts[1..], id)
  }

  function Volume(receipts: seq<Receipt>): nat {
    if receipts == [] then 0 else |receipts[0].payload| + Volume(receipts[1..])
  }

  function ValueFault(v: Value, devices: map<string, map<string, bool>>, now: int): Option<string> {
    if v.device !in devices then Some("UNKNOWN_DEVICE")
    else if v.point !in devices[v.device] then Some("UNKNOWN_POINT")
    else if v.timestamp > now + 300000 then Some("INVALID_TIMESTAMP")
    else if v.good && devices[v.device][v.point] != v.isBool then Some("SCHEMA_INVALID")
    else None
  }

  /** The first value that cannot be stored decides. */
  function ValuesFault(values: seq<Value>, devices: map<string, map<string, bool>>, now: int): Option<string> {
    if values == [] then None
    else
      var f := ValueFault(values[0], devices, now);
      if f.Some? then f else ValuesFault(values[1..], devices, now)
  }

  /** What an installed configuration says against a batch. */
  function ConfigFault(w: Wire, configs: map<nat, Config>, now: int): Option<string> {
    if w.version !in configs then Some("UNKNOWN_CONFIG_VERSION")
    else
      var c := configs[w.version];
      if !c.parses || !c.intact then Some("STORAGE_ERROR")
      else if w.timestamp < now - 7 * 86400 * 1000 then Some("EXPIRED_DATA")
      else if w.timestamp > now + 300000 then Some("INVALID_TIMESTAMP")
      else ValuesFault(w.values, c.devices, now)
  }

  /** Why a batch is refused; None means it is stored. A known id is decided by its bytes alone. */
  function Refusal(receipts: seq<Receipt>, configs: map<nat, Config>, quota: Quota, w: Wire, payload: Bytes,
                   now: int): Option<string> {
    var known := Lookup(receipts, w.id);
    if !w.schemaOk then Some("SCHEMA_INVALID")
    else if known.Some? then (if known.value == payload then None else Some("VERSION_CONFLICT"))
    else
      var f := ConfigFault(w, configs, now);
      if f.Some? then f
      else if |receipts| >= quota.maxBatches || Volume(receipts) + |payload| > quota.maxBytes
        then Some("RESOURCE_LIMIT")
      else None
  }

  /** The transaction: receipts afterwards and the answer. A failing one changes nothing. */
  function Reception(receipts: seq<Receipt>, configs: map<nat, Config>, quota: Quota, w: Wire, payload: Bytes,
                     now: int, fault: bool)
    : (seq<Receipt>, Ack)
  {
    var refusal := Refusal(receipts, configs, quota, w, payload, now);
    if !w.schemaOk then (receipts, Ack(w.id, refusal))
    else if fault then (receipts, Ack(w.id, Some("STORAGE_ERROR")))
    else if refusal.None? && Lookup(receipts, w.id).None?
      then (receipts + [Receipt(w.id, payload, now)], Ack(w.id, None))
    else (receipts, Ack(w.id, refusal))
  }

  // ---- What a receipt table keeps

  ghost predicate OncePerId(receipts: seq<Receipt>) {
    forall i, j :: 0 <= i < j < |receipts| ==> receipts[i].id != receipts[j].id
  }

  ghost predicate Holds(receipts: seq<Receipt>, id: Key, payload: Bytes) {
    exists i :: 0 <= i < |receipts| && receipts[i].id == id && receipts[i].payload == payload
  }

  lemma {:induction false} LookupFinds(receipts: seq<Receipt>, id: Key)
    ensures var r := Lookup(receipts, id);
            if r.Some? then Holds(receipts, id, r.value) else forall i :: 0 <= i < |receipts| ==> receipts[i].id != id
  {
    if receipts != [] && receipts[0].id != id {
      LookupFinds(receipts[1..], id);
      if Lookup(receipts, id).Some? {
        var i :| 0 <= i < |receipts[1..]| && receipts[1..][i].id == id
          && receipts[1..][i].payload == Lookup(receipts, id).value;
        assert receipts[i + 1].id == id;
      }
    }
  }

  lemma {:induction false} VolumeAppend(receipts: seq<Receipt>, r: Receipt)
    ensures Volume(receipts + [r]) == Volume(receipts) + |r.payload|
  {
    if receipts != [] {
      assert (receipts + [r])[1..] == receipts[1..] + [r];
      VolumeAppend(receipts[1..], r);
    } else {
      assert (receipts + [r])[1..] == [];
    }
  }

  ghost predicate Sane(receipts: seq<Receipt>, quota: Quota) {
    OncePerId(receipts) && |receipts| <= quota.maxBatches && Volume(receipts) <= quota.maxBytes
  }

  /** STORED is answered exactly when the table then holds these bytes and the transaction went through;
      no receipt is ever changed, removed or doubled, and the quotas hold. */
  lemma ReceptionSound(receipts: seq<Receipt>, configs: map<nat, Config>, quota: Quota, w: Wire, payload: Bytes,
                       now: int, fault: bool)
    requires Sane(receipts, quota)
    ensures var (after, ack) := Reception(receipts, configs, quota, w, payload, now, fault);
            && Sane(after, quota) && receipts <= after && ack.id == w.id
            && (ack.code.None? ==> Holds(after, w.id, payload))
            && (ack.code.Some? ==> after == receipts)
            && (forall i :: |receipts| <= i < |after| ==> after[i].id == w.id && after[i].payload == payload)
  {
    LookupFinds(receipts, w.id);
    var (after, ack) := Reception(receipts, configs, quota, w, payload, now, fault);
    if after != receipts {
      VolumeAppend(receipts, Receipt(w.id, payload, now));
      assert after[|receipts|] == Receipt(w.id, payload, now);
    }
  }

  lemma {:induction false} LookupUnique(receipts: seq<Receipt>, id: Key, payload: Bytes)
    requires OncePerId(receipts) && Holds(receipts, id, payload)
    ensures Lookup(receipts, id) == Some(payload)
  {
    if receipts[0].id != id {
      var i :| 0 <= i < |receipts| && receipts[i].id == id && receipts[i].payload == payload;
      assert receipts[1..][i - 1] == receipts[i];
      LookupUnique(receipts[1..], id, payload);
    }
  }

  /** Redelivery of stored bytes is answered STORED and stores nothing, whatever the configurations,
      the clock and the quotas have become. */
  lemma RedeliveryStored(receipts: seq<Receipt>, configs: map<nat, Config>, quota: Quota, w: Wire, payload: Bytes,
                         now: int)
    requires OncePerId(receipts) && Holds(receipts, w.id, payload) && w.schemaOk
    ensures Reception(receipts, configs, quota, w, payload, now, false) == (receipts, Ack(w.id, None))
  {
    LookupUnique(receipts, w.id, payload);
  }

  // ---- Installed configurations

  ghost function TextBytes(configs: map<nat, Config>): nat {
    if configs == map[] then 0 else var v :| v in configs; |configs[v].text| + TextBytes(configs - {v})
  }

  lemma {:induction false} TextSplit(configs: map<nat, Config>, v: nat)
    requires v in configs
    ensures TextBytes(configs) == |configs[v].text| + TextBytes(configs - {v})
    decreases |configs|
  {
    var w :| w in configs && TextBytes(configs) == |configs[w].text| + TextBytes(configs - {w});
    if w != v {
      TextSplit(configs - {w}, v);
      TextSplit(configs - {v}, w);
      assert configs - {w} - {v} == configs - {v} - {w};
    }
  }

  const CONFIG_BYTES: int := 64 * 1024 * 1024

  /** At most 32 versions, and 64 MiB of them. */
  ghost predicate Shelved(configs: map<nat, Config>) {
    |configs| <= 32 && TextBytes(configs) <= 67108864
  }

  lemma InstallShelved(configs: map<nat, Config>, v: nat, config: Config)
    requires Shelved(configs) && v !in configs && |configs| < 32 && TextBytes(configs) + |config.text| <= 67108864
    ensures Shelved(configs[v := config])
  {
    TextSplit(configs[v := config], v);
    assert configs[v := config] - {v} == configs;
  }

  // ---- The store

  class ReceiverStore {
    const quota: Quota
    const read: Reader
    var receipts: seq<Receipt>
    var configs: map<nat, Config>

    ghost predicate Valid() reads this { Sane(receipts, quota) && Shelved(configs) }

    constructor (quota: Quota, read: Reader)
      ensures Valid() && receipts == [] && configs == map[] && this.quota == quota && this.read == read
    {
      this.quota, this.read, receipts, configs := quota, read, [], map[];
    }

    method ConfigBytes() returns (total: nat)
      ensures total == TextBytes(configs)
    {
      total := 0;
      var left := configs;
      while left != map[]
        invariant total + TextBytes(left) == TextBytes(configs)
        decreases |left|
      {
        var v :| v in left;
        TextSplit(left, v);
        total := total + |left[v].text|;
        left := left - {v};
      }
    }

    /** A version keeps the content first installed for it, and what is installed stays within its quota. */
    method InstallConfig(version: nat, config: Config) returns (ok: bool)
      requires Valid()
      modifies this`configs
      ensures Valid()
      ensures if version in old(configs)
              then configs == old(configs) && ok == (old(configs)[version].content == config.content)
              else if |old(configs)| >= 32 || TextBytes(old(configs)) + |config.text| > 67108864
              then configs == old(configs) && !ok
              else configs == old(configs)[version := config] && ok
    {
      if version in configs { return configs[version].content == config.content; }
      var used := ConfigBytes();
      if |configs| >= 32 || used + |config.text| > CONFIG_BYTES { return false; }
      InstallShelved(configs, version, config);
      configs := configs[version := config];
      ok := true;
    }

    method Find(id: Key) returns (found: Option<Bytes>)
      ensures found == Lookup(receipts, id)
    {
      var i := 0;
      while i < |receipts|
        invariant 0 <= i <= |receipts| && Lookup(receipts, id) == Lookup(receipts[i..], id)
      {
        if receipts[i].id == id { return Some(receipts[i].payload); }
        i := i + 1;
      }
      found := None;
    }

    method Size() returns (total: nat)
      ensures total == Volume(receipts)
    {
      total := 0;
      var i := 0;
      while i < |receipts|
        invariant 0 <= i <= |receipts| && Volume(receipts) == total + Volume(receipts[i..])
      {
        total := total + |receipts[i].payload|;
        i := i + 1;
      }
    }

    method CheckValues(values: seq<Value>, devices: map<string, map<string, bool>>, now: int)
      returns (refusal: Option<string>)
      ensures refusal == ValuesFault(values, devices, now)
    {
      var i := 0;
      while i < |values|
        invariant 0 <= i <= |values| && ValuesFault(values, devices, now) == ValuesFault(values[i..], devices, now)
      {
        var v := values[i];
        if v.device !in devices { return Some("UNKNOWN_DEVICE"); }
        var points := devices[v.device];
        if v.point !in points { return Some("UNKNOWN_POINT"); }
        if v.timestamp > now + 300000 { return Some("INVALID_TIMESTAMP"); }
        if v.good && points[v.point] != v.isBool { return Some("SCHEMA_INVALID"); }
        i := i + 1;
      }
      refusal := None;
    }

    /** Answers a payload; text that carries no identity gets no answer. */
    method Receive(payload: Bytes, now: int, fault: bool) returns (reply: Option<Ack>)
      requires Valid()
      modifies this`receipts
      ensures Valid() && old(receipts) <= receipts
      ensures read(payload).None? ==> reply.None? && receipts == old(receipts)
      ensures read(payload).Some? ==>
                reply.Some? && (receipts, reply.value)
                  == Reception(old(receipts), configs, quota, read(payload).value, payload, now, fault)
    {
      var request := read(payload);
      if request.None? { return None; }
      var w := request.value;
      ReceptionSound(receipts, configs, quota, w, payload, now, fault);
      if !w.schemaOk { return Some(Ack(w.id, Some("SCHEMA_INVALID"))); }
      if fault { return Some(Ack(w.id, Some("STORAGE_ERROR"))); }
      var known := Find(w.id);
      if known.Some? { return Some(Ack(w.id, if known.value == payload then None else Some("VERSION_CONFLICT"))); }
      if w.version !in configs { return Some(Ack(w.id, Some("UNKNOWN_CONFIG_VERSION"))); }
      var config := configs[w.version];
      if !config.parses || !config.intact { return Some(Ack(w.id, Some("STORAGE_ERROR"))); }
      if w.timestamp < now - 7 * 86400 * 1000 { return Some(Ack(w.id, Some("EXPIRED_DATA"))); }
      if w.timestamp > now + 300000 { return Some(Ack(w.id, Some("INVALID_TIMESTAMP"))); }
      var refusal := CheckValues(w.values, config.devices, now);
      if refusal.Some? { return Some(Ack(w.id, refusal)); }
      var total := Size();
      if |receipts| >= quota.maxBatches || total + |payload| > quota.maxBytes {
        return Some(Ack(w.id, Some("RESOURCE_LIMIT")));
      }
      receipts := receipts + [Receipt(w.id, payload, now)];
      reply := Some(Ack(w.id, None));
    }
  }
}
