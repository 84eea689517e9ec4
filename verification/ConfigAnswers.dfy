/** What the configuration store answers to each command, told from the rows, the receipts and the command
    alone (src/plcnext_iot/config/store.py:174-289, src/plcnext_iot/config/patch.py:19-44). */
module ConfigAnswers {
  import opened Common
  import opened ConfigPatch
  import opened ConfigTables

  // ---- Which patches are refused, and why

  /** The command names the active version and the message that brought it, or that there is none. */
  predicate OverBase(c: Command, active: Option<Snapshot>) {
    && c.baseVersion == (if active.Some? then active.value.version else 0)
    && c.baseMessageId == (if active.Some? then Some(active.value.messageId) else None)
  }

  /** The first operation that adds what is there, or replaces or removes what is not. */
  predicate FirstOdd(base: map<string, Device>, ops: seq<Operation>, i: nat) {
    i < |ops| && !Consistent(base, ops, i) && forall j :: 0 <= j < i ==> Consistent(base, ops, j)
  }

  lemma {:induction false} ApplyRefuses(base: map<string, Device>, ops: seq<Operation>, n: nat,
                                        devices: map<string, Device>, i: nat)
    requires n <= i < |ops| && Reached(base, ops, n, devices) && FirstOdd(base, ops, i)
    ensures ApplyFrom(devices, ops, n) == Refused(if ops[i].Add? then DeviceExists(i) else DeviceNotFound(i))
    decreases i - n
  {
    ReachedStep(base, ops, n, devices);
    if n < i { ApplyRefuses(base, ops, n + 1, ApplyOne(devices, ops[n]), i); }
  }

  /** A patch over another base is refused for that; else for its first odd operation; else if what it would
      make is not valid. */
  lemma RefusedExactly(c: Command, active: Option<Snapshot>, valid: bool, size: nat, i: nat)
    ensures var r, base := Materialized(c, active, valid, size), BaseContent(active).devices;
            && (r == Refused(BaseConfigMismatch) <==> !OverBase(c, active))
            && (OverBase(c, active) && FirstOdd(base, c.operations, i) ==>
                  r == Refused(if c.operations[i].Add? then DeviceExists(i) else DeviceNotFound(i)))
            && (OverBase(c, active) && (forall j :: 0 <= j < |c.operations| ==> Consistent(base, c.operations, j)) ==>
                  if valid then r.Parsed? else r == Refused(ContractInvalid))
  {
    var base := BaseContent(active).devices;
    assert Reached(base, c.operations, 0, base);
    ApplyFromMeaning(base, c.operations, 0, base);
    if FirstOdd(base, c.operations, i) { ApplyRefuses(base, c.operations, 0, base, i); }
    NotMismatch(base, c.operations, 0);
    hide Consistent, Meaning, ApplyFrom;
  }

  lemma {:induction false} NotMismatch(devices: map<string, Device>, ops: seq<Operation>, n: nat)
    requires n <= |ops|
    ensures ApplyFrom(devices, ops, n) != Refused(BaseConfigMismatch)
    decreases |ops| - n
  {
    if n < |ops| { NotMismatch(ApplyOne(devices, ops[n]), ops, n + 1); }
  }

  // ---- The verdict on a candidate

  /** The message id was used for another version or another command. */
  predicate IdTaken(t: Tables, snap: Snapshot, command: Option<Bytes>) {
    && snap.messageId in t.receipts
    && !(t.receipts[snap.messageId].version == snap.version && t.receipts[snap.messageId].command == command)
  }

  /** The version is there with other content. */
  predicate Differs(t: Tables, snap: Snapshot) {
    snap.version in t.rows && t.rows[snap.version].snapshot.content != snap.content
  }

  /** Another candidate waits, or there is no place for the receipt or for the row. */
  ghost predicate NoPlace(t: Tables, lim: Limits, snap: Snapshot) {
    || (snap.version != t.active && exists w :: w in t.rows && w != snap.version && t.rows[w].state == Prepared)
    || (snap.messageId !in t.receipts && |t.receipts| >= lim.maxRequests)
    || (snap.version !in t.rows && (|t.rows| >= lim.maxSnapshots || TotalBytes(t.rows) + snap.size > lim.maxBytes))
  }

  lemma VerdictExactly(t: Tables, lim: Limits, snap: Snapshot, command: Option<Bytes>)
    ensures Verdict(t, lim, snap, command)
         == if IdTaken(t, snap, command) then Some(MessageIdConflict)
            else if snap.version < t.active then Some(StaleVersion)
            else if Differs(t, snap) then Some(VersionConflict)
            else if NoPlace(t, lim, snap) then Some(ResourceLimit)
            else None
  {
    hide TotalBytes;
  }

  /** What a candidate that is not refused leads to. At the active version it is applied already: only its
      receipt is written. Else it waits alone under a token, its own if it was waiting, or one never given
      before, as a new row or in the row of its content; its receipt is pending. */
  ghost predicate Accepted(t: Tables, snap: Snapshot, command: Option<Bytes>, t': Tables, r: PrepareResult) {
    var v, m := snap.version, snap.messageId;
    var applied := v == t.active;
    && t'.active == t.active && t'.previous == t.previous && r.active == t.active && r.code.None?
    && r.snapshot == (if command.Some? then Some(snap) else None)
    && t'.receipts == t.receipts[m := Receipt(v, if applied then Applied else Pending,
                                              if m in t.receipts then t.receipts[m].command else command)]
    && if applied
       then t'.rows == t.rows && r.status == StatusApplied && r.token.None? && t'.nextToken == t.nextToken
            && r.appliedVersion == (if command.Some? then Some(v) else None)
       else
         && r.status == StatusPrepared && r.token.Some? && r.appliedVersion.None?
         && t'.rows == t.rows[v := Row(if v in t.rows then t.rows[v].snapshot else snap, Prepared, r.token)]
         && if v in t.rows && t.rows[v].state == Prepared
            then r.token == t.rows[v].token && t'.nextToken == t.nextToken
            else r.token == Some(t.nextToken) && t'.nextToken == t.nextToken + 1
  }

  /** `_prepare`: a refusal changes nothing. */
  lemma PrepareRowExactly(t: Tables, lim: Limits, snap: Snapshot, command: Option<Bytes>)
    requires Inv(t)
    ensures var (t', r) := PrepareRow(t, lim, snap, command);
            if IdTaken(t, snap, command) || snap.version < t.active || Differs(t, snap) || NoPlace(t, lim, snap)
            then t' == t && r.status == StatusRejected && r.active == t.active && r.token.None?
            else Accepted(t, snap, command, t', r)
  {
    VerdictExactly(t, lim, snap, command);
    var v := Verdict(t, lim, snap, command);
    if v.None? { AdmittedAccepted(t, snap, command); }
    hide Verdict, NoPlace, IdTaken, Differs, Accepted, Admitted;
  }

  lemma AdmittedAccepted(t: Tables, snap: Snapshot, command: Option<Bytes>)
    requires Inv(t) && !IdTaken(t, snap, command)
    ensures Accepted(t, snap, command, Admitted(t, snap, command).0, Admitted(t, snap, command).1)
  {
    hide ReceiptsOk;
    var v := snap.version;
    assert v == t.active ==> v in t.rows;
    hide RowsOk;
    if v in t.rows && t.rows[v].state == Prepared { assert t.rows[v].token.Some?; }
    hide TokensOk;
  }

  /** The active configuration sent again, under its own message id or a new one for which there is a place,
      is answered APPLIED, and nothing but the receipt is written. */
  lemma RepeatIsApplied(t: Tables, lim: Limits, snap: Snapshot)
    requires Inv(t) && t.active in t.rows && snap.version == t.active
    requires snap.content == t.rows[t.active].snapshot.content
    requires if snap.messageId in t.receipts
             then t.receipts[snap.messageId].version == snap.version && t.receipts[snap.messageId].command.None?
             else |t.receipts| < lim.maxRequests
    ensures var (t', r) := Prepare(t, lim, Parsed(snap));
            && r == PrepareResult(StatusApplied, t.active, None, None, None, None)
            && t' == t.(receipts := t.receipts[snap.messageId := Receipt(snap.version, Applied, None)])
  {
    PrepareRowExactly(t, lim, snap, None);
    hide Inv, PrepareRow, TotalBytes;
  }

  // ---- Patches

  /** The order in which a patch is judged: its id, whether it has been applied, its version, its base and
      operations, and only then as a candidate. */
  lemma PatchExactly(t: Tables, lim: Limits, payload: Bytes, c: Command, valid: bool, size: nat)
    requires Inv(t)
    ensures var (t', r) := PreparePatch(t, lim, payload, Parsed(c), valid, size);
            var known := c.messageId in t.receipts;
            r.Done? &&
            if known && !(t.receipts[c.messageId].version == c.version
              && t.receipts[c.messageId].command == Some(payload))
            then t' == t && r.value.status == StatusRejected && r.value.code == Some(MessageIdConflict)
            else if known && t.receipts[c.messageId].status == Applied
            then t' == t && r.value == PrepareResult(StatusApplied, t.active, None, None, None, Some(c.version))
            else if c.version in t.rows && t.rows[c.version].snapshot.messageId != c.messageId
            then t' == t && r.value.status == StatusRejected && r.value.code == Some(VersionConflict)
            else
              var active := if t.active == 0 then None else Some(t.rows[t.active].snapshot);
              var m := Materialized(c, active, valid, size);
              if m.Refused? then t' == t && r.value.status == StatusRejected && r.value.code == Some(m.code)
              else (t', r.value) == PrepareRow(t, lim, m.value, Some(payload))
  {
    PreparePatchInv(t, lim, payload, Parsed(c), valid, size);
    ActiveLoads(t, c);
    hide Inv, Materialized, PrepareRow;
  }

  // ---- Committing and failing

  /** A token commits the candidate that waits under it, when that is newer than the active version; the
      token of the active configuration itself is answered with it; every other is refused. */
  lemma CommitExactly(t: Tables, token: Token, v: Version)
    requires Inv(t) && v in t.rows && t.rows[v].token == Some(token)
    ensures var (t', r), row := Commit(t, token), t.rows[v];
            if row.state == Committed && v == t.active then t' == t && r == Done(row.snapshot)
            else if row.state == Prepared
            then && r == Done(row.snapshot) && t'.active == v && t'.previous == t.active && t'.nextToken == t.nextToken
                 && t'.rows == t.rows[v := row.(state := Committed)] && Sets(t.receipts, t'.receipts, v, Applied)
            else t' == t && r == Raised(InvalidCandidate)
  {
    assert Carries(t, v, token);
  }

  /** Every receipt of the version has the status, and no other changed. */
  ghost predicate Sets(before: map<MessageId, Receipt>, after: map<MessageId, Receipt>, v: Version,
                       status: ReceiptStatus) {
    && after.Keys == before.Keys
    && forall m :: m in before ==>
         after[m] == if before[m].version == v then before[m].(status := status) else before[m]
  }

  lemma FailExactly(t: Tables, token: Token, v: Version)
    requires Inv(t) && v in t.rows && t.rows[v].token == Some(token)
    ensures var (t', r), row := Fail(t, token), t.rows[v];
            if row.state == Prepared
            then && r == Done(()) && t'.active == t.active && t'.previous == t.previous
                 && t'.rows == t.rows[v := row.(state := Failed, token := None)]
                 && Sets(t.receipts, t'.receipts, v, Rejected)
            else t' == t && r == Raised(InvalidCandidate)
  {
    assert Carries(t, v, token);
  }

  /** Opening the database again interrupts what was prepared and abandons its receipts; nothing else changes. */
  lemma ReopenExactly(t: Tables)
    ensures var t' := Reopen(t);
            && t'.active == t.active && t'.previous == t.previous && t'.nextToken == t.nextToken
            && t'.rows.Keys == t.rows.Keys && t'.receipts.Keys == t.receipts.Keys
            && (forall v :: v in t.rows ==>
                  t'.rows[v] == if t.rows[v].state == Prepared then Row(t.rows[v].snapshot, Interrupted, None)
                    else t.rows[v])
            && forall m :: m in t.receipts ==>
                 t'.receipts[m] == if t.receipts[m].status == Pending
                                   then Receipt(t.receipts[m].version, Abandoned, t.receipts[m].command)
                                   else t.receipts[m]
  {
  }
}
