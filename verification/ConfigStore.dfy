/** The configuration store as the object the source has: three tables updated in place inside
    transactions. Every method is tied to the step function of ConfigTables; `fault` says that the
    method's transaction fails, in which case nothing is written. */
module ConfigStore {
  import opened Common
  import opened ConfigPatch
  import opened ConfigTables

  lemma {:induction false} TotalBytesWithout(rows: map<Version, Row>, v: Version)
    requires v in rows
    ensures TotalBytes(rows) == rows[v].snapshot.size + TotalBytes(rows - {v})
    decreases |rows|
  {
    var w: Version :| w in rows && TotalBytes(rows) == rows[w].snapshot.size + TotalBytes(rows - {w});
    if w != v {
      TotalBytesWithout(rows - {w}, v);
      TotalBytesWithout(rows - {v}, w);
      assert rows - {w} - {v} == rows - {v} - {w};
    }
  }

  method SumBytes(rows: map<Version, Row>) returns (size: nat)
    ensures size == TotalBytes(rows)
  {
    size := 0;
    var rest: map<Version, Row> := rows;
    while rest != map[]
      invariant size + TotalBytes(rest) == TotalBytes(rows)
      decreases |rest|
    {
      var v: Version :| v in rest;
      TotalBytesWithout(rest, v);
      size := size + rest[v].snapshot.size;
      rest := rest - {v};
    }
  }

  class ConfigStore {
    const limits: Limits
    var rows: map<Version, Row>
    var receipts: map<MessageId, Receipt>
    var activeVersion: nat
    var previousVersion: nat
    var nextToken: Token

    ghost function View(): Tables
      reads this
    {
      Tables(rows, receipts, activeVersion, previousVersion, nextToken)
    }

    ghost predicate Valid()
      reads this
    {
      Inv(View())
    }

    constructor (limits: Limits)
      ensures Valid() && View() == Empty && this.limits == limits
    {
      this.limits := limits;
      rows, receipts, activeVersion, previousVersion, nextToken := map[], map[], 0, 0, 0;
    }

    method LoadActive() returns (r: Outcome<Option<Snapshot>>)
      requires Valid()
      ensures r == ConfigTables.LoadActive(View()) && r.Done?
    {
      if activeVersion == 0 { return Done(None); }
      if activeVersion !in rows || rows[activeVersion].state != Committed { return Raised(FormatFault); }
      return Done(Some(rows[activeVersion].snapshot));
    }

    /** The checks that may refuse a candidate, in the order the source makes them. */
    method Judge(snap: Snapshot, command: Option<Bytes>) returns (code: Option<Code>)
      requires Valid()
      ensures code == Verdict(View(), limits, snap, command)
    {
      var known, saved := snap.messageId in receipts, snap.version in rows;
      if known && (receipts[snap.messageId].version != snap.version || receipts[snap.messageId].command != command) {
        return Some(MessageIdConflict);
      }
      if snap.version < activeVersion { return Some(StaleVersion); }
      if saved && rows[snap.version].snapshot.content != snap.content { return Some(VersionConflict); }
      var busy := exists w :: w in rows && rows[w].state == Prepared && w != snap.version;
      if snap.version != activeVersion && busy { return Some(ResourceLimit); }
      if !known && |receipts| >= limits.maxRequests { return Some(ResourceLimit); }
      if !saved {
        var size := SumBytes(rows);
        if |rows| >= limits.maxSnapshots || size + snap.size > limits.maxBytes { return Some(ResourceLimit); }
      }
      code := None;
    }

    /** The writes for an admissible candidate. */
    method Admit(snap: Snapshot, command: Option<Bytes>) returns (r: PrepareResult)
      requires Valid()
      modifies this
      ensures (View(), r) == Admitted(old(View()), snap, command)
    {
      var known, saved := snap.messageId in receipts, snap.version in rows;
      var applied := snap.version == activeVersion;
      var token: Option<Token> := None;
      if !applied {
        if saved && rows[snap.version].state == Prepared {
          token := rows[snap.version].token;
        } else {
          token, nextToken := Some(nextToken), nextToken + 1;
        }
      }
      if !saved {
        rows := rows[snap.version := Row(snap, Prepared, token)];
      } else if !applied {
        rows := rows[snap.version := rows[snap.version].(state := Prepared, token := token)];
      }
      var status := if applied then Applied else Pending;
      if known {
        receipts := receipts[snap.messageId := receipts[snap.messageId].(status := status)];
      } else {
        receipts := receipts[snap.messageId := Receipt(snap.version, status, command)];
      }
      r := PrepareResult(if applied then StatusApplied else StatusPrepared, activeVersion, token, None,
                         if command.Some? then Some(snap) else None,
                         if command.Some? && applied then Some(snap.version) else None);
    }

    method PrepareRow(snap: Snapshot, command: Option<Bytes>) returns (r: PrepareResult)
      requires Valid()
      requires command.Some? && snap.version in rows ==> rows[snap.version].snapshot.messageId == snap.messageId
      modifies this
      ensures Valid()
      ensures (View(), r) == ConfigTables.PrepareRow(old(View()), limits, snap, command)
    {
      PrepareRowInv(View(), limits, snap, command);
      var code := Judge(snap, command);
      if code.Some? {
        return PrepareResult(StatusRejected, activeVersion, None, code, None, None);
      }
      r := Admit(snap, command);
    }

    method Prepare(parsed: Parsed<Snapshot>, fault: bool) returns (r: Outcome<PrepareResult>)
      requires Valid()
      modifies this
      ensures Valid()
      ensures fault && parsed.Parsed? ==> r == Raised(StorageFault) && View() == old(View())
      ensures !(fault && parsed.Parsed?) ==>
                r.Done? && (View(), r.value) == ConfigTables.Prepare(old(View()), limits, parsed)
    {
      if parsed.Refused? {
        return Done(PrepareResult(StatusRejected, activeVersion, None, Some(parsed.code), None, None));
      }
      if fault { return Raised(StorageFault); }
      var result := PrepareRow(parsed.value, None);
      r := Done(result);
    }

    method PreparePatch(payload: Bytes, command: Parsed<Command>, valid: bool, size: nat, fault: bool)
      returns (r: Outcome<PrepareResult>)
      requires Valid()
      modifies this
      ensures Valid()
      ensures fault && command.Parsed? ==> r == Raised(StorageFault) && View() == old(View())
      ensures !(fault && command.Parsed?) ==>
                (View(), r) == ConfigTables.PreparePatch(old(View()), limits, payload, command, valid, size) && r.Done?
    {
      PreparePatchInv(View(), limits, payload, command, valid, size);
      if command.Refused? {
        return Done(PrepareResult(StatusRejected, activeVersion, None, Some(command.code), None, None));
      }
      if fault { return Raised(StorageFault); }
      var c := command.value;
      if c.messageId in receipts {
        var receipt := receipts[c.messageId];
        if receipt.version != c.version || receipt.command != Some(payload) {
          return Done(PrepareResult(StatusRejected, activeVersion, None, Some(MessageIdConflict), None, None));
        }
        if receipt.status == Applied {
          if receipt.version !in rows || rows[receipt.version].state != Committed || receipt.version > activeVersion
             || rows[receipt.version].snapshot.messageId != c.messageId {
            return Raised(FormatFault);
          }
          return Done(PrepareResult(StatusApplied, activeVersion, None, None, None, Some(receipt.version)));
        }
      }
      if c.version in rows && rows[c.version].snapshot.messageId != c.messageId {
        return Done(PrepareResult(StatusRejected, activeVersion, None, Some(VersionConflict), None, None));
      }
      var active := LoadActive();
      var snap := Materialize(c, active.value, valid, size);
      if snap.Refused? {
        return Done(PrepareResult(StatusRejected, activeVersion, None, Some(snap.code), None, None));
      }
      var result := PrepareRow(snap.value, Some(payload));
      r := Done(result);
    }

    /** The row that carries a token, if any. */
    method Candidate(token: Token) returns (found: Option<Version>)
      requires Valid()
      ensures found.Some? ==> Carries(View(), found.value, token)
      ensures found.None? ==> forall v: Version :: !Carries(View(), v, token)
    {
      var rest := rows.Keys;
      while rest != {}
        invariant rest <= rows.Keys
        invariant forall v: Version :: v in rows && v !in rest ==> rows[v].token != Some(token)
        decreases |rest|
      {
        var v: Version :| v in rest;
        if rows[v].token == Some(token) { return Some(v); }
        rest := rest - {v};
      }
      found := None;
    }

    method Commit(token: Token, fault: bool) returns (r: Outcome<Snapshot>)
      requires Valid()
      modifies this
      ensures Valid()
      ensures fault ==> r == Raised(StorageFault) && View() == old(View())
      ensures !fault ==> (View(), r) == ConfigTables.Commit(old(View()), token)
    {
      if fault { return Raised(StorageFault); }
      CommitInv(View(), token);
      var found := Candidate(token);
      if found.None? { return Raised(InvalidCandidate); }
      var v := found.value;
      if rows[v].state == Committed && v == activeVersion { return Done(rows[v].snapshot); }
      if rows[v].state != Prepared || v <= activeVersion { return Raised(InvalidCandidate); }
      rows := rows[v := rows[v].(state := Committed)];
      previousVersion, activeVersion := activeVersion, v;
      receipts := Settle(receipts, v, Applied);
      r := Done(rows[v].snapshot);
    }

    method Fail(token: Token, fault: bool) returns (r: Outcome<()>)
      requires Valid()
      modifies this
      ensures Valid()
      ensures fault ==> r == Raised(StorageFault) && View() == old(View())
      ensures !fault ==> (View(), r) == ConfigTables.Fail(old(View()), token)
    {
      if fault { return Raised(StorageFault); }
      FailInv(View(), token);
      var found := Candidate(token);
      if found.None? { return Raised(InvalidCandidate); }
      var v := found.value;
      if rows[v].state != Prepared { return Raised(InvalidCandidate); }
      rows := rows[v := rows[v].(state := Failed, token := None)];
      receipts := Settle(receipts, v, Rejected);
      r := Done(());
    }

    /** The recovery transaction run when the database is opened. */
    method Recover()
      requires Valid()
      modifies this
      ensures Valid()
      ensures View() == Reopen(old(View()))
      ensures ConfigTables.LoadActive(View()) == ConfigTables.LoadActive(old(View()))
    {
      ReopenInv(View());
      receipts := map m | m in receipts ::
        if receipts[m].status == Pending then receipts[m].(status := Abandoned) else receipts[m];
      rows := map v | v in rows ::
        if rows[v].state == Prepared then rows[v].(state := Interrupted, token := None) else rows[v];
    }
  }
}
