/** The configuration store's tables and transactions (src/plcnext_iot/config/store.py), as state
    and step functions, with what holds over every run of prepare, commit, fail and reopen.
    A transaction that fails has no effect. Tokens stand for uuids: each new one was never used. */
module ConfigTables {
  import opened Common
  import opened ConfigPatch

  type Token = nat

  datatype RowState = Prepared | Committed | Failed | Interrupted

  datatype Row = Row(snapshot: Snapshot, state: RowState, token: Option<Token>)

  datatype ReceiptStatus = Pending | Applied | Rejected | Abandoned

  /** `command` is the digest of a configPatch; a full configSet leaves no digest. */
  datatype Receipt = Receipt(version: Version, status: ReceiptStatus, command: Option<Bytes>)

  datatype Tables = Tables(
    rows: map<Version, Row>,
    receipts: map<MessageId, Receipt>,
    active: nat,
    previous: nat,
    nextToken: Token)

  datatype Limits = Limits(maxSnapshots: nat, maxRequests: nat, maxBytes: nat)

  datatype PrepareStatus = StatusPrepared | StatusApplied | StatusRejected

  datatype PrepareResult = PrepareResult(
    status: PrepareStatus,
    active: nat,
    token: Option<Token>,
    code: Option<Code>,
    snapshot: Option<Snapshot>,
    appliedVersion: Option<Version>)

  datatype Fault = StorageFault | FormatFault | InvalidCandidate

  datatype Outcome<+T> = Done(value: T) | Raised(fault: Fault)

  const Empty := Tables(map[], map[], 0, 0, 0)

  // ---- Transactions

  ghost function TotalBytes(rows: map<Version, Row>): nat {
    if rows == map[] then 0
    else var v :| v in rows; rows[v].snapshot.size + TotalBytes(rows - {v})
  }

  function RejectedWith(t: Tables, code: Code): PrepareResult {
    PrepareResult(StatusRejected, t.active, None, Some(code), None, None)
  }

  function LoadActive(t: Tables): Outcome<Option<Snapshot>> {
    if t.active == 0 then Done(None)
    else if t.active in t.rows && t.rows[t.active].state == Committed then Done(Some(t.rows[t.active].snapshot))
    else Raised(FormatFault)
  }

  /** Why a candidate is refused, if it is. */
  ghost function Verdict(t: Tables, lim: Limits, snap: Snapshot, command: Option<Bytes>): Option<Code> {
    var v, m := snap.version, snap.messageId;
    if m in t.receipts && (t.receipts[m].version != v || t.receipts[m].command != command)
    then Some(MessageIdConflict)
    else if v < t.active then Some(StaleVersion)
    else if v in t.rows && t.rows[v].snapshot.content != snap.content then Some(VersionConflict)
    else if v != t.active && OtherPrepared(t, v) then Some(ResourceLimit)
    else if m !in t.receipts && |t.receipts| >= lim.maxRequests then Some(ResourceLimit)
    else if v !in t.rows && (|t.rows| >= lim.maxSnapshots || TotalBytes(t.rows) + snap.size > lim.maxBytes)
    then Some(ResourceLimit)
    else None
  }

  ghost predicate OtherPrepared(t: Tables, v: Version) {
    exists w :: w in t.rows && t.rows[w].state == Prepared && w != v
  }

  /** The candidate row is inserted or refreshed, and its receipt recorded. */
  function Admitted(t: Tables, snap: Snapshot, command: Option<Bytes>): (Tables, PrepareResult) {
    var v, m := snap.version, snap.messageId;
    var applied := v == t.active;
    var reuse := v in t.rows && t.rows[v].state == Prepared;
    var token := if applied then None else if reuse then t.rows[v].token else Some(t.nextToken);
    var rows := if v !in t.rows then t.rows[v := Row(snap, Prepared, token)]
                else if !applied then t.rows[v := t.rows[v].(state := Prepared, token := token)]
                else t.rows;
    var status := if applied then Applied else Pending;
    var receipt := if m in t.receipts then t.receipts[m].(status := status) else Receipt(v, status, command);
    (t.(rows := rows, receipts := t.receipts[m := receipt],
        nextToken := if applied || reuse then t.nextToken else t.nextToken + 1),
     PrepareResult(if applied then StatusApplied else StatusPrepared, t.active, token, None,
                   if command.Some? then Some(snap) else None,
                   if command.Some? && applied then Some(v) else None))
  }

  /** Shared by both commands. */
  ghost function PrepareRow(t: Tables, lim: Limits, snap: Snapshot, command: Option<Bytes>): (Tables, PrepareResult) {
    match Verdict(t, lim, snap, command)
    case Some(code) => (t, RejectedWith(t, code))
    case None => Admitted(t, snap, command)
  }

  ghost function Prepare(t: Tables, lim: Limits, parsed: Parsed<Snapshot>): (Tables, PrepareResult) {
    match parsed
    case Refused(code) => (t, RejectedWith(t, code))
    case Parsed(snap) => PrepareRow(t, lim, snap, None)
  }

  predicate ReplayConflict(t: Tables, payload: Bytes, c: Command) {
    c.messageId in t.receipts
    && (t.receipts[c.messageId].version != c.version || t.receipts[c.messageId].command != Some(payload))
  }

  predicate AlreadyApplied(t: Tables, c: Command) {
    c.messageId in t.receipts && t.receipts[c.messageId].status == Applied
  }

  /** The cross-check made before an exact replay is confirmed. */
  predicate ReplayConsistent(t: Tables, c: Command) {
    && c.version in t.rows && t.rows[c.version].state == Committed && c.version <= t.active
    && t.rows[c.version].snapshot.messageId == c.messageId
  }

  ghost function PreparePatch(t: Tables, lim: Limits, payload: Bytes, command: Parsed<Command>, valid: bool, size: nat)
    : (Tables, Outcome<PrepareResult>)
  {
    if command.Refused? then (t, Done(RejectedWith(t, command.code)))
    else
      var c := command.value;
      if ReplayConflict(t, payload, c) then (t, Done(RejectedWith(t, MessageIdConflict)))
      else if AlreadyApplied(t, c) then
        if !ReplayConsistent(t, c) then (t, Raised(FormatFault))
        else (t, Done(PrepareResult(StatusApplied, t.active, None, None, None, Some(c.version))))
      else if c.version in t.rows && t.rows[c.version].snapshot.messageId != c.messageId
      then (t, Done(RejectedWith(t, VersionConflict)))
      else
        match LoadActive(t)
        case Raised(fault) => (t, Raised(fault))
        case Done(active) =>
          match Materialized(c, active, valid, size)
          case Refused(code) => (t, Done(RejectedWith(t, code)))
          case Parsed(snap) =>
            var (t', r) := PrepareRow(t, lim, snap, Some(payload));
            (t', Done(r))
  }

  ghost predicate Carries(t: Tables, v: Version, token: Token) {
    v in t.rows && t.rows[v].token == Some(token)
  }

  /** Every receipt of a version gets the status, as one UPDATE does. */
  function Settle(receipts: map<MessageId, Receipt>, v: Version, status: ReceiptStatus): map<MessageId, Receipt> {
    map m | m in receipts :: if receipts[m].version == v then receipts[m].(status := status) else receipts[m]
  }

  /** The candidate becomes the active version. */
  function Committing(t: Tables, v: Version): Tables
    requires v in t.rows
  {
    t.(rows := t.rows[v := t.rows[v].(state := Committed)], previous := t.active, active := v,
       receipts := Settle(t.receipts, v, Applied))
  }

  function Failing(t: Tables, v: Version): Tables
    requires v in t.rows
  {
    t.(rows := t.rows[v := t.rows[v].(state := Failed, token := None)], receipts := Settle(t.receipts, v, Rejected))
  }

  ghost function Commit(t: Tables, token: Token): (Tables, Outcome<Snapshot>) {
    if !(exists v: Version :: Carries(t, v, token)) then (t, Raised(InvalidCandidate))
    else
      var v: Version :| Carries(t, v, token);
      var row := t.rows[v];
      if row.state == Committed && v == t.active then (t, Done(row.snapshot))
      else if row.state != Prepared || v <= t.active then (t, Raised(InvalidCandidate))
      else
        (Committing(t, v), Done(row.snapshot))
  }

  ghost function Fail(t: Tables, token: Token): (Tables, Outcome<()>) {
    if !(exists v: Version :: Carries(t, v, token)) then (t, Raised(InvalidCandidate))
    else
      var v: Version :| Carries(t, v, token);
      if t.rows[v].state != Prepared then (t, Raised(InvalidCandidate))
      else
        (Failing(t, v), Done(()))
  }

  /** Recovery when the database is opened again: preparations in flight are interrupted. */
  function Reopen(t: Tables): Tables {
    t.(rows := map v | v in t.rows ::
         if t.rows[v].state == Prepared then t.rows[v].(state := Interrupted, token := None) else t.rows[v],
       receipts := map m | m in t.receipts ::
         if t.receipts[m].status == Pending then t.receipts[m].(status := Abandoned) else t.receipts[m])
  }

  // ---- The invariant

  ghost predicate RowsOk(t: Tables) {
    && (forall v :: v in t.rows ==> t.rows[v].snapshot.version == v)
    && (t.active != 0 ==> t.active in t.rows)
    && (forall v :: v in t.rows ==> (t.rows[v].state == Prepared ==> v > t.active))
    && (forall v :: v in t.rows ==> (t.rows[v].state == Committed ==> v <= t.active))
    && (t.active in t.rows ==> t.rows[t.active].state == Committed)
    && (forall v, w :: v in t.rows && w in t.rows && t.rows[v].state == Prepared && t.rows[w].state == Prepared ==>
      v == w)
  }

  ghost predicate TokensOk(t: Tables) {
    && (forall v :: v in t.rows ==> (t.rows[v].state == Prepared ==> t.rows[v].token.Some?))
    && (forall v :: v in t.rows ==> (t.rows[v].state in {Failed, Interrupted} ==> t.rows[v].token.None?))
    && (forall v :: v in t.rows ==> (t.rows[v].token.Some? ==> t.rows[v].token.value < t.nextToken))
    && (forall v, w :: v in t.rows && w in t.rows && t.rows[v].token.Some? && t.rows[v].token == t.rows[w].token ==>
      v == w)
  }

  ghost predicate ReceiptOk(rows: map<Version, Row>, m: MessageId, receipt: Receipt) {
    && receipt.version in rows
    && (receipt.status == Applied ==> rows[receipt.version].state == Committed)
    && (receipt.command.Some? ==> rows[receipt.version].snapshot.messageId == m)
  }

  ghost predicate ReceiptsOk(t: Tables) {
    forall m :: m in t.receipts ==> ReceiptOk(t.rows, m, t.receipts[m])
  }

  /** At most one candidate, newer than the active version; the active version is committed;
      applied receipts name committed versions; tokens identify rows. */
  ghost predicate Inv(t: Tables) {
    RowsOk(t) && TokensOk(t) && ReceiptsOk(t)
  }

  /** What an empty verdict guarantees about the candidate. */
  ghost predicate Admissible(t: Tables, snap: Snapshot, command: Option<Bytes>) {
    && (snap.messageId in t.receipts ==>
          t.receipts[snap.messageId].version == snap.version && t.receipts[snap.messageId].command == command)
    && t.active <= snap.version
    && (snap.version in t.rows ==> t.rows[snap.version].snapshot.content == snap.content)
    && (snap.version != t.active ==> !OtherPrepared(t, snap.version))
    && (command.Some? && snap.version in t.rows ==> t.rows[snap.version].snapshot.messageId == snap.messageId)
  }

  lemma AdmittedRows(t: Tables, snap: Snapshot, command: Option<Bytes>)
    requires Inv(t) && Admissible(t, snap, command)
    ensures RowsOk(Admitted(t, snap, command).0)
  {
  }

  lemma AdmittedTokens(t: Tables, snap: Snapshot, command: Option<Bytes>)
    requires Inv(t) && Admissible(t, snap, command)
    ensures TokensOk(Admitted(t, snap, command).0)
  {
    var v, t' := snap.version, Admitted(t, snap, command).0;
    assert forall w :: w in t'.rows && w != v ==> w in t.rows && t'.rows[w] == t.rows[w];
  }

  /** Every row stays, with its content, and a committed one stays committed. */
  ghost predicate RowsKept(t: Tables, t': Tables) {
    && (forall w :: w in t.rows ==> w in t'.rows && t'.rows[w].snapshot == t.rows[w].snapshot)
    && (forall w :: w in t.rows ==> (t.rows[w].state == Committed ==> t'.rows[w].state == Committed))
  }

  lemma AdmittedKeeps(t: Tables, snap: Snapshot, command: Option<Bytes>)
    requires RowsOk(t) && Admissible(t, snap, command)
    ensures RowsKept(t, Admitted(t, snap, command).0)
  {
  }

  lemma AdmittedReceipt(t: Tables, snap: Snapshot, command: Option<Bytes>)
    requires RowsOk(t) && Admissible(t, snap, command)
    ensures var t' := Admitted(t, snap, command).0;
            exists receipt :: t'.receipts == t.receipts[snap.messageId := receipt]
                              && ReceiptOk(t'.rows, snap.messageId, receipt)
  {
    var t' := Admitted(t, snap, command).0;
    assert t'.receipts == t.receipts[snap.messageId := t'.receipts[snap.messageId]];
    assert ReceiptOk(t'.rows, snap.messageId, t'.receipts[snap.messageId]);
  }

  lemma AdmittedReceipts(t: Tables, snap: Snapshot, command: Option<Bytes>)
    requires Inv(t) && Admissible(t, snap, command)
    ensures ReceiptsOk(Admitted(t, snap, command).0)
  {
    hide RowsOk, TokensOk, Admissible, Admitted;
    AdmittedKeeps(t, snap, command);
    AdmittedReceipt(t, snap, command);
  }

  lemma PrepareRowInv(t: Tables, lim: Limits, snap: Snapshot, command: Option<Bytes>)
    requires Inv(t)
    requires command.Some? && snap.version in t.rows ==> t.rows[snap.version].snapshot.messageId == snap.messageId
    ensures Inv(PrepareRow(t, lim, snap, command).0)
    ensures Verdict(t, lim, snap, command).None? ==> Admissible(t, snap, command)
  {
    if Verdict(t, lim, snap, command).None? {
      AdmittedRows(t, snap, command);
      AdmittedTokens(t, snap, command);
      AdmittedReceipts(t, snap, command);
    }
  }

  /** A patch step either changes nothing or admits the snapshot it materialises. */
  ghost predicate PatchOutcome(t: Tables, payload: Bytes, command: Parsed<Command>, valid: bool, size: nat,
                               t': Tables, r: PrepareResult) {
    || (t' == t && r.status != StatusPrepared && r.active == t.active && (r.status == StatusApplied ==> t.active != 0))
    || (command.Parsed? && LoadActive(t).Done?
      && Materialized(command.value, LoadActive(t).value, valid, size).Parsed? &&
        var snap := Materialized(command.value, LoadActive(t).value, valid, size).value;
        Admissible(t, snap, Some(payload)) && (t', r) == Admitted(t, snap, Some(payload)))
  }

  lemma PatchShape(t: Tables, lim: Limits, payload: Bytes, command: Parsed<Command>, valid: bool, size: nat)
    requires Inv(t)
    ensures var (t', r) := PreparePatch(t, lim, payload, command, valid, size);
            r.Done? && PatchOutcome(t, payload, command, valid, size, t', r.value)
  {
    hide Inv, Verdict, Materialized, Admissible, Admitted, LoadActive, ReplayConsistent;
    if command.Parsed? {
      var c := command.value;
      ActiveLoads(t, c);
      var m := Materialized(c, LoadActive(t).value, valid, size);
      if m.Parsed? && !(c.version in t.rows && t.rows[c.version].snapshot.messageId != c.messageId) {
        MaterializedNames(c, LoadActive(t).value, valid, size);
        PrepareRowInv(t, lim, m.value, Some(payload));
      }
    }
  }

  lemma MaterializedNames(c: Command, active: Option<Snapshot>, valid: bool, size: nat)
    requires Materialized(c, active, valid, size).Parsed?
    ensures Materialized(c, active, valid, size).value.version == c.version
    ensures Materialized(c, active, valid, size).value.messageId == c.messageId
  {
  }

  lemma ActiveLoads(t: Tables, c: Command)
    requires Inv(t)
    ensures LoadActive(t).Done?
    ensures AlreadyApplied(t, c) && t.receipts[c.messageId].version == c.version
            && t.receipts[c.messageId].command.Some? ==>
              ReplayConsistent(t, c) && t.active != 0
  {
  }

  lemma PreparePatchInv(t: Tables, lim: Limits, payload: Bytes, command: Parsed<Command>, valid: bool, size: nat)
    requires Inv(t)
    ensures Inv(PreparePatch(t, lim, payload, command, valid, size).0)
    ensures PreparePatch(t, lim, payload, command, valid, size).1.Done?
  {
    PatchShape(t, lim, payload, command, valid, size);
    var t' := PreparePatch(t, lim, payload, command, valid, size).0;
    if t' != t {
      var snap := Materialized(command.value, LoadActive(t).value, valid, size).value;
      AdmittedRows(t, snap, Some(payload));
      AdmittedTokens(t, snap, Some(payload));
      AdmittedReceipts(t, snap, Some(payload));
    }
  }

  /** A version that waits to be committed or failed. */
  ghost predicate Candidate(t: Tables, v: Version) {
    v in t.rows && t.rows[v].state == Prepared && v > t.active
  }

  lemma CommitShape(t: Tables, token: Token)
    ensures var t' := Commit(t, token).0;
            t' == t || exists v: Version :: Candidate(t, v) && t' == Committing(t, v)
  {
  }

  lemma FailShape(t: Tables, token: Token)
    requires RowsOk(t)
    ensures var t' := Fail(t, token).0;
            t' == t || exists v: Version :: Candidate(t, v) && t' == Failing(t, v)
  {
    if Fail(t, token).0 != t {
      var v: Version :| Carries(t, v, token) && Fail(t, token).0 == Failing(t, v) && t.rows[v].state == Prepared;
      assert Candidate(t, v);
    }
  }

  lemma CommittingInv(t: Tables, v: Version)
    requires Inv(t) && Candidate(t, v)
    ensures Inv(Committing(t, v))
  {
  }

  lemma FailingInv(t: Tables, v: Version)
    requires Inv(t) && Candidate(t, v)
    ensures Inv(Failing(t, v))
  {
  }

  lemma CommitInv(t: Tables, token: Token)
    requires Inv(t)
    ensures Inv(Commit(t, token).0)
  {
    CommitShape(t, token);
    forall v: Version | Candidate(t, v) ensures Inv(Committing(t, v)) { CommittingInv(t, v); }
    hide Commit, Committing, Inv, Candidate;
  }

  lemma FailInv(t: Tables, token: Token)
    requires Inv(t)
    ensures Inv(Fail(t, token).0)
  {
    FailShape(t, token);
    forall v: Version | Candidate(t, v) ensures Inv(Failing(t, v)) { FailingInv(t, v); }
    hide Fail, Failing, Inv, Candidate;
  }

  lemma ReopenRows(t: Tables)
    requires Inv(t)
    ensures RowsOk(Reopen(t)) && TokensOk(Reopen(t))
  {
    var t' := Reopen(t);
    assert t'.rows.Keys == t.rows.Keys;
    assert forall v :: v in t'.rows ==> t'.rows[v].snapshot == t.rows[v].snapshot && t'.rows[v].state != Prepared;
    assert forall v :: v in t'.rows && t'.rows[v].state == Committed ==> t.rows[v].state == Committed;
    assert forall v :: v in t'.rows && t'.rows[v].token.Some? ==> t'.rows[v] == t.rows[v];
  }

  lemma ReopenReceipts(t: Tables)
    requires Inv(t)
    ensures ReceiptsOk(Reopen(t))
  {
    ReopenKeeps(t);
    ReopenSettles(t);
    hide RowsOk, TokensOk, Reopen;
  }

  lemma ReopenKeeps(t: Tables)
    ensures RowsKept(t, Reopen(t))
  {
  }

  lemma ReopenSettles(t: Tables)
    ensures forall m :: m in Reopen(t).receipts ==>
              && m in t.receipts && Reopen(t).receipts[m].version == t.receipts[m].version
              && Reopen(t).receipts[m].command == t.receipts[m].command
              && (Reopen(t).receipts[m].status == Applied ==> t.receipts[m].status == Applied)
  {
  }

  lemma ReopenInv(t: Tables)
    requires Inv(t)
    ensures Inv(Reopen(t))
    ensures forall v :: v in Reopen(t).rows ==> Reopen(t).rows[v].state != Prepared
    ensures LoadActive(Reopen(t)) == LoadActive(t)
  {
    ReopenRows(t);
    ReopenReceipts(t);
  }

  // ---- Runs

  datatype Op =
    | PrepareOp(parsed: Parsed<Snapshot>)
    | PatchOp(payload: Bytes, command: Parsed<Command>, valid: bool, size: nat)
    | CommitOp(token: Token)
    | FailOp(token: Token)
    | ReopenOp
    | FaultOp

  ghost function Step(t: Tables, lim: Limits, op: Op): Tables {
    match op
    case PrepareOp(parsed) => Prepare(t, lim, parsed).0
    case PatchOp(payload, command, valid, size) => PreparePatch(t, lim, payload, command, valid, size).0
    case CommitOp(token) => Commit(t, token).0
    case FailOp(token) => Fail(t, token).0
    case ReopenOp => Reopen(t)
    case FaultOp => t
  }

  ghost function Run(t: Tables, lim: Limits, ops: seq<Op>): Tables
    decreases |ops|
  {
    if ops == [] then t else Run(Step(t, lim, ops[0]), lim, ops[1..])
  }

  lemma StepInv(t: Tables, lim: Limits, op: Op)
    requires Inv(t)
    ensures Inv(Step(t, lim, op))
  {
    match op
    case PrepareOp(parsed) => if parsed.Parsed? { PrepareRowInv(t, lim, parsed.value, None); }
    case PatchOp(payload, command, valid, size) => PreparePatchInv(t, lim, payload, command, valid, size);
    case CommitOp(token) => CommitInv(t, token);
    case FailOp(token) => FailInv(t, token);
    case ReopenOp => ReopenInv(t);
    case FaultOp =>
  }

  /** What no step takes back: the active version grows, stored content and applied receipts stay. */
  ghost predicate Extends(t: Tables, t': Tables) {
    && t.active <= t'.active
    && t.nextToken <= t'.nextToken
    && (forall v :: v in t.rows ==> v in t'.rows && t'.rows[v].snapshot == t.rows[v].snapshot)
    && (forall v :: v in t.rows ==> (t.rows[v].state == Committed ==> t'.rows[v].state == Committed))
    && (forall m :: m in t.receipts ==>
          (m in t'.receipts && t'.receipts[m].version == t.receipts[m].version
            && t'.receipts[m].command == t.receipts[m].command))
    && (forall m :: m in t.receipts ==> (t.receipts[m].status == Applied ==> t'.receipts[m].status == Applied))
  }

  lemma AdmittedExtends(t: Tables, snap: Snapshot, command: Option<Bytes>)
    requires Inv(t) && Admissible(t, snap, command)
    ensures Extends(t, Admitted(t, snap, command).0)
  {
  }

  lemma StepExtends(t: Tables, lim: Limits, op: Op)
    requires Inv(t)
    ensures Extends(t, Step(t, lim, op))
  {
    match op
    case PrepareOp(parsed) =>
      if parsed.Parsed? && Verdict(t, lim, parsed.value, None).None? { AdmittedExtends(t, parsed.value, None); }
    case PatchOp(payload, command, valid, size) =>
      PatchShape(t, lim, payload, command, valid, size);
      if Step(t, lim, op) != t {
        AdmittedExtends(t, Materialized(command.value, LoadActive(t).value, valid, size).value, Some(payload));
      }
    case CommitOp(token) => CommitExtends(t, token);
    case FailOp(token) => FailExtends(t, token);
    case ReopenOp => ReopenExtends(t);
    case FaultOp =>
  }

  lemma CommitExtends(t: Tables, token: Token)
    requires Inv(t)
    ensures Extends(t, Commit(t, token).0)
  {
    CommitShape(t, token);
    hide Commit, TokensOk, ReceiptsOk;
  }

  lemma FailExtends(t: Tables, token: Token)
    requires Inv(t)
    ensures Extends(t, Fail(t, token).0)
  {
    FailShape(t, token);
    hide Fail, TokensOk, ReceiptsOk;
  }

  lemma ReopenExtends(t: Tables)
    requires Inv(t)
    ensures Extends(t, Reopen(t))
  {
  }

  /** In every run, from any consistent state, the invariant holds and history is kept. */
  lemma {:induction false} RunInv(t: Tables, lim: Limits, ops: seq<Op>)
    requires Inv(t)
    ensures Inv(Run(t, lim, ops))
    ensures Extends(t, Run(t, lim, ops))
    decreases |ops|
  {
    if ops != [] {
      var t' := Step(t, lim, ops[0]);
      StepInv(t, lim, ops[0]);
      StepExtends(t, lim, ops[0]);
      RunInv(t', lim, ops[1..]);
    }
  }

  /** Whatever has happened since an empty database, the store is consistent. */
  lemma ReachableInv(lim: Limits, ops: seq<Op>)
    ensures Inv(Run(Empty, lim, ops))
  {
    assert Inv(Empty);
    RunInv(Empty, lim, ops);
  }

  // ---- How tokens move

  /** A token seen before the step was on the same row before; a candidate that keeps its token keeps
      its content, and the active configuration has not moved under it. */
  ghost predicate TokenFrame(t: Tables, t': Tables) {
    && t.nextToken <= t'.nextToken
    && forall v :: v in t'.rows && t'.rows[v].token.Some? && t'.rows[v].token.value < t.nextToken ==>
         && v in t.rows && t.rows[v].token == t'.rows[v].token && t'.rows[v].snapshot == t.rows[v].snapshot
         && (t'.rows[v].state == Prepared ==> t.rows[v].state == Prepared && LoadActive(t') == LoadActive(t))
  }

  lemma AdmittedFrame(t: Tables, snap: Snapshot, command: Option<Bytes>)
    requires Inv(t) && Admissible(t, snap, command)
    ensures TokenFrame(t, Admitted(t, snap, command).0)
  {
  }

  lemma CommitFrame(t: Tables, token: Token)
    requires Inv(t)
    ensures TokenFrame(t, Commit(t, token).0)
  {
  }

  lemma FailFrame(t: Tables, token: Token)
    requires Inv(t)
    ensures TokenFrame(t, Fail(t, token).0)
  {
  }

  lemma ReopenFrame(t: Tables)
    requires Inv(t)
    ensures TokenFrame(t, Reopen(t))
  {
  }

  lemma StepFrame(t: Tables, lim: Limits, op: Op)
    requires Inv(t)
    ensures TokenFrame(t, Step(t, lim, op))
  {
    match op
    case PrepareOp(parsed) =>
      if parsed.Parsed? && Verdict(t, lim, parsed.value, None).None? { AdmittedFrame(t, parsed.value, None); }
    case PatchOp(payload, command, valid, size) =>
      PatchShape(t, lim, payload, command, valid, size);
      if Step(t, lim, op) != t {
        AdmittedFrame(t, Materialized(command.value, LoadActive(t).value, valid, size).value, Some(payload));
      }
    case CommitOp(token) => CommitFrame(t, token);
    case FailOp(token) => FailFrame(t, token);
    case ReopenOp => ReopenFrame(t);
    case FaultOp =>
  }

  // ---- Dead tokens

  /** A token that was handed out and is on no row: it failed or was interrupted. */
  ghost predicate Dead(t: Tables, token: Token) {
    token < t.nextToken && forall v :: v in t.rows ==> t.rows[v].token != Some(token)
  }

  /** Failing a candidate, or reopening over it, kills its token. */
  lemma TokenDies(t: Tables, v: Version, token: Token)
    requires Inv(t) && Carries(t, v, token) && t.rows[v].state == Prepared
    ensures Fail(t, token).1.Done? && Dead(Fail(t, token).0, token)
    ensures Dead(Reopen(t), token)
  {
  }

  /** A failed or interrupted token never works again, in any later state. */
  lemma {:induction false} DeadForever(t: Tables, lim: Limits, ops: seq<Op>, token: Token)
    requires Inv(t) && Dead(t, token)
    ensures var t' := Run(t, lim, ops);
            Commit(t', token) == (t', Raised(InvalidCandidate)) && Fail(t', token) == (t', Raised(InvalidCandidate))
    decreases |ops|
  {
    if ops != [] {
      StepInv(t, lim, ops[0]);
      StepFrame(t, lim, ops[0]);
      assert Dead(Step(t, lim, ops[0]), token);
      DeadForever(Step(t, lim, ops[0]), lim, ops[1..], token);
    } else {
      assert forall v: Version :: !Carries(t, v, token);
    }
  }

  // ---- No lost update

  /** The candidate still waits under its token, over an unchanged active version. */
  ghost predicate Waiting(t: Tables, token: Token, snap: Snapshot, active: Option<Snapshot>) {
    && Carries(t, snap.version, token)
    && t.rows[snap.version].state == Prepared && t.rows[snap.version].snapshot.content == snap.content
    && LoadActive(t) == Done(active)
  }

  /** The token was handed out and no longer belongs to a candidate. */
  ghost predicate Settled(t: Tables, token: Token) {
    token < t.nextToken && forall v :: v in t.rows && t.rows[v].token == Some(token) ==> t.rows[v].state != Prepared
  }

  lemma WaitingStep(t: Tables, t': Tables, token: Token, snap: Snapshot, active: Option<Snapshot>)
    requires Inv(t) && TokenFrame(t, t') && Waiting(t, token, snap, active)
    ensures Waiting(t', token, snap, active) || Settled(t', token)
  {
  }

  lemma {:induction false} WaitingRun(t: Tables, lim: Limits, ops: seq<Op>, token: Token, snap: Snapshot,
                                      active: Option<Snapshot>)
    requires Inv(t) && (Waiting(t, token, snap, active) || Settled(t, token))
    ensures Waiting(Run(t, lim, ops), token, snap, active) || Settled(Run(t, lim, ops), token)
    decreases |ops|
  {
    if ops != [] {
      StepInv(t, lim, ops[0]);
      StepFrame(t, lim, ops[0]);
      if Waiting(t, token, snap, active) { WaitingStep(t, Step(t, lim, ops[0]), token, snap, active); }
      WaitingRun(Step(t, lim, ops[0]), lim, ops[1..], token, snap, active);
    }
  }

  lemma PatchWaits(t: Tables, lim: Limits, payload: Bytes, c: Command, valid: bool, size: nat)
    requires Inv(t)
    requires var (_, r) := PreparePatch(t, lim, payload, Parsed(c), valid, size);
             r.Done? && r.value.status == StatusPrepared
    ensures var (t', r) := PreparePatch(t, lim, payload, Parsed(c), valid, size);
            var active := LoadActive(t).value;
            && r.value.token.Some? && Materialized(c, active, valid, size).Parsed?
            && r.value.snapshot == Some(Materialized(c, active, valid, size).value)
            && Waiting(t', r.value.token.value, Materialized(c, active, valid, size).value, active)
  {
    PatchShape(t, lim, payload, Parsed(c), valid, size);
  }

  lemma CommitWaiting(t: Tables, token: Token, snap: Snapshot, active: Option<Snapshot>)
    requires Inv(t) && Waiting(t, token, snap, active)
    ensures var (t', done) := Commit(t, token);
            && done.Done? && done.value == t.rows[snap.version].snapshot && done.value.content == snap.content
            && t'.active == snap.version && LoadActive(t') == Done(Some(done.value))
            && t'.receipts == Settle(t.receipts, snap.version, Applied)
  {
  }

  lemma CommitSettled(t: Tables, token: Token)
    requires Inv(t) && Settled(t, token)
    ensures Commit(t, token).0 == t
  {
  }

  /** The committed snapshot is the command applied to the configuration active just before, which
      the command names by version and message. */
  ghost predicate CommitsPatch(before: Tables, after: Tables, committed: Snapshot, c: Command, valid: bool, size: nat) {
    LoadActive(before).Done? &&
    var base := LoadActive(before).value;
    && NamesBase(c, base) && Materialized(c, base, valid, size).Parsed?
    && committed.content == Materialized(c, base, valid, size).value.content
    && after.active == c.version && LoadActive(after) == Done(Some(committed))
  }

  /** If a token returned for a patch is later committed, the patch named the version and message
      that are active at that commit, and what is committed is the patch applied to that content. */
  lemma NoLostUpdate(t: Tables, lim: Limits, payload: Bytes, c: Command, valid: bool, size: nat, ops: seq<Op>,
                     t1: Tables, r: PrepareResult)
    requires Inv(t)
    requires PreparePatch(t, lim, payload, Parsed(c), valid, size) == (t1, Done(r)) && r.status == StatusPrepared
    ensures r.token.Some?
    ensures var t2 := Run(t1, lim, ops);
            var (t3, done) := Commit(t2, r.token.value);
            t3 == t2 || (done.Done? && CommitsPatch(t2, t3, done.value, c, valid, size))
  {
    PreparePatchInv(t, lim, payload, Parsed(c), valid, size);
    PatchWaits(t, lim, payload, c, valid, size);
    var active, token := LoadActive(t).value, r.token.value;
    var snap := Materialized(c, active, valid, size).value;
    WaitingRun(t1, lim, ops, token, snap, active);
    RunInv(t1, lim, ops);
    var t2 := Run(t1, lim, ops);
    if Waiting(t2, token, snap, active) { CommitWaiting(t2, token, snap, active); } else { CommitSettled(t2, token); }
  }

  // ---- Exact replay

  /** Once a patch is applied, the same bytes are answered APPLIED with the original version in
      every later state; nothing changes and the inconsistency error is not reached. */
  lemma ExactReplay(t: Tables, lim: Limits, payload: Bytes, c: Command, ops: seq<Op>, valid: bool, size: nat)
    requires Inv(t)
    requires c.messageId in t.receipts && t.receipts[c.messageId] == Receipt(c.version, Applied, Some(payload))
    ensures var t' := Run(t, lim, ops);
            PreparePatch(t', lim, payload, Parsed(c), valid, size)
            == (t', Done(PrepareResult(StatusApplied, t'.active, None, None, None, Some(c.version))))
  {
    RunInv(t, lim, ops);
  }

  /** Committing a patch's candidate leaves exactly the receipt that replay relies on. */
  lemma CommitLeavesReceipt(t: Tables, lim: Limits, payload: Bytes, c: Command, valid: bool, size: nat)
    requires Inv(t)
    requires var (_, r) := PreparePatch(t, lim, payload, Parsed(c), valid, size);
             r.Done? && r.value.status == StatusPrepared
    ensures var (t1, r) := PreparePatch(t, lim, payload, Parsed(c), valid, size);
            r.value.token.Some? &&
            var (t2, done) := Commit(t1, r.value.token.value);
            done.Done? && c.messageId in t2.receipts
              && t2.receipts[c.messageId] == Receipt(c.version, Applied, Some(payload))
  {
    var (t1, r) := PreparePatch(t, lim, payload, Parsed(c), valid, size);
    PatchShape(t, lim, payload, Parsed(c), valid, size);
    PreparePatchInv(t, lim, payload, Parsed(c), valid, size);
    PatchWaits(t, lim, payload, c, valid, size);
    var active := LoadActive(t).value;
    CommitWaiting(t1, r.value.token.value, Materialized(c, active, valid, size).value, active);
  }
}
