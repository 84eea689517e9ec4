/** Configuration snapshots and the materialisation of a device command against its exact
    committed base (src/plcnext_iot/config/models.py, src/plcnext_iot/config/patch.py).
    JSON text is abstract: a configuration is a table of gateway settings and a table of devices. */
module ConfigPatch {
  import opened Common

  type Version = v: int | 0 < v witness 1
  type MessageId = string

  /** A point's settings, split into what the driver executes and what only reporting reads. */
  datatype PointSettings = PointSettings(pointId: string, enabled: bool, acquisition: string, reporting: string)

  datatype Device = Device(name: string, enabled: bool, protocol: string, connection: string,
                           points: seq<PointSettings>)

  datatype Content = Content(settings: map<string, string>, devices: map<string, Device>)

  /** A validated full configuration; `size` is the length of its wire form. */
  datatype Snapshot = Snapshot(messageId: MessageId, version: Version, content: Content, size: nat)

  datatype Operation =
    | Add(deviceId: string, device: Device)
    | Replace(deviceId: string, device: Device)
    | Remove(deviceId: string)

  datatype Command = Command(
    messageId: MessageId,
    version: Version,
    baseVersion: nat,
    baseMessageId: Option<MessageId>,
    gateway: map<string, string>,
    operations: seq<Operation>)

  datatype Code =
    | ContractInvalid
    | BaseConfigMismatch
    | DeviceExists(index: nat)
    | DeviceNotFound(index: nat)
    | MessageIdConflict
    | VersionConflict
    | StaleVersion
    | ResourceLimit

  datatype Parsed<+T> = Parsed(value: T) | Refused(code: Code)

  // ---- The loop over operations, as a function

  function ApplyOne(devices: map<string, Device>, op: Operation): map<string, Device> {
    match op
    case Add(k, d) => devices[k := d]
    case Replace(k, d) => devices[k := d]
    case Remove(k) => devices - {k}
  }

  predicate Legal(devices: map<string, Device>, op: Operation) {
    if op.Add? then op.deviceId !in devices else op.deviceId in devices
  }

  function Refusal(op: Operation, index: nat): Code {
    if op.Add? then DeviceExists(index) else DeviceNotFound(index)
  }

  /** Operations from `index` on, applied in order to the devices reached so far. */
  function ApplyFrom(devices: map<string, Device>, ops: seq<Operation>, index: nat): Parsed<map<string, Device>>
    requires index <= |ops|
    decreases |ops| - index
  {
    if index == |ops| then Parsed(devices)
    else if !Legal(devices, ops[index]) then Refused(Refusal(ops[index], index))
    else ApplyFrom(ApplyOne(devices, ops[index]), ops, index + 1)
  }

  function BaseContent(active: Option<Snapshot>): Content {
    if active.Some? then active.value.content else Content(map[], map[])
  }

  predicate NamesBase(command: Command, active: Option<Snapshot>) {
    if active.Some?
    then command.baseVersion == active.value.version && command.baseMessageId == Some(active.value.messageId)
    else command.baseVersion == 0 && command.baseMessageId == None
  }

  /** The whole command; `valid` and `size` are the verdict and wire length of the resulting configSet. */
  function Materialized(command: Command, active: Option<Snapshot>, valid: bool, size: nat): Parsed<Snapshot> {
    if !NamesBase(command, active) then Refused(BaseConfigMismatch)
    else
      var base := BaseContent(active);
      match ApplyFrom(base.devices, command.operations, 0)
      case Refused(code) => Refused(code)
      case Parsed(devices) =>
        if !valid then Refused(ContractInvalid)
        else Parsed(Snapshot(command.messageId, command.version, Content(base.settings + command.gateway, devices),
          size))
  }

  method Materialize(command: Command, active: Option<Snapshot>, valid: bool, size: nat)
    returns (r: Parsed<Snapshot>)
    ensures r == Materialized(command, active, valid, size)
  {
    var baseVersion: nat, baseMessageId: Option<MessageId> := 0, None;
    if active.Some? {
      baseVersion, baseMessageId := active.value.version, Some(active.value.messageId);
    }
    if command.baseVersion != baseVersion || command.baseMessageId != baseMessageId {
      return Refused(BaseConfigMismatch);
    }
    var config := if active.Some? then active.value.content else Content(map[], map[]);
    config := config.(settings := config.settings + command.gateway);
    var devices := config.devices;
    for index := 0 to |command.operations|
      invariant ApplyFrom(BaseContent(active).devices, command.operations, 0)
             == ApplyFrom(devices, command.operations, index)
    {
      var operation := command.operations[index];
      if operation.Add? && operation.deviceId in devices { return Refused(DeviceExists(index)); }
      if !operation.Add? && operation.deviceId !in devices { return Refused(DeviceNotFound(index)); }
      if operation.Remove? {
        devices := devices - {operation.deviceId};
      } else {
        devices := devices[operation.deviceId := operation.device];
      }
    }
    config := config.(devices := devices);
    if !valid { return Refused(ContractInvalid); }
    r := Parsed(Snapshot(command.messageId, command.version, config, size));
  }

  // ---- What the operations mean, said without running them

  /** The last of the first n operations that names the device, or -1. */
  function LastNaming(ops: seq<Operation>, n: nat, k: string): (i: int)
    requires n <= |ops|
    ensures -1 <= i < n
    ensures 0 <= i ==> ops[i].deviceId == k
    ensures forall j :: i < j < n ==> ops[j].deviceId != k
  {
    if n == 0 then -1 else if ops[n - 1].deviceId == k then n - 1 else LastNaming(ops, n - 1, k)
  }

  /** What the first n operations leave for a device: the last word on it, or the base's entry. */
  function Meaning(base: map<string, Device>, ops: seq<Operation>, n: nat, k: string): Option<Device>
    requires n <= |ops|
  {
    var i := LastNaming(ops, n, k);
    if i == -1 then if k in base then Some(base[k]) else None
    else if ops[i].Remove? then None
    else Some(ops[i].device)
  }

  /** An operation may be applied when the device is absent before an add, present before the others. */
  predicate Consistent(base: map<string, Device>, ops: seq<Operation>, i: nat)
    requires i < |ops|
  {
    ops[i].Add? <==> Meaning(base, ops, i, ops[i].deviceId).None?
  }

  ghost predicate Reached(base: map<string, Device>, ops: seq<Operation>, n: nat, devices: map<string, Device>)
    requires n <= |ops|
  {
    forall k :: Meaning(base, ops, n, k) == if k in devices then Some(devices[k]) else None
  }

  lemma ReachedStep(base: map<string, Device>, ops: seq<Operation>, n: nat, devices: map<string, Device>)
    requires n < |ops| && Reached(base, ops, n, devices)
    ensures Consistent(base, ops, n) <==> Legal(devices, ops[n])
    ensures Reached(base, ops, n + 1, ApplyOne(devices, ops[n]))
  {
    var next := ApplyOne(devices, ops[n]);
    assert Meaning(base, ops, n, ops[n].deviceId).None? <==> ops[n].deviceId !in devices;
    forall k ensures Meaning(base, ops, n + 1, k) == if k in next then Some(next[k]) else None {
      if k == ops[n].deviceId {
        assert LastNaming(ops, n + 1, k) == n;
      } else {
        assert LastNaming(ops, n + 1, k) == LastNaming(ops, n, k);
        assert Meaning(base, ops, n + 1, k) == Meaning(base, ops, n, k);
      }
    }
  }

  lemma {:induction false} ApplyFromMeaning(base: map<string, Device>, ops: seq<Operation>, n: nat,
                                            devices: map<string, Device>)
    requires n <= |ops| && Reached(base, ops, n, devices)
    ensures ApplyFrom(devices, ops, n).Parsed? <==> forall i :: n <= i < |ops| ==> Consistent(base, ops, i)
    ensures ApplyFrom(devices, ops, n).Parsed? ==> Reached(base, ops, |ops|, ApplyFrom(devices, ops, n).value)
    decreases |ops| - n
  {
    if n < |ops| {
      ReachedStep(base, ops, n, devices);
      if Legal(devices, ops[n]) {
        ApplyFromMeaning(base, ops, n + 1, ApplyOne(devices, ops[n]));
        assert ApplyFrom(devices, ops, n) == ApplyFrom(ApplyOne(devices, ops[n]), ops, n + 1);
      }
    }
  }

  /** A command is accepted exactly when it names its base and every operation is consistent; the
      accepted snapshot holds, for every device, the last word of the command or the base's entry. */
  lemma MaterializedMeaning(command: Command, active: Option<Snapshot>, valid: bool, size: nat)
    ensures var base, ops := BaseContent(active), command.operations;
            var r := Materialized(command, active, valid, size);
            && (r.Parsed? <==> NamesBase(command, active) && valid
                               && forall i :: 0 <= i < |ops| ==> Consistent(base.devices, ops, i))
            && (r.Parsed? ==>
                && r.value.messageId == command.messageId && r.value.version == command.version
                && r.value.content.settings == base.settings + command.gateway
                && Reached(base.devices, ops, |ops|, r.value.content.devices))
  {
    var base := BaseContent(active).devices;
    assert Reached(base, command.operations, 0, base);
    ApplyFromMeaning(base, command.operations, 0, base);
  }
}
