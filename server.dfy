/**
 * MineCraftServer: the controller of the one Compute Engine instance that
 * hosts the game.  It keeps the instance resource fetched when it was built
 * and issues a provider call only when the cached status allows it.
 */
module Server {
  import opened Config
  import opened Text

  const TERMINATED: string := "TERMINATED"
  const RUNNING: string := "RUNNING"

  /** The fields of the fetched instance resource that the controller reads. */
  datatype Instance = Instance(status: string, machineType: string)

  /** A mutating request to the provider's `instances()` collection, in issue order. */
  datatype Call = StartInstance | StopInstance | UpdateInstance(body: Instance)

  /** The machine type that `scale(up)` aims for. */
  function TargetType(up: bool): (t: string)
    ensures t == MACHINE_TYPE_DICT[if up then "high" else "default"]
    ensures t in MACHINE_TYPE_DICT.Values && '/' !in t
  {
    if up then MACHINE_TYPE_DICT["high"] else MACHINE_TYPE_DICT["default"]
  }

  /** Whether `scale(up)` on this snapshot rewrites the machine type and calls update. */
  predicate ScaleChanges(inst: Instance, up: bool)
  {
    inst.status == TERMINATED && !EndsWith(inst.machineType, TargetType(up))
  }

  /** The snapshot after `scale(up)`. */
  function AfterScale(inst: Instance, up: bool): Instance
  {
    if ScaleChanges(inst, up) then inst.(machineType := MACHINE_TYPE_SUFFIX + TargetType(up)) else inst
  }

  /** The provider calls `scale(up)` issues: the update carries the rewritten resource. */
  function ScaleCalls(inst: Instance, up: bool): seq<Call>
  {
    if ScaleChanges(inst, up) then [UpdateInstance(AfterScale(inst, up))] else []
  }

  /**
   * What a resize leaves behind: the status is kept; on a stopped instance
   * the machine type ends with the target afterwards, and the label read back
   * is the target exactly whenever the resize rewrote the path.
   */
  lemma {:induction false} AfterScaleReachesTarget(inst: Instance, up: bool)
    ensures AfterScale(inst, up).status == inst.status
    ensures inst.status == TERMINATED ==> EndsWith(AfterScale(inst, up).machineType, TargetType(up))
    ensures ScaleChanges(inst, up) ==> AfterLast(AfterScale(inst, up).machineType, '/') == TargetType(up)
  {
    MachineTypePaths();
    var t := TargetType(up);
    var p := MACHINE_TYPE_SUFFIX + t;
    assert p[|p| - |t|..] == t;
    if ScaleChanges(inst, up) {
      AfterLastOfSeparated(MACHINE_TYPE_SUFFIX, t, '/');
    }
  }

  /** Resizing twice to the same tier is resizing once, and the second time calls nothing. */
  lemma ScaleIdempotent(inst: Instance, up: bool)
    ensures AfterScale(AfterScale(inst, up), up) == AfterScale(inst, up)
    ensures ScaleCalls(AfterScale(inst, up), up) == []
  {
  }

  /** A resize is refused outright unless the instance is stopped. */
  lemma ScaleGuard(inst: Instance, up: bool)
    requires inst.status != TERMINATED
    ensures AfterScale(inst, up) == inst && ScaleCalls(inst, up) == []
  {
  }

  /** Scaling up and scaling down aim at different machine types that `endswith` tells apart. */
  lemma TargetsDistinct(up: bool)
    ensures TargetType(up) != TargetType(!up)
    ensures !EndsWith(TargetType(up), TargetType(!up))
  {
  }

  class MineCraftServer {
    const project: string
    const zone: string
    const instanceName: string
    /** The cached instance resource; only `Scale` rewrites it. */
    var instance: Instance
    /** The provider calls issued so far. */
    var calls: seq<Call>

    /** Built around the resource the provider's `get` returned. */
    constructor (project: string, zone: string, instanceName: string, fetched: Instance)
      ensures this.project == project && this.zone == zone && this.instanceName == instanceName
      ensures instance == fetched && calls == []
    {
      this.project := project;
      this.zone := zone;
      this.instanceName := instanceName;
      instance := fetched;
      calls := [];
    }

    /** Starts a stopped instance; the snapshot is not touched. */
    method Start() returns (ret: bool)
      modifies this`calls
      ensures ret <==> instance.status == TERMINATED
      ensures calls == old(calls) + (if ret then [StartInstance] else [])
    {
      if instance.status == TERMINATED {
        calls := calls + [StartInstance];
        return true;
      }
      return false;
    }

    /** Stops a running instance; the snapshot, status included, is not touched. */
    method Stop() returns (ret: bool)
      modifies this`calls
      ensures ret <==> instance.status == RUNNING
      ensures calls == old(calls) + (if ret then [StopInstance] else [])
    {
      if instance.status == RUNNING {
        calls := calls + [StopInstance];
        return true;
      }
      return false;
    }

    /**
     * Resizes a stopped instance to the high tier (`up`) or the default one:
     * the cached machine type is rewritten in place and sent with an update,
     * unless it already ends with the target.
     */
    method Scale(up: bool) returns (ret: bool)
      modifies this`instance, this`calls
      ensures ret <==> old(instance).status == TERMINATED
      ensures instance == AfterScale(old(instance), up)
      ensures calls == old(calls) + ScaleCalls(old(instance), up)
    {
      if instance.status == TERMINATED {
        var afterType := if up then MACHINE_TYPE_DICT["high"] else MACHINE_TYPE_DICT["default"];
        if !EndsWith(instance.machineType, afterType) {
          instance := instance.(machineType := MACHINE_TYPE_SUFFIX + afterType);
          calls := calls + [UpdateInstance(instance)];
        }
        return true;
      }
      return false;
    }

    /** The machine-type name: what follows the last `/` of the cached path. */
    function GetMachineTypeStr(): (name: string)
      reads this
      ensures '/' !in name
      ensures EndsWith(instance.machineType, name)
      ensures |name| < |instance.machineType| ==> instance.machineType[|instance.machineType| - |name| - 1] == '/'
      ensures '/' !in instance.machineType ==> name == instance.machineType
    {
      AfterLast(instance.machineType, '/')
    }

    /** Whether the cached machine type is the default tier's. */
    function IsMachineTypeDefault(): (b: bool)
      reads this
      ensures b <==> GetMachineTypeStr() == MACHINE_TYPE_DICT["default"]
    {
      var machineType := instance.machineType;
      machineType[RFind(machineType, '/') + 1..] == MACHINE_TYPE_DICT["default"]
    }
  }

  /** Two resizes to the same tier in a row: the second reports success and calls nothing. */
  method ScaleTwice(server: MineCraftServer, up: bool) returns (first: bool, second: bool)
    modifies server`instance, server`calls
    ensures first == second
    ensures server.instance == AfterScale(old(server.instance), up)
    ensures server.calls == old(server.calls) + ScaleCalls(old(server.instance), up)
  {
    first := server.Scale(up);
    ScaleIdempotent(old(server.instance), up);
    second := server.Scale(up);
  }
}
