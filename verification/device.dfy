/** The device builder's queue bookkeeping and device creation. */
module Devices {

  import opened Vk
  import opened Logging
  import Requirements

  /** `queues_[index].push_back(priority)`: a family seen for the first time
      starts an empty list. */
  function WithQueue(queues: map<nat, seq<real>>, index: nat, priority: real): (r: map<nat, seq<real>>)
    ensures r.Keys == queues.Keys + {index}
    ensures index in queues ==> r[index] == queues[index] + [priority]
    ensures index !in queues ==> r[index] == [priority]
    ensures forall f :: f in queues && f != index ==> r[f] == queues[f]
  {
    queues[index := (if index in queues then queues[index] else []) + [priority]]
  }

  /** Adding the priorities of `ps` to one family, one call each. */
  function WithQueues(queues: map<nat, seq<real>>, index: nat, ps: seq<real>): map<nat, seq<real>>
    decreases |ps|
  {
    if ps == [] then queues
    else WithQueues(WithQueue(queues, index, ps[0]), index, ps[1..])
  }

  /** k calls of addQueue for one family leave that family's list extended
      by the k priorities in call order, and every other family untouched. */
  lemma {:induction false} AddQueuesInOrder(queues: map<nat, seq<real>>, index: nat, ps: seq<real>)
    requires ps != []
    decreases |ps|
    ensures var r := WithQueues(queues, index, ps);
            index in r && r[index] == (if index in queues then queues[index] else []) + ps
    ensures var r := WithQueues(queues, index, ps);
            r.Keys == queues.Keys + {index} && forall f :: f in queues && f != index ==> r[f] == queues[f]
  {
    var q1 := WithQueue(queues, index, ps[0]);
    var start := if index in queues then queues[index] else [];
    assert WithQueues(queues, index, ps) == WithQueues(q1, index, ps[1..]);
    if |ps| > 1 {
      AddQueuesInOrder(q1, index, ps[1..]);
      assert q1[index] == start + [ps[0]];
      assert start + [ps[0]] + ps[1..] == start + ps;
    } else {
      assert ps[1..] == [];
      assert start + [ps[0]] == start + ps;
    }
  }

  /** DeviceBuilder. `queues` is the unordered map from queue family to
      the priorities of the queues requested on it. */
  class DeviceBuilder {
    const physicalHandle: nat
    var queues: map<nat, seq<real>>

    constructor (physicalHandle: nat)
      ensures this.physicalHandle == physicalHandle && queues == map[]
    {
      this.physicalHandle := physicalHandle;
      queues := map[];
    }

    /** addQueue(index, priority = 1) */
    method AddQueue(index: U32, priority: real := 1.0)
      modifies this
      ensures queues == WithQueue(old(queues), index, priority)
    {
      queues := queues[index := (if index in queues then queues[index] else []) + [priority]];
    }
  }

  /** VkDeviceQueueCreateInfo. */
  datatype QueueCreateInfo = QueueCreateInfo(queueFamilyIndex: nat, queueCount: nat, priorities: seq<real>)

  /** Whether `infos` has one entry per family of `queues`, each with that
      family's priorities and their count, no family twice. */
  predicate OnePerFamily(infos: seq<QueueCreateInfo>, queues: map<nat, seq<real>>)
  {
    && |infos| == |queues|
    && (forall i :: 0 <= i < |infos| ==>
          && infos[i].queueFamilyIndex in queues
          && infos[i].priorities == queues[infos[i].queueFamilyIndex]
          && infos[i].queueCount == |infos[i].priorities|)
    && (forall i, j :: 0 <= i < j < |infos| ==> infos[i].queueFamilyIndex != infos[j].queueFamilyIndex)
    && (forall f :: f in queues ==> exists i :: 0 <= i < |infos| && infos[i].queueFamilyIndex == f)
  }

  /** The loop over the map: one queue-create info per family, in the
      map's (unspecified) iteration order. */
  method QueueCreateInfos(queues: map<nat, seq<real>>) returns (infos: seq<QueueCreateInfo>)
    ensures OnePerFamily(infos, queues)
  {
    infos := [];
    var left := queues.Keys;
    while left != {}
      invariant left <= queues.Keys
      invariant |infos| + |left| == |queues.Keys|
      invariant forall i :: 0 <= i < |infos| ==>
                  && infos[i].queueFamilyIndex in queues.Keys - left
                  && infos[i].priorities == queues[infos[i].queueFamilyIndex]
                  && infos[i].queueCount == |infos[i].priorities|
      invariant forall i, j :: 0 <= i < j < |infos| ==> infos[i].queueFamilyIndex != infos[j].queueFamilyIndex
      invariant forall f :: f in queues.Keys - left ==> exists i :: 0 <= i < |infos| && infos[i].queueFamilyIndex == f
      decreases |left|
    {
      var f :| f in left;
      ghost var prev, prevLeft := infos, left;
      var info := QueueCreateInfo(f, |queues[f]|, queues[f]);
      infos := infos + [info];
      left := left - {f};
      StillCovered(queues.Keys, prevLeft, prev, info);
    }
    assert queues.Keys - left == queues.Keys;
  }

  /** Appending the info for one family keeps every family outside the
      remaining set covered once that family leaves the set. */
  lemma StillCovered(families: set<nat>, left: set<nat>, prev: seq<QueueCreateInfo>, x: QueueCreateInfo)
    requires forall g :: g in families - left ==> exists i :: 0 <= i < |prev| && prev[i].queueFamilyIndex == g
    ensures var infos := prev + [x];
            forall g :: g in families - (left - {x.queueFamilyIndex}) ==>
              exists i :: 0 <= i < |infos| && infos[i].queueFamilyIndex == g
  {
    var f := x.queueFamilyIndex;
    var infos := prev + [x];
    forall g | g in families - (left - {f})
      ensures exists i :: 0 <= i < |infos| && infos[i].queueFamilyIndex == g
    {
      if g == f {
        assert infos[|prev|].queueFamilyIndex == g;
      } else {
        assert g in families - left;
        var i :| 0 <= i < |prev| && prev[i].queueFamilyIndex == g;
        assert infos[i] == prev[i];
      }
    }
  }

  /** The number a string of decimal digits denotes, most significant
      digit first. */
  function DecimalValue(s: string): nat
  {
    if s == [] then 0
    else
      var d := s[|s| - 1] as int - 48;
      DecimalValue(s[..|s| - 1]) * 10 + (if 0 <= d then d else 0)
  }

  /** The decimal digits of a count, as std::format prints it: the digits
      denote the count, and only the count 0 starts with a zero. */
  function Decimal(n: nat): (s: string)
    ensures |s| >= 1 && forall i :: 0 <= i < |s| ==> '0' <= s[i] <= '9'
    ensures DecimalValue(s) == n
    ensures s[0] == '0' <==> n == 0
  {
    if n < 10 then [(48 + n) as char]
    else
      var front := Decimal(n / 10);
      var s := front + [(48 + n % 10) as char];
      assert s[..|s| - 1] == front;
      s
  }

  class Device {
    const handle: nat
    const queueCreateInfos: seq<QueueCreateInfo>

    constructor (handle: nat, queueCreateInfos: seq<QueueCreateInfo>)
      ensures this.handle == handle && this.queueCreateInfos == queueCreateInfos
    {
      this.handle := handle;
      this.queueCreateInfos := queueCreateInfos;
    }
  }

  const CREATE_DEVICE_CALL: string := "vkCreateDevice(device_.handle, &createInfo, nullptr, &handle_)"

  /** Device(builder): one queue-create info per family; a failing
      vkCreateDevice is logged and throws "Failed to create device"; a
      success logs a trace line with the number of families. */
  method CreateDevice(builder: DeviceBuilder, logger: Logger, createResult: VkResult, resultName: string, handle: nat)
    returns (r: Result<Device>, emitted: seq<Record>)
    modifies logger
    ensures r.Ok? <==> createResult == VK_SUCCESS
    ensures r.Err? ==> r.error == RuntimeError("Failed to create device")
    ensures r.Err? ==> emitted == [Record(Logging.Error, CREATE_DEVICE_CALL + ": " + resultName)]
    ensures r.Ok? ==> fresh(r.value) && r.value.handle == handle
    ensures r.Ok? ==> OnePerFamily(r.value.queueCreateInfos, builder.queues)
    ensures r.Ok? ==> emitted == [Record(Trace, "Created device with " + Decimal(|builder.queues|) + " queues")]
    ensures logger.forwarded == old(logger.forwarded) + Forwarded(logger.threshold, emitted)
  {
    var infos := QueueCreateInfos(builder.queues);
    var o;
    o, emitted := Requirements.VkCall(createResult, logger, CREATE_DEVICE_CALL, resultName, "Failed to create device");
    if o.Fail? {
      return Err(o.error), emitted;
    }
    emitted := [Record(Trace, "Created device with " + Decimal(|builder.queues|) + " queues")];
    LogEach(logger, emitted);
    var device := new Device(handle, infos);
    r := Ok(device);
  }

  /** Device::queue(family, index = 0): the handle is the driver's; one
      trace line names the family and index. */
  method Queue(logger: Logger, driverQueue: nat, family: U32, index: U32 := 0) returns (q: nat, emitted: seq<Record>)
    modifies logger
    ensures q == driverQueue
    ensures emitted == [Record(Trace, "Retrieving queue family " + Decimal(family) + " index " + Decimal(index))]
    ensures logger.forwarded == old(logger.forwarded) + Forwarded(logger.threshold, emitted)
  {
    emitted := [Record(Trace, "Retrieving queue family " + Decimal(family) + " index " + Decimal(index))];
    LogEach(logger, emitted);
    q := driverQueue;
  }
}
