/** Physical-device selection: queue-family search, the criteria that map a
    device to an optional score, and the scored list that `require`
    filters, `prefer` biases and `select` takes the best of. */
module PhysicalDevices {

  import opened Vk

  const INT_MIN: int := -0x8000_0000
  const INT_MAX: int := 0x7FFF_FFFF

  /** A C++ `int`. */
  type Int32 = x: int | INT_MIN <= x <= INT_MAX

  /** VkPhysicalDeviceType. */
  datatype DeviceType = Other | IntegratedGpu | DiscreteGpu | VirtualGpu | Cpu

  const VK_QUEUE_GRAPHICS_BIT: bv32 := 0x1

  datatype QueueFamily = QueueFamily(queueFlags: bv32)

  /** The parts of a queried device the selection rules look at. */
  datatype PhysicalDevice = PhysicalDevice(
    handle: nat,
    deviceType: DeviceType,
    queueFamilies: seq<QueueFamily>,
    extensions: seq<string>)

  predicate HasGraphics(family: QueueFamily) {
    family.queueFlags & VK_QUEUE_GRAPHICS_BIT != 0
  }

  /** The first graphics-capable family at or after `from`. */
  function FirstGraphicsFrom(families: seq<QueueFamily>, from: nat): (r: Option<nat>)
    requires from <= |families|
    ensures r.Some? ==> from <= r.value < |families| && HasGraphics(families[r.value])
    ensures r.Some? ==> forall j :: from <= j < r.value ==> !HasGraphics(families[j])
    ensures r.None? ==> forall j :: from <= j < |families| ==> !HasGraphics(families[j])
    decreases |families| - from
  {
    if from == |families| then None
    else if HasGraphics(families[from]) then Some(from)
    else FirstGraphicsFrom(families, from + 1)
  }

  /** The smallest graphics-capable family index, if any. */
  function FirstGraphicsFamily(families: seq<QueueFamily>): (r: Option<nat>)
    ensures r.Some? ==> r.value < |families| && HasGraphics(families[r.value])
    ensures r.Some? ==> forall j :: 0 <= j < r.value ==> !HasGraphics(families[j])
    ensures r.None? <==> forall j :: 0 <= j < |families| ==> !HasGraphics(families[j])
  {
    FirstGraphicsFrom(families, 0)
  }

  /** device::find_graphics_queue: a first-match scan over the families. */
  method FindGraphicsQueue(device: PhysicalDevice) returns (r: Option<nat>)
    ensures r == FirstGraphicsFamily(device.queueFamilies)
  {
    var index := 0;
    while index < |device.queueFamilies|
      invariant index <= |device.queueFamilies|
      invariant FirstGraphicsFrom(device.queueFamilies, index) == FirstGraphicsFamily(device.queueFamilies)
    {
      if HasGraphics(device.queueFamilies[index]) {
        return Some(index);
      }
      index := index + 1;
    }
    return None;
  }

  /** PhysicalDeviceCriterion: a score, or None to filter the device out. */
  type Criterion = PhysicalDevice -> Option<int>

  /** criterion::device(type, bias = 1000) */
  function DeviceCriterion(t: DeviceType, bias: Int32 := 1000): (c: Criterion)
    ensures forall d :: c(d).Some? <==> d.deviceType == t
    ensures forall d :: c(d).Some? ==> c(d).value == bias
  {
    (d: PhysicalDevice) => if d.deviceType == t then Some(bias as int) else None
  }

  /** criterion::weigh_devices(): never filters. */
  function WeighDevices(): (c: Criterion)
    ensures forall d :: c(d).Some?
    ensures forall d: PhysicalDevice :: d.deviceType == DiscreteGpu ==> c(d) == Some(1000)
    ensures forall d: PhysicalDevice :: d.deviceType == IntegratedGpu ==> c(d) == Some(500)
    ensures forall d: PhysicalDevice :: d.deviceType !in {DiscreteGpu, IntegratedGpu} ==> c(d) == Some(0)
  {
    (d: PhysicalDevice) => match d.deviceType
         case IntegratedGpu => Some(500)
         case DiscreteGpu => Some(1000)
         case _ => Some(0)
  }

  /** criterion::graphics_queue_family(bias = 1000) */
  function GraphicsQueueFamily(bias: Int32 := 1000): (c: Criterion)
    ensures forall d :: c(d).Some? <==> exists j :: 0 <= j < |d.queueFamilies| && HasGraphics(d.queueFamilies[j])
    ensures forall d :: c(d).Some? ==> c(d).value == bias
  {
    (d: PhysicalDevice) => if FirstGraphicsFamily(d.queueFamilies).Some? then Some(bias as int) else None
  }

  /** criterion::extension(name, bias): exact name comparison. */
  function ExtensionCriterion(name: string, bias: Int32): (c: Criterion)
    ensures forall d :: c(d).Some? <==> exists j :: 0 <= j < |d.extensions| && d.extensions[j] == name
    ensures forall d :: c(d).Some? ==> c(d).value == bias
  {
    (d: PhysicalDevice) => if name in d.extensions then Some(bias as int) else None
  }

  /** An entry of the selector's list. */
  datatype Scored = Scored(device: PhysicalDevice, score: int)

  function Devices(s: seq<Scored>): (ds: seq<PhysicalDevice>)
    ensures |ds| == |s| && forall i :: 0 <= i < |s| ==> ds[i] == s[i].device
  {
    seq(|s|, i requires 0 <= i < |s| => s[i].device)
  }

  /** The list after `require(c)`: entries `c` filters out are gone, the
      others carry their score plus the criterion's value. */
  function Required(s: seq<Scored>, c: Criterion): (r: seq<Scored>)
    ensures |r| <= |s|
    ensures forall i :: 0 <= i < |r| ==> c(r[i].device).Some?
  {
    if s == [] then []
    else
      var rest := Required(s[1..], c);
      match c(s[0].device)
      case Some(v) => [Scored(s[0].device, s[0].score + v)] + rest
      case None => rest
  }

  /** Filtering distributes over concatenation, so survivors keep their
      original order. */
  lemma {:induction false} RequiredAppend(s: seq<Scored>, t: seq<Scored>, c: Criterion)
    ensures Required(s + t, c) == Required(s, c) + Required(t, c)
  {
    if s == [] {
      assert s + t == t;
    } else {
      assert (s + t)[1..] == s[1..] + t;
      RequiredAppend(s[1..], t, c);
    }
  }

  /** Filtering one more entry extends the filtered prefix by what that
      entry alone gives. */
  lemma RequiredStep(s: seq<Scored>, k: nat, c: Criterion)
    requires k < |s|
    ensures Required(s[..k + 1], c) == Required(s[..k], c) + Required([s[k]], c)
    ensures s[k..][1..] == s[k + 1..]
  {
    assert s[..k + 1] == s[..k] + [s[k]];
    RequiredAppend(s[..k], [s[k]], c);
    assert [s[k]][1..] == [];
  }

  /** Overwriting entry i leaves the prefix before it and the suffix after it. */
  lemma ReplaceSplits(s: seq<Scored>, i: nat, x: Scored)
    requires i < |s|
    ensures s[i := x][..i + 1] == s[..i] + [x] && s[i := x][i + 1..] == s[i + 1..]
  {
  }

  /** Erasing entry i joins the prefix before it to the suffix after it. */
  lemma RemoveSplits(s: seq<Scored>, i: nat)
    requires i < |s|
    ensures (s[..i] + s[i + 1..])[..i] == s[..i] && (s[..i] + s[i + 1..])[i..] == s[i + 1..]
  {
  }

  /** `require` keeps exactly the devices the criterion yields a value for. */
  lemma {:induction false} RequiredSurvivors(s: seq<Scored>, c: Criterion, d: PhysicalDevice)
    ensures d in Devices(Required(s, c)) <==> d in Devices(s) && c(d).Some?
  {
    if s != [] {
      RequiredSurvivors(s[1..], c, d);
      var head := if c(s[0].device).Some? then [Scored(s[0].device, s[0].score + c(s[0].device).value)] else [];
      assert Required(s, c) == head + Required(s[1..], c);
      DevicesAppend(head, Required(s[1..], c));
      DevicesAppend([s[0]], s[1..]);
      assert [s[0]] + s[1..] == s;
      assert Devices([s[0]]) == [s[0].device];
      assert Devices(head) == if c(s[0].device).Some? then [s[0].device] else [];
      assert d in Devices(s) <==> d == s[0].device || d in Devices(s[1..]);
      assert d in Devices(Required(s, c)) <==> (d == s[0].device && c(d).Some?) || d in Devices(Required(s[1..], c));
    }
  }

  lemma DevicesAppend(a: seq<Scored>, b: seq<Scored>)
    ensures Devices(a + b) == Devices(a) + Devices(b)
  {
    assert forall i :: 0 <= i < |a + b| ==> Devices(a + b)[i] == (Devices(a) + Devices(b))[i];
  }

  /** The entries the criterion yields a value for, scores untouched. */
  function Kept(s: seq<Scored>, c: Criterion): (r: seq<Scored>)
    ensures |r| <= |s|
  {
    if s == [] then []
    else if c(s[0].device).Some? then [s[0]] + Kept(s[1..], c)
    else Kept(s[1..], c)
  }

  /** An entry is kept exactly when it was in the list and the criterion
      yields a value for its device. */
  lemma {:induction false} KeptMembers(s: seq<Scored>, c: Criterion, x: Scored)
    ensures x in Kept(s, c) <==> x in s && c(x.device).Some?
  {
    if s != [] {
      KeptMembers(s[1..], c, x);
      assert s == [s[0]] + s[1..];
    }
  }

  /** Biasing distributes over concatenation. */
  lemma PreferredAppend(a: seq<Scored>, b: seq<Scored>, c: Criterion)
    ensures Preferred(a + b, c) == Preferred(a, c) + Preferred(b, c)
  {
    var l, r := Preferred(a + b, c), Preferred(a, c) + Preferred(b, c);
    assert forall i :: 0 <= i < |a| ==> (a + b)[i] == a[i];
    assert forall i :: |a| <= i < |a + b| ==> (a + b)[i] == b[i - |a|];
    assert forall i :: 0 <= i < |l| ==> l[i] == r[i];
  }

  /** `require` is the plain filter followed by adding each survivor's
      value to its score: every surviving entry's new score is its old
      score plus what the criterion yields for it. */
  lemma {:induction false} RequiredIsPreferredKept(s: seq<Scored>, c: Criterion)
    ensures Required(s, c) == Preferred(Kept(s, c), c)
  {
    if s != [] {
      var k := Kept(s[1..], c);
      RequiredIsPreferredKept(s[1..], c);
      assert Required(s[1..], c) == Preferred(k, c);
      match c(s[0].device)
      case Some(v) =>
        assert Required(s, c) == [Scored(s[0].device, s[0].score + v)] + Required(s[1..], c);
        assert Kept(s, c) == [s[0]] + k;
        PreferredAppend([s[0]], k, c);
        assert Preferred([s[0]], c) == [Scored(s[0].device, s[0].score + v)];
      case None =>
        assert Required(s, c) == Required(s[1..], c);
        assert Kept(s, c) == k;
    }
  }

  /** A criterion that filters nothing keeps every entry, in place. */
  lemma {:induction false} RequiredKeepsAllWhenNoneFiltered(s: seq<Scored>, c: Criterion)
    requires forall i :: 0 <= i < |s| ==> c(s[i].device).Some?
    ensures Devices(Required(s, c)) == Devices(s)
  {
    if s != [] {
      RequiredKeepsAllWhenNoneFiltered(s[1..], c);
      assert Devices(s) == [s[0].device] + Devices(s[1..]);
    }
  }

  /** The list after `prefer(c)`: same devices, score raised by the value
      where the criterion yields one. */
  function Preferred(s: seq<Scored>, c: Criterion): (r: seq<Scored>)
    ensures |r| == |s| && Devices(r) == Devices(s)
    ensures forall i :: 0 <= i < |s| && c(s[i].device).Some? ==> r[i].score == s[i].score + c(s[i].device).value
    ensures forall i :: 0 <= i < |s| && c(s[i].device).None? ==> r[i].score == s[i].score
  {
    seq(|s|, i requires 0 <= i < |s| =>
      match c(s[i].device)
      case Some(v) => Scored(s[i].device, s[i].score + v)
      case None => s[i])
  }

  /** The earliest index of a maximal score. */
  function BestIndex(s: seq<Scored>): (b: nat)
    requires s != []
    ensures b < |s|
    ensures forall j :: 0 <= j < |s| ==> s[j].score <= s[b].score
    ensures forall j :: 0 <= j < b ==> s[j].score < s[b].score
  {
    if |s| == 1 then 0
    else
      var b := BestIndex(s[..|s| - 1]);
      if s[|s| - 1].score > s[b].score then |s| - 1 else b
  }

  /** What `select` returns as written: highscore starts at INT_MIN and only
      a strictly greater score is taken, so a list whose every score is
      INT_MIN (or lower) leaves the result pointer uninitialised. */
  datatype AsWritten = NoDevices | Picked(index: nat) | Uninitialised

  /** The loop's (highscore, pDevice) after the entries of `s`. */
  function ScanAsWritten(s: seq<Scored>): (state: (int, Option<nat>))
    ensures state.1.Some? ==> state.1.value < |s|
  {
    if s == [] then (INT_MIN, None)
    else
      var prev := ScanAsWritten(s[..|s| - 1]);
      if s[|s| - 1].score > prev.0 then (s[|s| - 1].score, Some(|s| - 1)) else prev
  }

  function SelectAsWritten(s: seq<Scored>): (r: AsWritten)
    ensures r.Picked? ==> r.index < |s|
  {
    if s == [] then NoDevices
    else
      match ScanAsWritten(s).1
      case Some(i) => Picked(i)
      case None => Uninitialised
  }

  /** One device whose score is INT_MIN (for instance after
      prefer(device(its type, INT_MIN))) makes `select` dereference an
      uninitialised pointer. */
  lemma SelectAsWrittenUninitialised(d: PhysicalDevice)
    ensures SelectAsWritten([Scored(d, INT_MIN)]) == Uninitialised
  {
    var s := [Scored(d, INT_MIN)];
    assert s[..0] == [];
    assert ScanAsWritten(s) == (INT_MIN, None);
  }

  /** Whenever some score exceeds INT_MIN, the loop as written picks the
      earliest maximal entry; otherwise it picks nothing. */
  lemma {:induction false} ScanAsWrittenFindsBest(s: seq<Scored>)
    ensures (exists j :: 0 <= j < |s| && s[j].score > INT_MIN) ==>
              s != [] && ScanAsWritten(s) == (s[BestIndex(s)].score, Some(BestIndex(s)))
    ensures (forall j :: 0 <= j < |s| ==> s[j].score <= INT_MIN) ==> ScanAsWritten(s) == (INT_MIN, None)
  {
    if s != [] {
      var t := s[..|s| - 1];
      ScanAsWrittenFindsBest(t);
      assert forall j :: 0 <= j < |t| ==> t[j] == s[j];
      if t != [] && exists j :: 0 <= j < |t| && t[j].score > INT_MIN {
        assert BestIndex(s) == if s[|s| - 1].score > s[BestIndex(t)].score then |s| - 1 else BestIndex(t);
      } else if t != [] {
        assert BestIndex(s) == if s[|s| - 1].score > s[BestIndex(t)].score then |s| - 1 else BestIndex(t);
        if s[|s| - 1].score > INT_MIN {
          assert BestIndex(s) == |s| - 1;
        }
      }
    }
  }

  /** The corrected `select` agrees with the code as written on every list
      with a score above INT_MIN. */
  lemma SelectAgreesAboveIntMin(s: seq<Scored>)
    requires exists j :: 0 <= j < |s| && s[j].score > INT_MIN
    ensures SelectAsWritten(s) == Picked(BestIndex(s))
  {
    ScanAsWrittenFindsBest(s);
  }

  /** PhysicalDeviceSelector: the instance's device list with a score per
      device. */
  class PhysicalDeviceSelector {
    var devices: seq<Scored>

    constructor FromDevices(available: seq<PhysicalDevice>)
      requires available != []
      ensures Devices(devices) == available
      ensures forall i :: 0 <= i < |devices| ==> devices[i].score == 0
    {
      devices := seq(|available|, i requires 0 <= i < |available| => Scored(available[i], 0));
    }

    /** PhysicalDeviceSelector(instance): throws on an empty device list,
        otherwise every device starts at score 0. */
    static method Create(available: seq<PhysicalDevice>) returns (r: Result<PhysicalDeviceSelector>)
      ensures available == [] <==> r.Err?
      ensures r.Err? ==> r.error == RuntimeError("Found no available physical devices")
      ensures r.Ok? ==> fresh(r.value) && Devices(r.value.devices) == available
      ensures r.Ok? ==> forall i :: 0 <= i < |r.value.devices| ==> r.value.devices[i].score == 0
    {
      if available == [] {
        return Err(RuntimeError("Found no available physical devices"));
      }
      var s := new PhysicalDeviceSelector.FromDevices(available);
      return Ok(s);
    }

    /** require(c): erases filtered entries in place and scores the rest. */
    method Require(c: Criterion)
      modifies this
      ensures devices == Required(old(devices), c)
      ensures devices == Preferred(Kept(old(devices), c), c)
    {
      ghost var s := devices;
      ghost var k := 0;
      var i := 0;
      while i < |devices|
        invariant k <= |s| && i <= |devices|
        invariant devices[..i] == Required(s[..k], c)
        invariant devices[i..] == s[k..]
        decreases |devices| - i
      {
        RequiredStep(s, k, c);
        assert devices[i] == s[k];
        ghost var prev := devices;
        match c(devices[i].device) {
          case Some(v) =>
            devices := devices[i := Scored(devices[i].device, devices[i].score + v)];
            ReplaceSplits(prev, i, devices[i]);
            i := i + 1;
          case None =>
            devices := devices[..i] + devices[i + 1..];
            RemoveSplits(prev, i);
        }
        k := k + 1;
      }
      assert s[..k] == s;
      assert devices == devices[..i];
      RequiredIsPreferredKept(s, c);
    }

    /** prefer(c): adds the criterion's value to the scores it yields one for. */
    method Prefer(c: Criterion)
      modifies this
      ensures devices == Preferred(old(devices), c)
    {
      ghost var s := devices;
      for i := 0 to |devices|
        invariant |devices| == |s|
        invariant forall j :: 0 <= j < i ==> devices[j] == Preferred(s, c)[j]
        invariant forall j :: i <= j < |s| ==> devices[j] == s[j]
      {
        match c(devices[i].device)
        case Some(v) =>
          devices := devices[i := Scored(devices[i].device, devices[i].score + v)];
        case None =>
      }
    }

    /** select(), as it evidently should behave: None on an empty list,
        otherwise the earliest device of maximal score. The scan is seeded
        with the first entry. */
    method Select() returns (r: Option<PhysicalDevice>)
      ensures devices == [] <==> r.None?
      ensures devices != [] ==> r == Some(devices[BestIndex(devices)].device)
    {
      if devices == [] {
        return None;
      }
      var best := 0;
      var i := 1;
      while i < |devices|
        invariant 1 <= i <= |devices|
        invariant best == BestIndex(devices[..i])
      {
        assert devices[..i + 1][..i] == devices[..i];
        if devices[i].score > devices[best].score {
          best := i;
        }
        i := i + 1;
      }
      assert devices[..i] == devices;
      return Some(devices[best].device);
    }
  }
}
