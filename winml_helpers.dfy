/**
 * Execution-provider selection and the compiled-model cache
 * (`WinMLHelpers` in Util/WinMLHelpers.cs).
 *
 * The ONNX Runtime objects appear only through what this helper observes:
 * the device list an environment enumerates, the log of providers appended
 * to a session, and the set of paths that exist on disk together with the
 * compilation runs that wrote to it.
 */
module WinMLHelpers {
  import opened Wrappers
  import opened Strings
  import opened Paths

  /** An `OrtEpDevice`: the provider it belongs to and its hardware type (`HardwareDevice.Type.ToString()`). */
  datatype Device = Device(epName: string, deviceType: string)

  /** An `OrtEnv`, seen through `GetEpDevices()`: the devices in enumeration order. */
  datatype OrtEnv = OrtEnv(epDevices: seq<Device>)

  /** One dictionary entry: the key as stored (first spelling inserted) and its device list. */
  datatype DeviceGroup = DeviceGroup(key: string, devices: seq<Device>)

  /**
   * A `Dictionary<string, List<OrtEpDevice>>` built with `StringComparer.OrdinalIgnoreCase`:
   * each entry is filed under the folded form of its key.
   */
  type DeviceMap = map<string, DeviceGroup>

  const CpuName := "CPU"
  const DmlName := "DmlExecutionProvider"
  const OpenVinoName := "OpenVINOExecutionProvider"
  const QnnName := "QNNExecutionProvider"

  // ---------------------------------------------------------------------------
  // Grouping devices by provider name (GetEpDeviceMap)
  // ---------------------------------------------------------------------------

  /** The folded provider names that occur in an enumeration. */
  function KeysOf(devs: seq<Device>): (r: set<string>)
  {
    if devs == [] then {}
    else
      var n := |devs| - 1;
      KeysOf(devs[..n]) + {Fold(devs[n].epName)}
  }

  /** The devices whose provider name folds to `k`, in enumeration order. */
  function Matching(devs: seq<Device>, k: string): (r: seq<Device>)
  {
    if devs == [] then []
    else
      var n := |devs| - 1;
      Matching(devs[..n], k) + (if Fold(devs[n].epName) == k then [devs[n]] else [])
  }

  /** Every enumerated name is a key, and only those are. */
  lemma {:induction false} KeysOfMembers(devs: seq<Device>)
    ensures forall j :: 0 <= j < |devs| ==> Fold(devs[j].epName) in KeysOf(devs)
    ensures forall k :: k in KeysOf(devs) ==> exists j :: 0 <= j < |devs| && Fold(devs[j].epName) == k
  {
    if devs != [] {
      var n := |devs| - 1;
      KeysOfMembers(devs[..n]);
      assert forall j :: 0 <= j < n ==> devs[..n][j] == devs[j];
    }
  }

  /** A group holds only enumerated devices of its own name, and no more than were enumerated. */
  lemma {:induction false} MatchingMembers(devs: seq<Device>, k: string)
    ensures |Matching(devs, k)| <= |devs|
    ensures forall d :: d in Matching(devs, k) ==> d in devs && Fold(d.epName) == k
  {
    if devs != [] {
      var n := |devs| - 1;
      MatchingMembers(devs[..n], k);
      assert forall d :: d in devs[..n] ==> d in devs;
    }
  }

  /** The position of the first device whose provider name folds to `k`. */
  function FirstIndex(devs: seq<Device>, k: string): (i: nat)
    requires k in KeysOf(devs)
    ensures i < |devs| && Fold(devs[i].epName) == k
    ensures forall j :: 0 <= j < i ==> Fold(devs[j].epName) != k
  {
    var n := |devs| - 1;
    if k in KeysOf(devs[..n]) then FirstIndex(devs[..n], k)
    else
      assert forall j :: 0 <= j < n ==> Fold(devs[j].epName) != k by {
        KeysOfMembers(devs[..n]);
        forall j | 0 <= j < n ensures Fold(devs[j].epName) != k {
          assert devs[..n][j] == devs[j];
        }
      }
      n
  }

  /**
   * What grouping an enumeration must produce, stated without a loop: one entry per folded
   * provider name, stored under the spelling of the first device with that name, holding
   * every device with that name in enumeration order.
   */
  ghost predicate IsGroupingOf(m: DeviceMap, devs: seq<Device>) {
    m.Keys == KeysOf(devs)
    && forall k :: k in m ==> m[k] == DeviceGroup(devs[FirstIndex(devs, k)].epName, Matching(devs, k))
  }

  ghost function PickKey(m: DeviceMap): string
    requires m != map[]
  {
    var k :| k in m; k
  }

  /** The total number of devices held by all entries of a dictionary. */
  ghost function SumSizes(m: DeviceMap): nat
    decreases |m|
  {
    if m == map[] then 0
    else
      var k := PickKey(m);
      assert |m - {k}| < |m| by { assert (m - {k}).Keys == m.Keys - {k}; }
      |m[k].devices| + SumSizes(m - {k})
  }

  /** `SumSizes` does not depend on which key it takes first. */
  lemma SumSizesRemove(m: DeviceMap, k: string)
    requires k in m
    ensures SumSizes(m) == |m[k].devices| + SumSizes(m - {k})
    decreases |m|
  {
    var j := PickKey(m);
    if j != k {
      assert (m - {j}).Keys == m.Keys - {j};
      assert (m - {k}).Keys == m.Keys - {k};
      SumSizesRemove(m - {j}, k);
      SumSizesRemove(m - {k}, j);
      assert (m - {j}) - {k} == (m - {k}) - {j};
    }
  }

  /**
   * `GetEpDeviceMap`: one pass over the enumeration, creating a list on first sight of a name
   * and appending each device to the list of its name. The result is the grouping of the
   * enumeration, and its lists hold as many devices as were enumerated.
   */
  method GetEpDeviceMap(environment: OrtEnv) returns (epDeviceMap: DeviceMap)
    ensures IsGroupingOf(epDeviceMap, environment.epDevices)
    ensures SumSizes(epDeviceMap) == |environment.epDevices|
  {
    var epDevices := environment.epDevices;
    epDeviceMap := map[];
    for i := 0 to |epDevices|
      invariant epDeviceMap == FiledAll(epDevices[..i])
    {
      var device := epDevices[i];
      var name := device.epName;
      var value: DeviceGroup;
      if Fold(name) in epDeviceMap {
        value := epDeviceMap[Fold(name)];
      } else {
        value := DeviceGroup(name, []);
        epDeviceMap := epDeviceMap[Fold(name) := value];
      }
      epDeviceMap := epDeviceMap[Fold(name) := DeviceGroup(value.key, value.devices + [device])];
      assert epDevices[..i + 1][..i] == epDevices[..i];
      assert [] + [device] == [device];
    }
    assert epDevices[..|epDevices|] == epDevices;
    FiledAllIsGrouping(epDevices);
    FiledAllSize(epDevices);
  }

  /** The dictionary after filing the devices one by one, from an empty one. */
  function FiledAll(devs: seq<Device>): DeviceMap {
    if devs == [] then map[] else FileDevice(FiledAll(devs[..|devs| - 1]), devs[|devs| - 1])
  }

  /** Filing every device of an enumeration yields its grouping. */
  lemma {:induction false} FiledAllIsGrouping(devs: seq<Device>)
    ensures IsGroupingOf(FiledAll(devs), devs)
  {
    if devs != [] {
      var n := |devs| - 1;
      FiledAllIsGrouping(devs[..n]);
      GroupingSnoc(FiledAll(devs[..n]), devs);
    }
  }

  /** Filing every device of an enumeration holds as many devices as were enumerated. */
  lemma {:induction false} FiledAllSize(devs: seq<Device>)
    ensures SumSizes(FiledAll(devs)) == |devs|
  {
    if devs != [] {
      var n := |devs| - 1;
      FiledAllSize(devs[..n]);
      SumSizesFile(FiledAll(devs[..n]), devs[n]);
    }
  }

  /** Filing one device into a dictionary the way the loop body does. */
  function FileDevice(m: DeviceMap, d: Device): DeviceMap {
    var k := Fold(d.epName);
    if k in m then m[k := DeviceGroup(m[k].key, m[k].devices + [d])]
    else m[k := DeviceGroup(d.epName, [d])]
  }

  /** Filing the last device keeps the dictionary the grouping of what has been seen. */
  lemma GroupingSnoc(m: DeviceMap, t: seq<Device>)
    requires t != [] && IsGroupingOf(m, t[..|t| - 1])
    ensures IsGroupingOf(FileDevice(m, t[|t| - 1]), t)
  {
    var s, d := t[..|t| - 1], t[|t| - 1];
    assert t == s + [d];
    var m' := FileDevice(m, d);
    assert KeysOf(t) == KeysOf(s) + {Fold(d.epName)};
    forall k | k in m'
      ensures m'[k] == DeviceGroup(t[FirstIndex(t, k)].epName, Matching(t, k))
    {
      GroupingSnocAt(m, s, d, k);
    }
  }

  lemma GroupingSnocAt(m: DeviceMap, s: seq<Device>, d: Device, k: string)
    requires IsGroupingOf(m, s)
    requires k in KeysOf(s) || k == Fold(d.epName)
    ensures k in KeysOf(s + [d])
    ensures FileDevice(m, d)[k] == DeviceGroup((s + [d])[FirstIndex(s + [d], k)].epName, Matching(s + [d], k))
  {
    var t := s + [d];
    assert t[..|s|] == s;
    assert Matching(t, k) == Matching(s, k) + (if Fold(d.epName) == k then [d] else []);
    if k in KeysOf(s) {
      assert FirstIndex(t, k) == FirstIndex(s, k);
      assert t[FirstIndex(s, k)] == s[FirstIndex(s, k)];
    } else {
      MatchingAbsent(s, k);
    }
  }

  /** Filing one device adds one to the total size. */
  lemma SumSizesFile(m: DeviceMap, d: Device)
    ensures SumSizes(FileDevice(m, d)) == SumSizes(m) + 1
  {
    var k := Fold(d.epName);
    var m' := FileDevice(m, d);
    SumSizesRemove(m', k);
    if k in m {
      assert m' - {k} == m - {k};
      SumSizesRemove(m, k);
    } else {
      assert m' - {k} == m;
    }
  }

  lemma FirstIndexUnique(devs: seq<Device>, k: string, i: nat)
    requires i < |devs| && Fold(devs[i].epName) == k
    requires forall j :: 0 <= j < i ==> Fold(devs[j].epName) != k
    ensures k in KeysOf(devs) && FirstIndex(devs, k) == i
  {
  }

  /** A name that does not occur has no devices. */
  lemma {:induction false} MatchingAbsent(devs: seq<Device>, k: string)
    requires k !in KeysOf(devs)
    ensures Matching(devs, k) == []
  {
    if devs != [] {
      MatchingAbsent(devs[..|devs| - 1], k);
    }
  }

  /** Every device is kept in the group of its own provider name. */
  lemma {:induction false} MatchingContains(devs: seq<Device>, i: nat)
    requires i < |devs|
    ensures devs[i] in Matching(devs, Fold(devs[i].epName))
  {
    var n := |devs| - 1;
    if i < n {
      MatchingContains(devs[..n], i);
    }
  }

  /** A group begins with the first device of that name in enumeration order. */
  lemma {:induction false} MatchingHead(devs: seq<Device>, k: string)
    requires k in KeysOf(devs)
    ensures Matching(devs, k) != [] && Matching(devs, k)[0] == devs[FirstIndex(devs, k)]
  {
    var n := |devs| - 1;
    if k in KeysOf(devs[..n]) {
      MatchingHead(devs[..n], k);
    } else {
      MatchingAbsent(devs[..n], k);
    }
  }

  /**
   * A grouping is a partition: no group is empty, each is filed under the folded form of its
   * stored key, and each device lies in exactly one group, the one for its provider name
   * ignoring case.
   */
  lemma GroupingPartition(m: DeviceMap, devs: seq<Device>)
    requires IsGroupingOf(m, devs)
    ensures forall k :: k in m ==> m[k].devices != [] && Fold(m[k].key) == k
    ensures forall i :: 0 <= i < |devs| ==> Fold(devs[i].epName) in m
    ensures forall i, k :: 0 <= i < |devs| && k in m ==>
              (devs[i] in m[k].devices <==> Fold(devs[i].epName) == k)
  {
    KeysOfMembers(devs);
    forall k | k in m ensures m[k].devices != [] {
      MatchingHead(devs, k);
    }
    forall k | k in m ensures forall d :: d in m[k].devices ==> Fold(d.epName) == k {
      MatchingMembers(devs, k);
    }
    forall i | 0 <= i < |devs| ensures devs[i] in m[Fold(devs[i].epName)].devices {
      MatchingContains(devs, i);
    }
  }

  /**
   * Grouping keeps enumeration order: the group of a name in two enumerations one after the
   * other is the group in the first followed by the group in the second.
   */
  lemma {:induction false} MatchingConcat(a: seq<Device>, b: seq<Device>, k: string)
    ensures Matching(a + b, k) == Matching(a, k) + Matching(b, k)
  {
    if b == [] {
      assert a + b == a;
    } else {
      var n := |b| - 1;
      assert (a + b)[..|a + b| - 1] == a + b[..n];
      assert (a + b)[|a + b| - 1] == b[n];
      MatchingConcat(a, b[..n], k);
    }
  }

  /** A one-device enumeration has a group only for its own name. */
  lemma MatchingSingle(d: Device, k: string)
    ensures Matching([d], k) == if Fold(d.epName) == k then [d] else []
  {
    assert [d][..0] == [];
  }

  // ---------------------------------------------------------------------------
  // Provider selection (AppendExecutionProviderFromEpName)
  // ---------------------------------------------------------------------------

  /** One `AppendExecutionProvider` call: the device list passed (an entry may be `null`) and the options. */
  datatype Attachment = Attachment(devices: seq<Option<Device>>, options: map<string, string>)

  /** A `SessionOptions` object, seen through the providers appended to it. */
  class SessionOptions {
    var appended: seq<Attachment>

    constructor ()
      ensures appended == []
    {
      appended := [];
    }

    /** `SessionOptions.AppendExecutionProvider(environment, devices, options)`. */
    method AppendExecutionProvider(environment: OrtEnv, devices: seq<Option<Device>>, options: map<string, string>)
      modifies this
      ensures appended == old(appended) + [Attachment(devices, options)]
    {
      appended := appended + [Attachment(devices, options)];
    }
  }

  /** `devices.Where(d => d.HardwareDevice.Type.ToString().Equals(deviceType, Ordinal)).FirstOrDefault()`. */
  function FirstOfType(devices: seq<Device>, deviceType: Option<string>): (r: Option<Device>)
    ensures r.None? <==> forall i :: 0 <= i < |devices| ==> deviceType != Some(devices[i].deviceType)
    ensures r.Some? ==> exists i :: 0 <= i < |devices| && devices[i] == r.value
                          && deviceType == Some(devices[i].deviceType)
                          && forall j :: 0 <= j < i ==> deviceType != Some(devices[j].deviceType)
  {
    if devices == [] then None
    else if deviceType == Some(devices[0].deviceType) then Some(devices[0])
    else
      var r := FirstOfType(devices[1..], deviceType);
      assert r.Some? ==> exists i :: 0 <= i < |devices| && devices[i] == r.value
                          && deviceType == Some(devices[i].deviceType)
                          && forall j :: 0 <= j < i ==> deviceType != Some(devices[j].deviceType) by {
        if r.Some? {
          var i :| 0 <= i < |devices[1..]| && devices[1..][i] == r.value
                     && deviceType == Some(devices[1..][i].deviceType)
                     && forall j :: 0 <= j < i ==> deviceType != Some(devices[1..][j].deviceType);
          assert devices[i + 1] == r.value;
          assert forall j :: 0 < j < i + 1 ==> devices[j] == devices[1..][j - 1];
        }
      }
      r
  }

  /** Every device of a list, passed as a (never null) `OrtEpDevice` reference. */
  function AsReferences(devices: seq<Device>): (r: seq<Option<Device>>)
    ensures |r| == |devices| && forall i :: 0 <= i < |r| ==> r[i] == Some(devices[i])
  {
    seq(|devices|, i requires 0 <= i < |devices| => Some(devices[i]))
  }

  /**
   * The `switch (epName)` of the source: which devices and options a found provider is
   * appended with. The comparison here is ordinal, unlike the dictionary lookup before it.
   */
  function SelectAttachment(epName: string, deviceType: Option<string>, devices: seq<Device>): (a: Attachment)
    requires devices != []
    ensures |a.devices| >= 1
    ensures forall i :: 0 <= i < |a.devices| && a.devices[i].Some? ==> a.devices[i].value in devices
    ensures epName == QnnName ==> a.options == map["htp_performance_mode" := "high_performance"]
    ensures epName != QnnName ==> a.options == map[]
    ensures epName == DmlName ==> a.devices == [Some(devices[0])]
    ensures epName == OpenVinoName ==> a.devices == [FirstOfType(devices, deviceType)]
    ensures epName != DmlName && epName != OpenVinoName ==> a.devices == AsReferences(devices)
  {
    if epName == DmlName then Attachment([Some(devices[0])], map[])
    else if epName == OpenVinoName then Attachment([FirstOfType(devices, deviceType)], map[])
    else if epName == QnnName then Attachment(AsReferences(devices), map["htp_performance_mode" := "high_performance"])
    else Attachment(AsReferences(devices), map[])
  }

  /** The three outcomes of a provider request. */
  datatype Outcome = CpuDefault | Unsupported | Attached(attachment: Attachment)

  /** What a provider request does, given the devices the environment enumerates. */
  function ResolveProvider(epName: string, deviceType: Option<string>, enumerated: seq<Device>): (o: Outcome)
    ensures o.CpuDefault? <==> epName == CpuName
    ensures o.Unsupported? <==> epName != CpuName && forall d :: d in enumerated ==> !EqualsIgnoreCase(d.epName, epName)
    ensures o.Attached? ==> Fold(epName) in KeysOf(enumerated)
                            && (MatchingHead(enumerated, Fold(epName));
                                o.attachment == SelectAttachment(epName, deviceType, Matching(enumerated, Fold(epName))))
    ensures o.Attached? ==> forall i :: 0 <= i < |o.attachment.devices| && o.attachment.devices[i].Some? ==>
                              EqualsIgnoreCase(o.attachment.devices[i].value.epName, epName)
  {
    if epName == CpuName then CpuDefault
    else
      var k := Fold(epName);
      if k in KeysOf(enumerated) then
        MatchingHead(enumerated, k);
        MatchingMembers(enumerated, k);
        assert EqualsIgnoreCase(enumerated[FirstIndex(enumerated, k)].epName, epName);
        Attached(SelectAttachment(epName, deviceType, Matching(enumerated, k)))
      else
        assert forall d :: d in enumerated ==> !EqualsIgnoreCase(d.epName, epName) by {
          KeysOfMembers(enumerated);
          forall d | d in enumerated ensures !EqualsIgnoreCase(d.epName, epName) {
            var j :| 0 <= j < |enumerated| && enumerated[j] == d;
          }
        }
        Unsupported
  }

  /** `AppendExecutionProviderFromEpName`: at most one append, as `ResolveProvider` decides. */
  method AppendExecutionProviderFromEpName(sessionOptions: SessionOptions, epName: string,
                                           deviceType: Option<string>, environment: OrtEnv) returns (ok: bool)
    modifies sessionOptions
    ensures var o := ResolveProvider(epName, deviceType, environment.epDevices);
            ok == !o.Unsupported?
            && sessionOptions.appended == old(sessionOptions.appended) + (if o.Attached? then [o.attachment] else [])
  {
    if epName == CpuName {
      // CPU is ONNX Runtime's built-in fallback, so nothing is registered for it.
      return true;
    }
    var epDeviceMap := GetEpDeviceMap(environment);
    if Fold(epName) in epDeviceMap {
      var devices := epDeviceMap[Fold(epName)].devices;
      GroupingPartition(epDeviceMap, environment.epDevices);
      var epOptions: map<string, string> := map[];
      if epName == DmlName {
        // Pick the first device: several DirectML devices make the runtime throw.
        sessionOptions.AppendExecutionProvider(environment, [Some(devices[0])], epOptions);
        return true;
      } else if epName == OpenVinoName {
        var device := FirstOfType(devices, deviceType);
        sessionOptions.AppendExecutionProvider(environment, [device], epOptions);
        return true;
      } else if epName == QnnName {
        epOptions := epOptions["htp_performance_mode" := "high_performance"];
      }
      sessionOptions.AppendExecutionProvider(environment, AsReferences(devices), epOptions);
      return true;
    }
    return false;
  }

  /** The CPU sentinel succeeds whatever the environment enumerates: no device list is consulted. */
  lemma CpuIgnoresEnvironment(deviceType: Option<string>, enumerated: seq<Device>, other: seq<Device>)
    ensures ResolveProvider(CpuName, deviceType, enumerated) == ResolveProvider(CpuName, deviceType, other) == CpuDefault
  {
  }

  /** When several DirectML devices are enumerated, the one appended is the first of them. */
  lemma DmlPicksFirstEnumerated(deviceType: Option<string>, enumerated: seq<Device>)
    requires Fold(DmlName) in KeysOf(enumerated)
    ensures var o := ResolveProvider(DmlName, deviceType, enumerated);
            o.Attached? && o.attachment.devices == [Some(enumerated[FirstIndex(enumerated, Fold(DmlName))])]
            && o.attachment.options == map[]
  {
    MatchingHead(enumerated, Fold(DmlName));
  }

  /**
   * A name equal to a provider only ignoring case is found by the lookup but misses every
   * `case` of the switch: `"dmlexecutionprovider"` appends all DirectML devices, not the first.
   */
  lemma CaseOnlyMatchTakesDefault(g1: Device, g2: Device, deviceType: Option<string>)
    requires g1.epName == DmlName && g2.epName == DmlName
    ensures ResolveProvider("dmlexecutionprovider", deviceType, [g1, g2])
            == Attached(Attachment([Some(g1), Some(g2)], map[]))
  {
    var devs := [g1, g2];
    assert Fold("dmlexecutionprovider") == Fold(DmlName);
    MatchingConcat([g1], [g2], Fold(DmlName));
    MatchingSingle(g1, Fold(DmlName));
    MatchingSingle(g2, Fold(DmlName));
    assert devs == [g1] + [g2];
  }

  /** An OpenVINO request whose device type matches nothing still succeeds, with a `null` device. */
  lemma OpenVinoWithoutMatchAppendsNull(deviceType: Option<string>, enumerated: seq<Device>)
    requires Fold(OpenVinoName) in KeysOf(enumerated)
    requires forall d :: d in enumerated ==> deviceType != Some(d.deviceType)
    ensures ResolveProvider(OpenVinoName, deviceType, enumerated) == Attached(Attachment([None], map[]))
  {
    var group := Matching(enumerated, Fold(OpenVinoName));
    MatchingMembers(enumerated, Fold(OpenVinoName));
    assert forall i :: 0 <= i < |group| ==> group[i] in enumerated;
  }

  /** A single QNN device is appended with the HTP performance option. */
  lemma QnnSingleDevice(a: Device, deviceType: Option<string>)
    requires a.epName == QnnName
    ensures ResolveProvider(QnnName, deviceType, [a])
            == Attached(Attachment([Some(a)], map["htp_performance_mode" := "high_performance"]))
  {
    MatchingSingle(a, Fold(QnnName));
    assert AsReferences([a]) == [Some(a)];
  }

  /** Two devices whose provider names differ only in ASCII case land in the same group. */
  lemma CaseVariantsShareGroup(m: DeviceMap, devs: seq<Device>, i: nat, j: nat)
    requires IsGroupingOf(m, devs)
    requires i < |devs| && j < |devs| && EqualsIgnoreCase(devs[i].epName, devs[j].epName)
    ensures var k := Fold(devs[i].epName);
            k in m && devs[i] in m[k].devices && devs[j] in m[k].devices
  {
    GroupingPartition(m, devs);
  }

  /** `NpuEp` and `npuep` are the same dictionary key. */
  lemma NpuEpVariants()
    ensures EqualsIgnoreCase("NpuEp", "npuep")
  {
    assert Fold("NpuEp") == "NPUEP";
    assert Fold("npuep") == "NPUEP";
  }

  // ---------------------------------------------------------------------------
  // The compiled-model cache (GetCompiledModel)
  // ---------------------------------------------------------------------------

  /** Where the compiled form of `modelPath` for `device` is cached. */
  function CompiledModelPath(modelPath: string, device: string): string {
    var dir := GetDirectoryName(modelPath);
    Combine(if dir.Some? then dir.value else "", GetFileNameWithoutExtension(modelPath)) + "." + device + ".onnx"
  }

  /**
   * The cached file is named `<model name without extension>.<device>.onnx` and sits in the
   * model's own directory.
   */
  lemma CompiledPathNaming(modelPath: string, device: string)
    requires NoSeparator(device)
    requires GetFileNameWithoutExtension(modelPath) != ""
    ensures var p := CompiledModelPath(modelPath, device);
            var stem := GetFileNameWithoutExtension(modelPath);
            var dir := GetDirectoryName(modelPath);
            GetFileName(p) == stem + "." + device + ".onnx"
            && GetFileNameWithoutExtension(p) == stem + "." + device
            && (dir.Some? && dir.value != "" && !IsSeparator(dir.value[|dir.value| - 1]) ==> GetDirectoryName(p) == dir)
            && (dir.None? || dir.value == "" ==> p == stem + "." + device + ".onnx")
  {
    var stem := GetFileNameWithoutExtension(modelPath);
    var dir := GetDirectoryName(modelPath);
    var d := if dir.Some? then dir.value else "";
    var base := stem + "." + device;
    var name := base + "." + "onnx";
    FileNameHasNoSeparator(modelPath);
    assert NoSeparator(name) by {
      assert forall j :: 0 <= j < |stem| ==> name[j] == stem[j];
      assert forall j :: |stem| < j < |base| ==> name[j] == device[j - |stem| - 1];
    }
    assert stem + "." + device + ".onnx" == name;
    if d == "" {
      StemBeforeExtension("", base, "onnx");
      assert "" + name == name;
    } else if IsSeparator(d[|d| - 1]) {
      assert CompiledModelPath(modelPath, device) == d + name;
      StemBeforeExtension(d, base, "onnx");
    } else {
      assert CompiledModelPath(modelPath, device) == (d + "\\") + name;
      StemBeforeExtension(d + "\\", base, "onnx");
      DirectoryOfJoin(d, name);
      assert d + "\\" + name == (d + "\\") + name;
    }
  }

  /** A model named only `.onnx` has an empty stem, so its compiled form lands beside its directory. */
  lemma CompiledPathOfEmptyStem()
    ensures CompiledModelPath("models\\.onnx", "npu") == "models.npu.onnx"
  {
    var m := "models\\.onnx";
    LastSeparatorUnique(m, 6);
    assert GetFileName(m) == ".onnx";
    LastDotUnique(".onnx", 0);
    assert m[..6] == "models";
  }

  /** One `CompileModel` run: its input and output paths. */
  datatype CompileRun = CompileRun(input: string, output: string)

  /** The disk as `File.Exists` sees it, and the compilation runs that have written to it. */
  class FileSystem {
    var files: set<string>
    var compileRuns: seq<CompileRun>

    constructor (existing: set<string>)
      ensures files == existing && compileRuns == []
    {
      files := existing;
      compileRuns := [];
    }

    function Exists(path: string): bool
      reads this
    {
      path in files
    }

    /** Someone deletes a file. */
    method Delete(path: string)
      modifies this
      ensures files == old(files) - {path} && compileRuns == old(compileRuns)
    {
      files := files - {path};
    }
  }

  /** An `OrtModelCompilationOptions` created from session options. */
  class ModelCompilationOptions {
    var inputModelPath: string
    var outputModelPath: string

    constructor (sessionOptions: SessionOptions)
      ensures inputModelPath == "" && outputModelPath == ""
    {
      inputModelPath := "";
      outputModelPath := "";
    }

    method SetInputModelPath(path: string)
      modifies this
      ensures inputModelPath == path && outputModelPath == old(outputModelPath)
    {
      inputModelPath := path;
    }

    method SetOutputModelPath(path: string)
      modifies this
      ensures outputModelPath == path && inputModelPath == old(inputModelPath)
    {
      outputModelPath := path;
    }

    /** Runs the compiler; whether it writes the output file is the runtime's business (`produces`). */
    method CompileModel(fs: FileSystem, produces: bool)
      modifies fs
      ensures fs.compileRuns == old(fs.compileRuns) + [CompileRun(inputModelPath, outputModelPath)]
      ensures fs.files == if produces then old(fs.files) + {outputModelPath} else old(fs.files)
    {
      fs.compileRuns := fs.compileRuns + [CompileRun(inputModelPath, outputModelPath)];
      if produces {
        fs.files := fs.files + {outputModelPath};
      }
    }
  }

  /**
   * `GetCompiledModel`: compile only on a cache miss, then report the cached path if it
   * exists now. A compiler run that writes nothing yields `None`, not a fault.
   */
  method GetCompiledModel(sessionOptions: SessionOptions, modelPath: string, device: string,
                          fs: FileSystem, produces: bool) returns (r: Option<string>)
    modifies fs
    ensures var p := CompiledModelPath(modelPath, device);
            (p in old(fs.files) ==> fs.compileRuns == old(fs.compileRuns) && fs.files == old(fs.files))
            && (p !in old(fs.files) ==>
                  fs.compileRuns == old(fs.compileRuns) + [CompileRun(modelPath, p)]
                  && fs.files == if produces then old(fs.files) + {p} else old(fs.files))
            && r == if p in fs.files then Some(p) else None
  {
    var compiledModelPath := CompiledModelPath(modelPath, device);
    if !fs.Exists(compiledModelPath) {
      var compilationOptions := new ModelCompilationOptions(sessionOptions);
      compilationOptions.SetInputModelPath(modelPath);
      compilationOptions.SetOutputModelPath(compiledModelPath);
      compilationOptions.CompileModel(fs, produces);
    }
    if fs.Exists(compiledModelPath) {
      return Some(compiledModelPath);
    }
    return None;
  }

  /**
   * Two requests in a row: once the first has produced the file, the second is a pure cache
   * hit; a compilation that produced nothing is retried by the second.
   */
  method GetCompiledModelTwice(sessionOptions: SessionOptions, modelPath: string, device: string,
                               fs: FileSystem, producesFirst: bool, producesSecond: bool)
    returns (first: Option<string>, second: Option<string>)
    modifies fs
    ensures var p := CompiledModelPath(modelPath, device);
            first.Some? ==>
              second == first
              && fs.compileRuns == old(fs.compileRuns) + (if p in old(fs.files) then [] else [CompileRun(modelPath, p)])
              && fs.files == old(fs.files) + {p}
    ensures var p := CompiledModelPath(modelPath, device);
            first.None? ==>
              fs.compileRuns == old(fs.compileRuns) + [CompileRun(modelPath, p), CompileRun(modelPath, p)]
              && second == (if producesSecond then Some(p) else None)
              && fs.files == (if producesSecond then old(fs.files) + {p} else old(fs.files))
  {
    ghost var p := CompiledModelPath(modelPath, device);
    ghost var files0, runs0 := fs.files, fs.compileRuns;
    first := GetCompiledModel(sessionOptions, modelPath, device, fs, producesFirst);
    ghost var files1, runs1 := fs.files, fs.compileRuns;
    second := GetCompiledModel(sessionOptions, modelPath, device, fs, producesSecond);
    CacheStepTwice(CompileRun(modelPath, p), files0, runs0, files1, runs1, fs.files, fs.compileRuns,
                   producesFirst, producesSecond, first, second);
  }

  /** One `GetCompiledModel` step on the disk and run log, for the compiled path `run.output`. */
  ghost predicate CacheStep(run: CompileRun, files: set<string>, runs: seq<CompileRun>, produces: bool,
                            files': set<string>, runs': seq<CompileRun>, r: Option<string>)
  {
    var p := run.output;
    (p in files ==> runs' == runs && files' == files)
    && (p !in files ==> runs' == runs + [run] && files' == if produces then files + {p} else files)
    && r == if p in files' then Some(p) else None
  }

  /** Two cache steps in a row, whatever the path: the reasoning behind `GetCompiledModelTwice`. */
  lemma CacheStepTwice(run: CompileRun, files0: set<string>, runs0: seq<CompileRun>,
                       files1: set<string>, runs1: seq<CompileRun>, files2: set<string>, runs2: seq<CompileRun>,
                       producesFirst: bool, producesSecond: bool, first: Option<string>, second: Option<string>)
    requires CacheStep(run, files0, runs0, producesFirst, files1, runs1, first)
    requires CacheStep(run, files1, runs1, producesSecond, files2, runs2, second)
    ensures var p := run.output;
            first.Some? ==>
              second == first
              && runs2 == runs0 + (if p in files0 then [] else [run])
              && files2 == files0 + {p}
    ensures var p := run.output;
            first.None? ==>
              runs2 == runs0 + [run, run]
              && second == (if producesSecond then Some(p) else None)
              && files2 == (if producesSecond then files0 + {p} else files0)
  {
    var p := run.output;
    if p in files0 {
      assert files0 + {p} == files0;
      assert runs0 + [] == runs0;
    } else if first.Some? {
      assert files1 == files0 + {p};
    } else {
      assert runs2 == runs0 + [run] + [run];
      assert runs0 + [run] + [run] == runs0 + [run, run];
    }
  }

  /** Deleting the compiled artifact between two requests makes the second compile again. */
  method GetCompiledModelAfterDelete(sessionOptions: SessionOptions, modelPath: string, device: string,
                                     fs: FileSystem, producesSecond: bool)
    returns (second: Option<string>)
    modifies fs
    ensures var p := CompiledModelPath(modelPath, device);
            fs.compileRuns == old(fs.compileRuns) + [CompileRun(modelPath, p)]
            && second == (if producesSecond then Some(p) else None)
  {
    fs.Delete(CompiledModelPath(modelPath, device));
    second := GetCompiledModel(sessionOptions, modelPath, device, fs, producesSecond);
  }
}
