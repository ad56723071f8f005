/**
  The pure parts of the two Google Compute Engine helpers
  (clusters/gce_instance.py and its older twin
  test_runners/tf_cnn_bench/cluster_gce.py): the instance type string, the
  request body that creates an instance, the summary of an instance the API
  returns, and the filter that finds instances. The API calls themselves
  are left out; JSON objects are `Value`s.
 */
module Gce {
  import opened Wrappers
  import opened Strs
  import opened Values

  /** A Python argument that is truthy: given and not empty. */
  predicate Given(o: Option<string>) {
    o.Some? && o.value != ""
  }

  // ------------------------------------------------------------ instance type

  /** parse_instance_type (and parseInstanceType): `base|accelerator|count`
      gives all three, a bare `base` gives no accelerator, and any other
      number of `|`-separated parts is a ValueError. */
  function ParseInstanceType(instanceType: string): (r: Result<(string, Option<string>, Option<string>)>)
    ensures r.Success? <==> |Split(instanceType, '|')| == 1 || |Split(instanceType, '|')| == 3
    ensures r.Success? ==> (r.value.1.Some? <==> r.value.2.Some?)
  {
    var parts := Split(instanceType, '|');
    if |parts| == 3 then Success((parts[0], Some(parts[1]), Some(parts[2])))
    else if |parts| == 1 then Success((parts[0], None, None))
    else Failure("ValueError: Instance type in unknown format, \"base_instance|accelerator|count\" expected:"
                 + instanceType)
  }

  /** Three parts without `|` joined by `|` parse back to themselves. */
  lemma ParseJoined(base: string, accelerator: string, count: string)
    requires '|' !in base && '|' !in accelerator && '|' !in count
    ensures ParseInstanceType(Join([base, accelerator, count], "|")) == Success((base, Some(accelerator), Some(count)))
  {
    SplitJoin([base, accelerator, count], '|');
  }

  /** A base type without `|` parses to itself and no accelerator. */
  lemma ParseBare(base: string)
    requires '|' !in base
    ensures ParseInstanceType(base) == Success((base, None, None))
  {
  }

  /** Two parts (an accelerator without its count) are an error. */
  lemma ParseMissingCount(base: string, accelerator: string)
    requires '|' !in base && '|' !in accelerator
    ensures ParseInstanceType(Join([base, accelerator], "|")).Failure?
  {
    SplitJoin([base, accelerator], '|');
  }

  /** What parses joins back to the string it came from. */
  lemma ParseThenJoin(instanceType: string)
    requires ParseInstanceType(instanceType).Success?
    ensures var (base, accelerator, count) := ParseInstanceType(instanceType).value;
      instanceType == if accelerator.Some? then Join([base, accelerator.value, count.value], "|") else base
  {
    var parts := Split(instanceType, '|');
    if |parts| == 3 {
      assert parts == [parts[0], parts[1], parts[2]];
    }
  }

  // ------------------------------------------------------------ zones

  /** The region of a zone: its `-`-separated parts but the last. The zone
      is the region, a `-` and the last part; a zone without `-` has the
      empty region. */
  function Region(zone: string): (region: string)
    ensures var parts := Split(zone, '-');
      && (|parts| == 1 ==> region == "")
      && (|parts| > 1 ==> zone == region + "-" + parts[|parts| - 1])
  {
    var parts := Split(zone, '-');
    if |parts| > 1 then
      assert parts == parts[..|parts| - 1] + [parts[|parts| - 1]];
      JoinSnoc(parts[..|parts| - 1], parts[|parts| - 1], "-");
      Join(parts[..|parts| - 1], "-")
    else Join(parts[..|parts| - 1], "-")
  }

  /** The zone `{region}-{letter}` lies in `{region}`, e.g. us-east1-d in
      us-east1. */
  lemma RegionOfZone(region: string, suffix: string)
    requires '-' !in suffix
    ensures Region(region + "-" + suffix) == region
  {
    var parts := Split(region, '-');
    JoinSnoc(parts, suffix, "-");
    assert forall k :: 0 <= k < |parts + [suffix]| ==> '-' !in (parts + [suffix])[k];
    SplitJoin(parts + [suffix], '-');
    assert (parts + [suffix])[..|parts|] == parts;
  }

  /** `projects/{project}/zones/{zone}`. */
  function FullZone(project: string, zone: string): string {
    "projects/" + project + "/zones/" + zone
  }

  // ------------------------------------------------------------ create request

  /** Which of the two helpers builds the request: gce_instance adds the
      service account only when one is given and asks for 100 GB; the
      cluster_gce twin always adds one (a fixed default) and asks for 25 GB. */
  datatype Variant = GceInstance | ClusterGce

  const DEFAULT_SERVICE_ACCOUNT: string := "283123161091-compute@developer.gserviceaccount.com"

  const SCOPES: seq<string> := [
    "https://www.googleapis.com/auth/devstorage.read_only",
    "https://www.googleapis.com/auth/logging.write",
    "https://www.googleapis.com/auth/monitoring.write",
    "https://www.googleapis.com/auth/servicecontrol",
    "https://www.googleapis.com/auth/service.management.readonly",
    "https://www.googleapis.com/auth/trace.append"]

  /** The request body, one field per JSON entry; the two optional entries
      are `None` when the request leaves them out. `kind` is the disk's
      `type` entry. */
  datatype InitializeParams = InitializeParams(sourceImage: string, diskType: string, diskSizeGb: string)
  datatype BootDisk = BootDisk(kind: string, boot: bool, mode: string, autoDelete: bool, deviceName: string,
                               initializeParams: InitializeParams)
  datatype AccessConfig = AccessConfig(name: string, kind: string)
  datatype NetworkInterface = NetworkInterface(network: string, subnetwork: string, accessConfigs: seq<AccessConfig>)
  datatype Scheduling = Scheduling(preemptible: bool, onHostMaintenance: string, automaticRestart: bool)
  datatype ServiceAccount = ServiceAccount(email: string, scopes: seq<string>)
  datatype GuestAccelerator = GuestAccelerator(acceleratorCount: Value, acceleratorType: string)
  datatype CreateRequest = CreateRequest(
    name: string,
    zone: string,
    machineType: string,
    tags: seq<string>,
    disks: seq<BootDisk>,
    canIpForward: bool,
    networkInterfaces: seq<NetworkInterface>,
    description: string,
    scheduling: Scheduling,
    serviceAccounts: Option<seq<ServiceAccount>>,
    guestAccelerators: Option<seq<GuestAccelerator>>)

  function DiskSize(variant: Variant): string {
    if variant == GceInstance then "100" else "25"
  }

  /** The boot disk, made from the image. */
  function Disk(project: string, zone: string, imageId: string, variant: Variant): BootDisk {
    BootDisk("PERSISTENT", true, "READ_WRITE", true, "instance-1",
             InitializeParams("projects/" + project + "/global/images/" + imageId,
                              FullZone(project, zone) + "/diskTypes/pd-standard", DiskSize(variant)))
  }

  /** The default network and the zone's regional subnetwork, with an
      external address. */
  function Network(project: string, zone: string): NetworkInterface {
    NetworkInterface("projects/" + project + "/global/networks/default",
                     "projects/" + project + "/regions/" + Region(zone) + "/subnetworks/default",
                     [AccessConfig("External NAT", "ONE_TO_ONE_NAT")])
  }

  /** The service account the request names, if any: gce_instance's only
      when one is given, cluster_gce's always (its default when none is). */
  function EmailOf(serviceAccount: Option<string>, variant: Variant): Option<string> {
    if variant == ClusterGce then Some(if serviceAccount.Some? then serviceAccount.value else DEFAULT_SERVICE_ACCOUNT)
    else if Given(serviceAccount) then serviceAccount
    else None
  }

  /** return_create_instance_config (ReturnCreateInstanceConfig for the
      twin). */
  function CreateInstanceConfig(project: string, zone: string, imageId: string, instanceType: string,
                                instanceName: string, tag: string, accelerator: Option<string>,
                                serviceAccount: Option<string>, acceleratorCount: Value, variant: Variant)
    : CreateRequest
  {
    var email := EmailOf(serviceAccount, variant);
    CreateRequest(
      instanceName,
      FullZone(project, zone),
      FullZone(project, zone) + "/machineTypes/" + instanceType,
      [tag],
      [Disk(project, zone, imageId, variant)],
      false,
      [Network(project, zone)],
      "",
      Scheduling(false, "TERMINATE", true),
      if email.Some? then Some([ServiceAccount(email.value, SCOPES)]) else None,
      if Given(accelerator) then
        Some([GuestAccelerator(acceleratorCount, "https://www.googleapis.com/compute/beta/" + FullZone(project, zone)
                                                 + "/acceleratorTypes/" + accelerator.value)])
      else None)
  }

  /** `serviceAccounts` is there exactly when the variant names an account
      (gce_instance: when one is given; cluster_gce: always, its default
      when none is given), and `guestAccelerators` exactly when an
      accelerator is given, with the count as passed. */
  lemma CreateConfigOptional(project: string, zone: string, imageId: string, instanceType: string,
                             instanceName: string, tag: string, accelerator: Option<string>,
                             serviceAccount: Option<string>, acceleratorCount: Value, variant: Variant)
    ensures var config := CreateInstanceConfig(project, zone, imageId, instanceType, instanceName, tag, accelerator,
                                               serviceAccount, acceleratorCount, variant);
      && (variant == GceInstance ==> (config.serviceAccounts.Some? <==> Given(serviceAccount)))
      && (variant == ClusterGce ==>
            config.serviceAccounts.Some?
            && config.serviceAccounts.value[0].email == serviceAccount.GetOr(DEFAULT_SERVICE_ACCOUNT))
      && (config.serviceAccounts.Some? ==>
            |config.serviceAccounts.value| == 1 && config.serviceAccounts.value[0].scopes == SCOPES)
      && (config.guestAccelerators.Some? <==> Given(accelerator))
      && (config.guestAccelerators.Some? ==>
            |config.guestAccelerators.value| == 1
            && config.guestAccelerators.value[0].acceleratorCount == acceleratorCount)
  {
  }

  /** The machine type, the subnetwork's region and the disk size of a
      request. */
  lemma CreateConfigFields(project: string, zone: string, imageId: string, instanceType: string,
                           instanceName: string, tag: string, accelerator: Option<string>,
                           serviceAccount: Option<string>, acceleratorCount: Value, variant: Variant)
    ensures var config := CreateInstanceConfig(project, zone, imageId, instanceType, instanceName, tag, accelerator,
                                               serviceAccount, acceleratorCount, variant);
      && config.name == instanceName && config.tags == [tag]
      && config.machineType == "projects/" + project + "/zones/" + zone + "/machineTypes/" + instanceType
      && |config.networkInterfaces| == 1
      && config.networkInterfaces[0].subnetwork
         == "projects/" + project + "/regions/" + Region(zone) + "/subnetworks/default"
      && |config.disks| == 1
      && config.disks[0].initializeParams.diskSizeGb == (if variant == GceInstance then "100" else "25")
      && config.disks[0].initializeParams.sourceImage == "projects/" + project + "/global/images/" + imageId
  {
  }

  // ------------------------------------------------------------ instance summary

  /** `v[key]` on a JSON object. */
  function Field(v: Value, key: string): (r: Result<Value>)
    ensures r.Success? <==> v.Dict? && key in v.entries
    ensures r.Success? ==> r.value == v.entries[key]
  {
    if v.Dict? then Lookup(v.entries, key) else Failure("TypeError: indices must be integers")
  }

  /** `v[0]` on a JSON list. */
  function First(v: Value): (r: Result<Value>)
    ensures r.Success? <==> v.List? && |v.items| > 0
    ensures r.Success? ==> r.value == v.items[0]
  {
    if !v.List? then Failure("TypeError: object is not a list")
    else if |v.items| == 0 then Failure("IndexError: list index out of range")
    else Success(v.items[0])
  }

  /** The `source` of each disk, in order; the first disk without one is
      the error. */
  function Sources(disks: seq<Value>): Result<seq<Value>> {
    if |disks| == 0 then Success([])
    else
      match Sources(disks[..|disks| - 1])
      case Failure(e) => Failure(e)
      case Success(prefix) =>
        match Field(disks[|disks| - 1], "source")
        case Failure(e) => Failure(e)
        case Success(src) => Success(prefix + [src])
  }

  /** Each source is the `source` of the disk at the same place. */
  lemma {:induction false} SourcesInOrder(disks: seq<Value>)
    requires Sources(disks).Success?
    ensures |Sources(disks).value| == |disks|
    ensures forall k :: 0 <= k < |disks| ==> Field(disks[k], "source") == Success(Sources(disks).value[k])
  {
    if |disks| > 0 {
      var front := disks[..|disks| - 1];
      SourcesInOrder(front);
      forall k | 0 <= k < |disks|
        ensures Field(disks[k], "source") == Success(Sources(disks).value[k])
      {
        if k < |disks| - 1 {
          assert disks[k] == front[k];
        }
      }
    }
  }

  /** The network part of the summary: the external address of the first
      interface's first access config (None when it has none) and the
      internal address. */
  function Addresses(instance: Config): (r: Result<(Value, Value)>) {
    match Lookup(instance, "networkInterfaces")
    case Failure(e) => Failure(e)
    case Success(interfaces) =>
      match First(interfaces)
      case Failure(e) => Failure(e)
      case Success(network) =>
        match Field(network, "accessConfigs")
        case Failure(e) => Failure(e)
        case Success(configs) =>
          match First(configs)
          case Failure(e) => Failure(e)
          case Success(access) =>
            if !access.Dict? then Failure("AttributeError: object has no attribute 'get'")
            else
              match Field(network, "networkIP")
              case Failure(e) => Failure(e)
              case Success(privateIp) => Success((GetOr(access.entries, "natIP", Null), privateIp))
  }

  /** The summary decode_instance_data (DecodeInstanceData) makes of an
      instance, one field per entry of the dictionary it returns (`project`,
      `zone`, `name`, `status`, `tags`, `disks`, `public_ip`,
      `private_ip`). */
  datatype InstanceSummary = InstanceSummary(project: string, zone: string, name: Value, status: Value, tags: Value,
                                             disks: seq<Value>, publicIp: Value, privateIp: Value)

  /** The summary of an instance, with the disks' sources already
      collected. */
  function Summary(instance: Config, project: string, zone: string, sources: seq<Value>): Result<InstanceSummary> {
    match Lookup(instance, "name")
    case Failure(e) => Failure(e)
    case Success(name) =>
      match Lookup(instance, "status")
      case Failure(e) => Failure(e)
      case Success(status) =>
        match Lookup(instance, "tags")
        case Failure(e) => Failure(e)
        case Success(tags) =>
          if !tags.Dict? then Failure("AttributeError: object has no attribute 'get'")
          else
            match Addresses(instance)
            case Failure(e) => Failure(e)
            case Success(ips) =>
              Success(InstanceSummary(project, zone, name, status, GetOr(tags.entries, "items", List([])), sources,
                                      ips.0, ips.1))
  }

  /** The checks that come before the disks are read. */
  function DecodeHead(instance: Config): Result<seq<Value>> {
    match Lookup(instance, "name")
    case Failure(e) => Failure(e)
    case Success(_) =>
      match Lookup(instance, "status")
      case Failure(e) => Failure(e)
      case Success(_) =>
        match Lookup(instance, "tags")
        case Failure(e) => Failure(e)
        case Success(tags) =>
          if !tags.Dict? then Failure("AttributeError: object has no attribute 'get'")
          else
            match Lookup(instance, "disks")
            case Failure(e) => Failure(e)
            case Success(disks) =>
              if disks.List? then Success(disks.items) else Failure("TypeError: object is not iterable")
  }

  /** decode_instance_data: the name, status and tags, the disks' sources,
      then the addresses; the first missing piece is the error. */
  function DecodedInstance(instance: Config, project: string, zone: string): Result<InstanceSummary> {
    match DecodeHead(instance)
    case Failure(e) => Failure(e)
    case Success(disks) =>
      match Sources(disks)
      case Failure(e) => Failure(e)
      case Success(sources) => Summary(instance, project, zone, sources)
  }

  /** The loop over the disks. */
  method CollectSources(disks: seq<Value>) returns (r: Result<seq<Value>>)
    ensures r == Sources(disks)
  {
    var sources := [];
    for i := 0 to |disks|
      invariant Sources(disks[..i]) == Success(sources)
    {
      assert disks[..i + 1][..i] == disks[..i];
      var src := Field(disks[i], "source");
      if src.Failure? {
        SourcesFailurePersists(disks[..i + 1], disks[i + 1..]);
        assert disks[..i + 1] + disks[i + 1..] == disks;
        return Failure(src.error);
      }
      sources := sources + [src.value];
    }
    assert disks[..|disks|] == disks;
    r := Success(sources);
  }

  /** A disk without a source stays the error whatever follows it. */
  lemma {:induction false} SourcesFailurePersists(a: seq<Value>, b: seq<Value>)
    requires Sources(a).Failure?
    ensures Sources(a + b) == Failure(Sources(a).error)
  {
    if |b| == 0 {
      assert a + b == a;
    } else {
      var b' := b[..|b| - 1];
      assert (a + b)[..|a + b| - 1] == a + b';
      SourcesFailurePersists(a, b');
    }
  }

  /** decode_instance_data as the source writes it. */
  method DecodeInstanceData(instance: Config, project: string, zone: string) returns (r: Result<InstanceSummary>)
    ensures r == DecodedInstance(instance, project, zone)
  {
    var disks := DecodeHead(instance);
    if disks.Failure? {
      return Failure(disks.error);
    }
    var sources := CollectSources(disks.value);
    if sources.Failure? {
      return Failure(sources.error);
    }
    r := Summary(instance, project, zone, sources.value);
  }

  /** A decoded instance's summary: the name and status as given, the
      tags' items (none when absent), the disks' sources in order, the
      external address of the first interface's first access config (None
      when it has none) and the internal address. */
  lemma DecodedFields(instance: Config, project: string, zone: string)
    requires DecodedInstance(instance, project, zone).Success?
    ensures var meta := DecodedInstance(instance, project, zone).value;
      && meta.project == project && meta.zone == zone
      && meta.name == instance["name"] && meta.status == instance["status"]
      && instance["tags"].Dict?
      && meta.tags == (if "items" in instance["tags"].entries then instance["tags"].entries["items"] else List([]))
      && instance["disks"].List? && |meta.disks| == |instance["disks"].items|
      && (forall k :: 0 <= k < |meta.disks| ==> Field(instance["disks"].items[k], "source") == Success(meta.disks[k]))
      && var network := instance["networkInterfaces"].items[0];
         var access := network.entries["accessConfigs"].items[0];
         && meta.publicIp == (if "natIP" in access.entries then access.entries["natIP"] else Null)
         && meta.privateIp == network.entries["networkIP"]
  {
    var disks := DecodeHead(instance).value;
    SourcesInOrder(disks);
  }

  // ------------------------------------------------------------ lookup filter

  /** The filter LookupGCEInstances (cluster_gce) asks for: instances whose
      name starts with the tag, else the one with the name, else none. */
  function LookupFilter(tag: Option<string>, name: Option<string>): Option<string> {
    if Given(tag) then Some("name:" + tag.value + "*")
    else if Given(name) then Some("name:" + name.value)
    else None
  }

  /** The filter lookup_gce_instance (gce_instance) asks for, as written:
      with neither a tag nor a name the variable is never set and reading
      it raises UnboundLocalError. */
  function QueryFilter(tag: Option<string>, name: Option<string>): Result<string> {
    if Given(tag) then Success("name:" + tag.value + "*")
    else if Given(name) then Success("name:" + name.value)
    else Failure("UnboundLocalError: local variable 'query_filter' referenced before assignment")
  }

  /** The tag wins over the name, and the filter is the name prefix or the
      exact name. */
  lemma FilterChoice(tag: Option<string>, name: Option<string>)
    ensures Given(tag) ==> LookupFilter(tag, name) == Some("name:" + tag.value + "*")
    ensures !Given(tag) && Given(name) ==> LookupFilter(tag, name) == Some("name:" + name.value)
    ensures LookupFilter(tag, name).None? <==> !Given(tag) && !Given(name)
  {
  }

  /** The two lookups agree whenever gce_instance's succeeds, and it fails
      exactly where the twin lists every instance. */
  lemma QueryFilterUnbound(tag: Option<string>, name: Option<string>)
    ensures QueryFilter(tag, name).Success? <==> LookupFilter(tag, name).Some?
    ensures QueryFilter(tag, name).Success? ==> QueryFilter(tag, name).value == LookupFilter(tag, name).value
    ensures QueryFilter(None, None).Failure?
  {
  }
}
