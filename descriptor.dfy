/** The service descriptor ("OCL") and the provisioned-resource record, as plain values.
    Java's deep copy of a descriptor is a copy of such a value. */
module Descriptor {
  import opened Common

  datatype Vpc = Vpc(name: string, cidr: string)

  /** `vpc` is a path reference such as `$.network.vpc[0]`. */
  datatype Subnet = Subnet(name: string, cidr: string, vpc: string)

  datatype Direction = In | Out

  datatype Protocol = Tcp | Udp | Icmp

  /** `ports` is the comma-separated port list, e.g. `8080, 9092-9093, 2181`. */
  datatype SecurityRule = SecurityRule(
    name: string, protocol: Protocol, cidr: string, direction: Direction, ports: string)

  datatype SecurityGroup = SecurityGroup(name: string, rules: seq<SecurityRule>)

  datatype Network = Network(vpcs: seq<Vpc>, subnets: seq<Subnet>, securityGroups: seq<SecurityGroup>)

  /** `subnets`, `securityGroups` and `storages` hold path references into the descriptor. */
  datatype Vm = Vm(
    name: string, vmType: string, imageId: string,
    subnets: seq<string>, securityGroups: seq<string>, storages: seq<string>)

  datatype Compute = Compute(vms: seq<Vm>)

  /** `storageType` is the text of the storage-type enumeration (e.g. `SSD`), `size` in GB. */
  datatype Storage = Storage(name: string, storageType: string, size: nat)

  /** An image artifact whose id the resource builder fills in. */
  datatype Artifact = Artifact(name: string, id: Option<string>)

  /** A base image; `filterId` is the id of its filter, possibly null or blank. */
  datatype BaseImage = BaseImage(name: string, filterId: Option<string>)

  datatype Image = Image(artifacts: seq<Artifact>, base: seq<BaseImage>)

  /** A descriptor; a section that was never set is `None`. */
  datatype Ocl = Ocl(
    name: string,
    image: Option<Image>,
    network: Option<Network>,
    compute: Option<Compute>,
    storages: Option<seq<Storage>>)

  /** The provisioned-resource record; a `None` state is a null `state` field. */
  datatype OclResources = OclResources(state: Option<string>)

  const Registered := "registered"
  const Success := "success"
  const Stopped := "stopped"
}
