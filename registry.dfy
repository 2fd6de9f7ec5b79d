/**
 * The registry of supported resource types (resource/supported.go): a fixed,
 * ordered table of API descriptors, one per Terraform resource type, and the
 * first-match lookup of a descriptor by its type.
 *
 * The SDK callables and their input structs are foreign network calls; a
 * descriptor keeps only the name of the listing call.
 */
module Registry {
  import opened Wrappers

  /** The selector function a descriptor hands its listing response to. */
  datatype Selector =
    | FilterGeneric
    | FilterEfsFileSystem
    | FilterIamPolicy
    | FilterIamUser
    | FilterKmsKeys

  /**
   * What is needed to list and delete the resources of one type, identified
   * by its Terraform type: the path of fields leading to the list of items in
   * the listing response, the field holding the id used for deletion, the
   * name of the listing call and the selector.
   */
  datatype APIDesc = APIDesc(
    terraformType: string,
    describeOutputName: seq<string>,
    deleteId: string,
    describe: string,
    select: Selector)

  /**
   * A single AWS resource. The creation time (Unix seconds) is read by the
   * filter; it is absent when the listing response carries none.
   */
  datatype Resource = Resource(
    resType: string,
    id: string,
    attrs: map<string, string>,
    tags: map<string, string>,
    created: Option<int>)

  /** Why a lookup by type failed. */
  datatype LookupError = NoAPIDesc(resType: string)

  /** No Terraform type occurs twice in `table`. */
  ghost predicate UniqueTypes(table: seq<APIDesc>)
  {
    forall i, j :: 0 <= i < j < |table| ==> table[i].terraformType != table[j].terraformType
  }

  /**
   * getSupported's loop over a table: the first descriptor whose Terraform
   * type is `resType`, or an error naming the type when there is none.
   */
  function Lookup(table: seq<APIDesc>, resType: string): (r: Result<APIDesc, LookupError>)
    ensures r.Success? <==> exists i :: 0 <= i < |table| && table[i].terraformType == resType
    ensures r.Success? ==>
      exists i :: 0 <= i < |table| && table[i] == r.value && r.value.terraformType == resType &&
        forall j :: 0 <= j < i ==> table[j].terraformType != resType
    ensures r.Failure? ==> r.error == NoAPIDesc(resType)
  {
    if table == [] then Failure(NoAPIDesc(resType))
    else if table[0].terraformType == resType then Success(table[0])
    else Lookup(table[1..], resType)
  }

  /** In a table without repeated types, looking up a row's type finds that row. */
  lemma LookupUniqueRow(table: seq<APIDesc>, i: int)
    requires UniqueTypes(table)
    requires 0 <= i < |table|
    ensures Lookup(table, table[i].terraformType) == Success(table[i])
  {
  }

  /** Every supported type with the API information to list and delete its resources. */
  function Supported(): (table: seq<APIDesc>)
    ensures |table| == 29
  {
    [
      APIDesc("aws_autoscaling_group", ["AutoScalingGroups"], "AutoScalingGroupName",
              "ASconn.DescribeAutoScalingGroups", FilterGeneric),
      APIDesc("aws_launch_configuration", ["LaunchConfigurations"], "LaunchConfigurationName",
              "ASconn.DescribeLaunchConfigurations", FilterGeneric),
      APIDesc("aws_instance", ["Reservations", "Instances"], "InstanceId",
              "EC2conn.DescribeInstances", FilterGeneric),
      APIDesc("aws_key_pair", ["KeyPairs"], "KeyName",
              "EC2conn.DescribeKeyPairs", FilterGeneric),
      APIDesc("aws_elb", ["LoadBalancerDescriptions"], "LoadBalancerName",
              "ELBconn.DescribeLoadBalancers", FilterGeneric),
      APIDesc("aws_vpc_endpoint", ["VpcEndpoints"], "VpcEndpointId",
              "EC2conn.DescribeVpcEndpoints", FilterGeneric),
      APIDesc("aws_nat_gateway", ["NatGateways"], "NatGatewayId",
              "EC2conn.DescribeNatGateways", FilterGeneric),
      APIDesc("aws_cloudformation_stack", ["Stacks"], "StackId",
              "CFconn.DescribeStacks", FilterGeneric),
      APIDesc("aws_route53_zone", ["HostedZones"], "Id",
              "R53conn.ListHostedZones", FilterGeneric),
      APIDesc("aws_efs_file_system", ["FileSystems"], "FileSystemId",
              "EFSconn.DescribeFileSystems", FilterEfsFileSystem),
      APIDesc("aws_network_interface", ["NetworkInterfaces"], "NetworkInterfaceId",
              "EC2conn.DescribeNetworkInterfaces", FilterGeneric),
      APIDesc("aws_eip", ["Addresses"], "AllocationId",
              "EC2conn.DescribeAddresses", FilterGeneric),
      APIDesc("aws_internet_gateway", ["InternetGateways"], "InternetGatewayId",
              "EC2conn.DescribeInternetGateways", FilterGeneric),
      APIDesc("aws_subnet", ["Subnets"], "SubnetId",
              "EC2conn.DescribeSubnets", FilterGeneric),
      APIDesc("aws_route_table", ["RouteTables"], "RouteTableId",
              "EC2conn.DescribeRouteTables", FilterGeneric),
      APIDesc("aws_security_group", ["SecurityGroups"], "GroupId",
              "EC2conn.DescribeSecurityGroups", FilterGeneric),
      APIDesc("aws_network_acl", ["NetworkAcls"], "NetworkAclId",
              "EC2conn.DescribeNetworkAcls", FilterGeneric),
      APIDesc("aws_vpc", ["Vpcs"], "VpcId",
              "EC2conn.DescribeVpcs", FilterGeneric),
      APIDesc("aws_iam_policy", ["Policies"], "Arn",
              "IAMconn.ListPolicies", FilterIamPolicy),
      APIDesc("aws_iam_group", ["Groups"], "GroupName",
              "IAMconn.ListGroups", FilterGeneric),
      APIDesc("aws_iam_user", ["Users"], "UserName",
              "IAMconn.ListUsers", FilterIamUser),
      APIDesc("aws_iam_role", ["Roles"], "RoleName",
              "IAMconn.ListRoles", FilterGeneric),
      APIDesc("aws_iam_instance_profile", ["InstanceProfiles"], "InstanceProfileName",
              "IAMconn.ListInstanceProfiles", FilterGeneric),
      APIDesc("aws_kms_alias", ["Aliases"], "AliasName",
              "KMSconn.ListAliases", FilterGeneric),
      APIDesc("aws_kms_key", ["Keys"], "KeyId",
              "KMSconn.ListKeys", FilterKmsKeys),
      APIDesc("aws_s3_bucket", ["Buckets"], "Name",
              "S3conn.ListBuckets", FilterGeneric),
      APIDesc("aws_ebs_snapshot", ["Snapshots"], "SnapshotId",
              "EC2conn.DescribeSnapshots", FilterGeneric),
      APIDesc("aws_ebs_volume", ["Volumes"], "VolumeId",
              "EC2conn.DescribeVolumes", FilterGeneric),
      APIDesc("aws_ami", ["Images"], "ImageId",
              "EC2conn.DescribeImages", FilterGeneric)
    ]
  }

  /** A resource type is supported when some row of the table has it as its Terraform type. */
  predicate IsSupportedType(resType: string)
  {
    exists i :: 0 <= i < |Supported()| && Supported()[i].terraformType == resType
  }

  /**
   * getSupported: the descriptor of a resource type, by its Terraform type;
   * it fails, naming the type, exactly when the type is not supported.
   */
  function GetSupported(resType: string): (r: Result<APIDesc, LookupError>)
    ensures r.Success? <==> IsSupportedType(resType)
    ensures r.Success? ==> r.value in Supported() && r.value.terraformType == resType
    ensures r.Failure? ==> r.error == NoAPIDesc(resType)
  {
    Lookup(Supported(), resType)
  }

  /**
   * The row of `t` in the type column of Supported(), written out as a
   * decision list in table order; -1 for a type that is not in the table.
   */
  function TypeRow(t: string): (row: int)
  {
    if t == "aws_autoscaling_group" then 0
    else if t == "aws_launch_configuration" then 1
    else if t == "aws_instance" then 2
    else if t == "aws_key_pair" then 3
    else if t == "aws_elb" then 4
    else if t == "aws_vpc_endpoint" then 5
    else if t == "aws_nat_gateway" then 6
    else if t == "aws_cloudformation_stack" then 7
    else if t == "aws_route53_zone" then 8
    else if t == "aws_efs_file_system" then 9
    else if t == "aws_network_interface" then 10
    else if t == "aws_eip" then 11
    else if t == "aws_internet_gateway" then 12
    else if t == "aws_subnet" then 13
    else if t == "aws_route_table" then 14
    else if t == "aws_security_group" then 15
    else if t == "aws_network_acl" then 16
    else if t == "aws_vpc" then 17
    else if t == "aws_iam_policy" then 18
    else if t == "aws_iam_group" then 19
    else if t == "aws_iam_user" then 20
    else if t == "aws_iam_role" then 21
    else if t == "aws_iam_instance_profile" then 22
    else if t == "aws_kms_alias" then 23
    else if t == "aws_kms_key" then 24
    else if t == "aws_s3_bucket" then 25
    else if t == "aws_ebs_snapshot" then 26
    else if t == "aws_ebs_volume" then 27
    else if t == "aws_ami" then 28
    else -1
  }

  lemma TypeRowFirstRows(i: int)
    requires 0 <= i < 10
    ensures TypeRow(Supported()[i].terraformType) == i
  {
  }

  lemma TypeRowMiddleRows(i: int)
    requires 10 <= i < 20
    ensures TypeRow(Supported()[i].terraformType) == i
  {
  }

  lemma TypeRowLastRows(i: int)
    requires 20 <= i < 29
    ensures TypeRow(Supported()[i].terraformType) == i
  {
  }

  /** Row i of the table carries the i-th type of the fixed type column. */
  lemma TypeRowOfRow(i: int)
    requires 0 <= i < |Supported()|
    ensures TypeRow(Supported()[i].terraformType) == i
  {
    if i < 10 {
      TypeRowFirstRows(i);
    } else if i < 20 {
      TypeRowMiddleRows(i);
    } else {
      TypeRowLastRows(i);
    }
  }

  /** Each descriptor is identified by its Terraform type: no type occurs twice. */
  lemma SupportedUniqueTypes()
    ensures UniqueTypes(Supported())
  {
    forall i, j | 0 <= i < j < |Supported()|
      ensures Supported()[i].terraformType != Supported()[j].terraformType
    {
      TypeRowOfRow(i);
      TypeRowOfRow(j);
    }
  }

  /** A type outside the decision list is not supported. */
  lemma NotInTypeColumn(t: string)
    requires TypeRow(t) == -1
    ensures !IsSupportedType(t)
    ensures GetSupported(t) == Failure(NoAPIDesc(t))
  {
    forall i | 0 <= i < |Supported()|
      ensures Supported()[i].terraformType != t
    {
      TypeRowOfRow(i);
    }
  }

  /** Round trip: looking up the type of any row of the table yields that row. */
  lemma GetSupportedRoundTrip(i: int)
    requires 0 <= i < |Supported()|
    ensures GetSupported(Supported()[i].terraformType) == Success(Supported()[i])
  {
    SupportedUniqueTypes();
    LookupUniqueRow(Supported(), i);
  }

  /**
   * Every descriptor names a non-empty response path and a deletion key;
   * the path has one segment except for aws_instance, whose items sit two
   * levels down, under its reservations.
   */
  lemma DescriptorShape(i: int)
    requires 0 <= i < |Supported()|
    ensures Supported()[i].describeOutputName != [] && Supported()[i].deleteId != ""
    ensures Supported()[i].terraformType != "aws_instance" ==> |Supported()[i].describeOutputName| == 1
    ensures Supported()[i].terraformType == "aws_instance" ==>
      Supported()[i].describeOutputName == ["Reservations", "Instances"]
  {
  }

  /** Four types have their own selector; every other type uses the generic one. */
  lemma SelectorAssignment(i: int)
    requires 0 <= i < |Supported()|
    ensures Supported()[i].select ==
      match Supported()[i].terraformType
      case "aws_efs_file_system" => FilterEfsFileSystem
      case "aws_iam_policy" => FilterIamPolicy
      case "aws_iam_user" => FilterIamUser
      case "aws_kms_key" => FilterKmsKeys
      case _ => FilterGeneric
  {
  }
}
