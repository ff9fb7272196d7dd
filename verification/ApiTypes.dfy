/**
 The API object of a cluster as a value.  A Go pointer, slice or map that may be nil is an Option, so
 nil and empty are kept apart.  The master, region server and REST server types differ only in their
 names, so each shape stands here once.
 */
module ApiTypes {
  import opened Options

  // A value of a type of another package that holds references of its own.
  datatype Foreign = Foreign(scalars: string, items: Option<seq<string>>)

  datatype ImageSpec = ImageSpec(
    custom: string, repo: string, kubedoopVersion: string, productVersion: string, pullPolicy: string,
    pullSecretName: string)

  datatype OidcSpec = OidcSpec(clientCredentialsSecret: string, extraScopes: Option<seq<string>>)

  datatype AuthenticationSpec = AuthenticationSpec(
    authenticationClass: string, oidc: Option<OidcSpec>, kerberosSecretClass: string, tlsSecretClass: string)

  datatype ClusterConfigSpec = ClusterConfigSpec(
    zookeeperConfigMapName: string, hdfsConfigMapName: string, listenerClass: string,
    authentication: Option<AuthenticationSpec>, vectorAggregatorConfigMapName: string)

  // ClusterOperationSpec, of another package, without references
  datatype ClusterOperationSpec = ClusterOperationSpec(reconciliationPaused: bool, stopped: bool)

  // MasterConfigSpec, RegionConfigSpec, RestServerConfigSpec
  datatype RoleConfigSpec = RoleConfigSpec(roleGroupConfig: Option<Foreign>)

  // MasterRoleGroupSpec, RegionServerRoleGroupSpec, RestServerRoleGroupSpec
  datatype RoleGroupSpec = RoleGroupSpec(replicas: Option<int>, config: Option<RoleConfigSpec>, overrides: Option<Foreign>)

  // MasterSpec, RegionServerSpec, RestServerSpec
  datatype RoleSpec = RoleSpec(
    config: Option<RoleConfigSpec>, roleGroups: Option<map<string, RoleGroupSpec>>,
    roleConfig: Option<Foreign>, overrides: Option<Foreign>)

  datatype HbaseClusterSpec = HbaseClusterSpec(
    image: Option<ImageSpec>, clusterConfig: Option<ClusterConfigSpec>,
    clusterOperation: Option<ClusterOperationSpec>,
    master: Option<RoleSpec>, regionServer: Option<RoleSpec>, restServer: Option<RoleSpec>)

  datatype HbaseClusterStatus = HbaseClusterStatus(conditions: Option<seq<Foreign>>)

  datatype HbaseCluster = HbaseCluster(
    typeMeta: string, objectMeta: Foreign, spec: HbaseClusterSpec, status: HbaseClusterStatus)

  datatype HbaseClusterList = HbaseClusterList(
    typeMeta: string, listMeta: Foreign, items: Option<seq<HbaseCluster>>)
}
