/** The cluster as a whole: its image, its three roles, and how the parts built for one group fit. */
module Clusters {
  import opened Options
  import opened ApiTypes
  import opened Roles
  import opened Registration
  import Kerberos
  import ConfigMaps
  import StatefulSets
  import Texts

  // ----- the image -----

  datatype Image = Image(
    kubedoopVersion: string, productVersion: string, custom: string, repo: string, pullPolicy: string)

  const DEFAULT_PRODUCT_VERSION := "2.6.1"

  function ImageOf(spec: ImageSpec, buildVersion: string): Image {
    Image(if spec.kubedoopVersion != "" then spec.kubedoopVersion else buildVersion,
          DEFAULT_PRODUCT_VERSION, spec.custom, spec.repo, spec.pullPolicy)
  }

  /** Which parts of the spec the image depends on: the product version and the pull secret are not
      among them. */
  lemma ImagesAgree(a: ImageSpec, b: ImageSpec, buildVersion: string)
    ensures ImageOf(a, buildVersion) == ImageOf(b, buildVersion) <==>
            a.custom == b.custom && a.repo == b.repo && a.pullPolicy == b.pullPolicy
            && (a.kubedoopVersion == b.kubedoopVersion
                || {a.kubedoopVersion, b.kubedoopVersion} == {"", buildVersion})
  {
    assert {a.kubedoopVersion, b.kubedoopVersion} == {"", buildVersion} <==>
           (a.kubedoopVersion == "" && b.kubedoopVersion == buildVersion)
           || (a.kubedoopVersion == buildVersion && b.kubedoopVersion == "") by {
      var (x, y) := (a.kubedoopVersion, b.kubedoopVersion);
      if {x, y} == {"", buildVersion} {
        assert x in {"", buildVersion} && y in {"", buildVersion} && "" in {x, y} && buildVersion in {x, y};
      }
    }
  }

  // ----- the roles -----

  const ROLES := [Master, RegionServer, RestServer]

  function SpecOf(spec: HbaseClusterSpec, role: Role): Option<RoleSpec> {
    match role
    case Master => spec.master
    case RegionServer => spec.regionServer
    case RestServer => spec.restServer
  }

  // A role registers unless its spec is missing, a group does not merge, or a group has no cluster
  // configuration to take its settings from.
  ghost predicate Succeeds(o: Outside, spec: HbaseClusterSpec, role: Role) {
    && SpecOf(spec, role).Some?
    && if spec.clusterConfig.Some? then AllMerge(o, SpecOf(spec, role).value)
       else GroupsOf(SpecOf(spec, role).value) == map[]
  }

  // How many roles succeed, in order, before the first that does not.
  ghost function Leading(o: Outside, spec: HbaseClusterSpec): nat {
    if spec.image.None? || !Succeeds(o, spec, Master) then 0
    else if !Succeeds(o, spec, RegionServer) then 1
    else if !Succeeds(o, spec, RestServer) then 2
    else 3
  }

  class ClusterReconciler {
    const clusterName: string
    const namespace: string
    const spec: HbaseClusterSpec
    var roles: seq<RoleReconciler>

    constructor (clusterName: string, namespace: string, spec: HbaseClusterSpec)
      ensures this.clusterName == clusterName && this.namespace == namespace && this.spec == spec && roles == []
    {
      this.clusterName, this.namespace, this.spec := clusterName, namespace, spec;
      roles := [];
    }

    // None: the image is a nil pointer.
    method GetImage(buildVersion: string) returns (image: Option<Image>)
      ensures image == if spec.image.Some? then Some(ImageOf(spec.image.value, buildVersion)) else None
      ensures image.Some? ==>
                var (i, wanted) := (image.value, spec.image.value);
                && i.custom == wanted.custom && i.repo == wanted.repo && i.pullPolicy == wanted.pullPolicy
                && i.kubedoopVersion == (if wanted.kubedoopVersion == "" then buildVersion else wanted.kubedoopVersion)
                && i.productVersion == "2.6.1"
    {
      if spec.image.None? {
        return None;
      }
      var i := spec.image.value;
      var result := Image(buildVersion, DEFAULT_PRODUCT_VERSION, i.custom, i.repo, i.pullPolicy);
      if i.kubedoopVersion != "" {
        result := result.(kubedoopVersion := i.kubedoopVersion);
      }
      return Some(result);
    }

    // The reconciler of one of this cluster's roles, with everything its groups need.
    ghost predicate IsCompleteRole(r: RoleReconciler, role: Role)
      reads r
    {
      && r.role == role && r.clusterName == clusterName && r.namespace == namespace
      && r.spec == SpecOf(spec, role) && r.clusterConfig == spec.clusterConfig
      && r.spec.Some?
      && if spec.clusterConfig.Some? then
           HasAllResources(Context(namespace, spec.clusterConfig.value), r)
           && ServesRole(r.resources, Context(namespace, spec.clusterConfig.value), clusterName, role, r.spec.value)
         else r.resources == []
    }

    // Creates one role's reconciler and registers its resources.
    method RegisterRole(o: Outside, role: Role) returns (outcome: Outcome, r: RoleReconciler)
      ensures fresh(r)
      ensures outcome.Registered? <==> Succeeds(o, spec, role)
      ensures outcome.Registered? ==> IsCompleteRole(r, role)
      ensures outcome.MergeFailed? ==> SpecOf(spec, role).Some? && !AllMerge(o, SpecOf(spec, role).value)
    {
      hide AllResources, IsVisit, NamesOf, ServesRole;
      r := new RoleReconciler(clusterName, role, SpecOf(spec, role), namespace, spec.clusterConfig);
      ghost var visited;
      outcome, visited := r.RegisterResources(o);
    }

    /**
     Registers the roles in order and stops at the first that fails.  What is added to the cluster is
     exactly the roles before that one, each with the resources of all its groups.
     */
    method RegisterResources(o: Outside, buildVersion: string) returns (outcome: Outcome)
      modifies this
      ensures |roles| == |old(roles)| + Leading(o, spec) && old(roles) <= roles
      ensures forall i :: 0 <= i < Leading(o, spec) ==>
                var r := roles[|old(roles)| + i];
                fresh(r) && IsCompleteRole(r, ROLES[i])
      ensures var (n, added) := (|old(roles)|, Leading(o, spec));
              && (added > 0 ==> roles[n].role == Master && roles[n].spec == spec.master)
              && (added > 1 ==> roles[n + 1].role == RegionServer && roles[n + 1].spec == spec.regionServer)
              && (added > 2 ==> roles[n + 2].role == RestServer && roles[n + 2].spec == spec.restServer)
      ensures outcome.Registered? <==> Leading(o, spec) == 3
      ensures outcome.MergeFailed? ==>
                spec.image.Some? && Leading(o, spec) < 3
                && var failing := SpecOf(spec, ROLES[Leading(o, spec)]);
                   failing.Some? && !AllMerge(o, failing.value)
    {
      hide Succeeds, AllMerge, HasAllResources, ServesRole;
      var image := GetImage(buildVersion);
      if image.None? {
        return Panicked;
      }
      var master, region, rest;
      outcome, master := RegisterRole(o, Master);
      if !outcome.Registered? {
        return;
      }
      roles := roles + [master];
      outcome, region := RegisterRole(o, RegionServer);
      if !outcome.Registered? {
        return;
      }
      roles := roles + [region];
      outcome, rest := RegisterRole(o, RestServer);
      if !outcome.Registered? {
        return;
      }
      roles := roles + [rest];
    }
  }

  // ----- names across the whole cluster -----

  // The role has both a group g and a group g-metrics.
  ghost predicate HasMetricsTwin(spec: RoleSpec) {
    exists g :: g in GroupsOf(spec) && g + METRICS_SUFFIX in GroupsOf(spec)
  }

  ghost predicate IsFullVisit(clusterName: string, role: Role, spec: RoleSpec, visited: seq<Group>) {
    IsVisit(clusterName, role, spec, visited) && NamesOf(visited) == GroupsOf(spec).Keys
  }

  lemma VisitHasShadowExactly(clusterName: string, role: Role, spec: RoleSpec, v: seq<Group>)
    requires IsFullVisit(clusterName, role, spec, v)
    ensures HasShadow(v) <==> HasMetricsTwin(spec)
  {
    if HasShadow(v) {
      var i, j :| 0 <= i < |v| && 0 <= j < |v| && v[i].info == Shadow(v[j].info);
      assert v[j].info.groupName in GroupsOf(spec) && v[i].info.groupName in GroupsOf(spec);
    }
    if HasMetricsTwin(spec) {
      var g :| g in GroupsOf(spec) && g + METRICS_SUFFIX in GroupsOf(spec);
      assert g in NamesOf(v) && g + METRICS_SUFFIX in NamesOf(v);
      var j :| 0 <= j < |v| && v[j].info.groupName == g;
      var i :| 0 <= i < |v| && v[i].info.groupName == g + METRICS_SUFFIX;
      assert v[i].info == Shadow(v[j].info);
    }
  }

  ghost predicate OfRole(v: seq<Group>, clusterName: string, role: Role) {
    forall i :: 0 <= i < |v| ==> v[i].info.clusterName == clusterName && v[i].info.role == role
  }

  ghost predicate OfCluster(v: seq<Group>, clusterName: string) {
    forall i :: 0 <= i < |v| ==> v[i].info.clusterName == clusterName
  }

  lemma VisitFacts(clusterName: string, role: Role, spec: RoleSpec, v: seq<Group>)
    requires IsFullVisit(clusterName, role, spec, v)
    ensures NoneTwice(v) && OfRole(v, clusterName, role)
  {
  }

  lemma RolesTogether(clusterName: string, a: seq<Group>, b: seq<Group>, c: seq<Group>)
    requires OfRole(a, clusterName, Master) && OfRole(b, clusterName, RegionServer) && OfRole(c, clusterName, RestServer)
    requires NoneTwice(a) && NoneTwice(b) && NoneTwice(c)
    ensures HasShadow(a + b + c) <==> HasShadow(a) || HasShadow(b) || HasShadow(c)
    ensures NoneTwice(a + b + c) && OfCluster(a + b + c, clusterName)
  {
    hide HasShadow, NoneTwice;
    ShadowsStayInRole(a, b);
    ShadowsStayInRole(a + b, c);
  }

  lemma ShadowsStayInRole(a: seq<Group>, b: seq<Group>)
    requires forall i, j :: 0 <= i < |a| && 0 <= j < |b| ==> a[i].info.role != b[j].info.role
    ensures HasShadow(a + b) <==> HasShadow(a) || HasShadow(b)
    ensures NoneTwice(a) && NoneTwice(b) ==> NoneTwice(a + b)
  {
    var c := a + b;
    if HasShadow(c) {
      var i, j :| 0 <= i < |c| && 0 <= j < |c| && c[i].info == Shadow(c[j].info);
      assert c[i].info.role == c[j].info.role;
      if i < |a| {
        assert j < |a| && a[i] == c[i] && a[j] == c[j];
      } else {
        assert j >= |a| && b[i - |a|] == c[i] && b[j - |a|] == c[j];
      }
    }
    if HasShadow(a) {
      var i, j :| 0 <= i < |a| && 0 <= j < |a| && a[i].info == Shadow(a[j].info);
      assert c[i] == a[i] && c[j] == a[j];
    }
    if HasShadow(b) {
      var i, j :| 0 <= i < |b| && 0 <= j < |b| && b[i].info == Shadow(b[j].info);
      assert c[|a| + i] == b[i] && c[|a| + j] == b[j];
    }
  }

  /**
   All resources that a successful registration adds, over the three roles, have pairwise different
   kinds and names exactly when no role has a group g beside a group g-metrics.
   */
  lemma ClusterNamesAreDistinctExactly(ctx: Context, clusterName: string,
                                       master: RoleSpec, a: seq<Group>, region: RoleSpec, b: seq<Group>,
                                       rest: RoleSpec, c: seq<Group>)
    requires IsFullVisit(clusterName, Master, master, a)
    requires IsFullVisit(clusterName, RegionServer, region, b)
    requires IsFullVisit(clusterName, RestServer, rest, c)
    ensures AllIdsDiffer(AllResources(ctx, a) + AllResources(ctx, b) + AllResources(ctx, c)) <==>
            !HasMetricsTwin(master) && !HasMetricsTwin(region) && !HasMetricsTwin(rest)
  {
    VisitHasShadowExactly(clusterName, Master, master, a);
    VisitHasShadowExactly(clusterName, RegionServer, region, b);
    VisitHasShadowExactly(clusterName, RestServer, rest, c);
    VisitFacts(clusterName, Master, master, a);
    VisitFacts(clusterName, RegionServer, region, b);
    VisitFacts(clusterName, RestServer, rest, c);
    hide AllResources, HasShadow, HasMetricsTwin, NamesOf, AllIdsDiffer, IsVisit, NoneTwice;
    RolesTogether(clusterName, a, b, c);
    AllResourcesAppends(ctx, a, b);
    AllResourcesAppends(ctx, a + b, c);
    NamesAreDistinctExactly(ctx, clusterName, a + b + c);
  }

  // ----- the parts of one group -----

  /** The StatefulSet and the ConfigMap of a group are made for each other: the pod mounts the ConfigMap
      registered for that group, and both come to the same Kerberos settings. */
  lemma GroupPartsAgree(ctx: Context, g: Group)
    ensures var rs := GroupResources(ctx, g);
            && rs[0].StatefulSetResource? && rs[2].ConfigMapResource?
            && StatefulSets.ConfigMapVolume("hbase-config", IdOf(rs[2]).name) in StatefulSets.AllVolumes(rs[0].pod)
            && rs[0].pod.krb5 == rs[2].config.krb5
            && rs[0].pod.name == IdOf(rs[1]).name == IdOf(rs[2]).name
            && rs[1].ServiceResource? && rs[3].MetricsServiceResource?
            && var main := StatefulSets.MainContainer(rs[0].pod);
               && StatefulSets.RunsRole(main, g.info.role) && main.ports == rs[1].ports
               && ContainerPort(UI_PORT, rs[3].port) in main.ports
  {
    hide FullName, StatefulSets.MainContainer, StatefulSets.AllVolumes, StatefulSets.RunsRole, Ports;
    var pod := GroupResources(ctx, g)[0].pod;
    StatefulSets.MainRunsRole(pod);
    StatefulSets.MountsHaveVolumes(pod);
    MainPorts(pod);
    WebPort(g.info.role);
  }

  lemma MainPorts(pod: StatefulSets.Settings)
    ensures StatefulSets.MainContainer(pod).Main? && StatefulSets.MainContainer(pod).ports == Ports(pod.role)
  {
  }

  lemma WebPort(role: Role)
    ensures ContainerPort(UI_PORT, MetricsPort(role)) in Ports(role)
  {
    assert Ports(role)[1] == ContainerPort(UI_PORT, MetricsPort(role));
  }

  lemma NoOptionInRole(role: Role)
    ensures !Texts.Contains(RoleName(role), ConfigMaps.KRB5_OPTION) && '\n' !in RoleName(role)
  {
    ConfigMaps.OptionFacts();
    assert '-' !in "master" && '-' !in "regionserver" && '-' !in "restserver";
    hide ConfigMaps.KRB5_OPTION;
    forall i ensures !Texts.OccursAt(RoleName(role), ConfigMaps.KRB5_OPTION, i) {
      if Texts.OccursAt(RoleName(role), ConfigMaps.KRB5_OPTION, i) {
        Texts.CharsOfOccurrence(RoleName(role), ConfigMaps.KRB5_OPTION, i, i);
      }
    }
  }

  /** Once its ConfigMap is built, either a group's pod has all Kerberos parts and that ConfigMap all Kerberos
      data, for one configuration, or neither has any. */
  lemma KerberosAgrees(ctx: Context, g: Group, out: ConfigMaps.Outside, a: ConfigMaps.Address)
    requires var config := NewConfigMap(ctx, g.info).config; ConfigMaps.AllSucceed(ConfigMaps.Steps(config, out, a))
    ensures var (pod, config) := (NewStatefulSet(ctx, g.info, g.replicas).pod, NewConfigMap(ctx, g.info).config);
            var (main, volumes) := (StatefulSets.MainContainer(pod), StatefulSets.AllVolumes(pod));
            var data := ConfigMaps.RunFrom(map[], ConfigMaps.Steps(config, out, a), 0);
            if config.krb5.Some? then
              StatefulSets.HasKerberosParts(main, volumes, config.krb5.value)
              && ConfigMaps.HasKerberosData(data, config.krb5.value)
            else StatefulSets.HasNoKerberosPart(main, volumes) && ConfigMaps.HasNoKerberosData(data)
  {
    hide ConfigMaps.Steps, ConfigMaps.RunFrom, ConfigMaps.SiteProperties, FullName;
    hide ConfigMaps.HasKerberosData, ConfigMaps.HasNoKerberosData;
    hide StatefulSets.MainContainer, StatefulSets.AllVolumes;
    hide StatefulSets.HasKerberosParts, StatefulSets.HasNoKerberosPart;
    StatefulSets.KerberosIsAllOrNothing(NewStatefulSet(ctx, g.info, g.replicas).pod);
    NoOptionInRole(g.info.role);
    ConfigMaps.BuiltData(NewConfigMap(ctx, g.info).config, out, a);
  }

  // The path lies in the directory where the container mounts the volume of the given name.
  ghost predicate IsMounted(path: string, main: StatefulSets.Container, name: string)
    requires main.Main?
  {
    exists m :: m in main.mounts && m.name == name && m.path + "/" <= path
  }

  // What the files of a secure ConfigMap rely on is what the pod's secret volumes provide.
  ghost predicate SecretsFit(site: map<string, string>, server: map<string, string>,
                             main: StatefulSets.Container, volumes: seq<StatefulSets.Volume>)
    requires main.Main?
  {
    && IsMounted(Kerberos.KRB5_CONFIG_FILE, main, "kerberos")
    && (forall key :: key in Kerberos.PrincipalKeys() ==>
          Kerberos.KeytabOf(key) in site && IsMounted(site[Kerberos.KeytabOf(key)], main, "kerberos"))
    && (forall v, key :: v in volumes && v.name == "kerberos" && key in Kerberos.PrincipalKeys() ==>
          v.SecretVolume? && RequestsService(v.annotations, Kerberos.ServiceOf(key)))
    && (forall key :: key in {"ssl.server.keystore.location", "ssl.server.truststore.location"} ==>
          key in server && IsMounted(server[key], main, "tls"))
    && (forall v, key ::
          v in volumes && v.name == "tls" && key in {"ssl.server.keystore.password", "ssl.server.truststore.password"} ==>
            v.SecretVolume? && Kerberos.Agree(server, key, v.annotations, "secrets.kubedoop.dev/tlsPKCS12Password"))
  }

  ghost predicate RequestsService(annotations: map<string, string>, service: string) {
    var key := "secrets.kubedoop.dev/kerberosServiceNames";
    key in annotations && service in Texts.Split(annotations[key], ',')
  }

  lemma ServiceNames()
    ensures Texts.Split("HTTP,hbase", ',') == ["HTTP", "hbase"]
  {
    assert "HTTP" + [','] + "hbase" == "HTTP,hbase";
    assert ',' !in "HTTP" && ',' !in "hbase";
    hide Texts.Split;
    Texts.SplitAtFirst("HTTP", ',', "hbase");
    Texts.SplitOfFree("hbase", ',');
  }

  lemma ServicesAreRequested()
    ensures forall key :: Kerberos.ServiceOf(key) in Texts.Split("HTTP,hbase", ',')
  {
    hide Texts.Split;
    ServiceNames();
    assert ["HTTP", "hbase"][0] == "HTTP" && ["HTTP", "hbase"][1] == "hbase";
    assert forall key :: Kerberos.ServiceOf(key) == "HTTP" || Kerberos.ServiceOf(key) == "hbase";
  }

  lemma FilesAreMounted(main: StatefulSets.Container, volumes: seq<StatefulSets.Volume>, c: Kerberos.KerberosConfig)
    requires main.Main? && StatefulSets.HasKerberosParts(main, volumes, c)
    ensures IsMounted(Kerberos.KEYTAB_FILE, main, "kerberos") && IsMounted(Kerberos.KRB5_CONFIG_FILE, main, "kerberos")
    ensures IsMounted(Kerberos.KEYSTORE_FILE, main, "tls") && IsMounted(Kerberos.TRUSTSTORE_FILE, main, "tls")
  {
    var (keytabs, stores) := (StatefulSets.VolumeMount("kerberos", Kerberos.KERBEROS_DIR), StatefulSets.VolumeMount("tls", Kerberos.TLS_DIR));
    assert keytabs in main.mounts && stores in main.mounts;
    assert keytabs.path + "/" <= Kerberos.KEYTAB_FILE && keytabs.path + "/" <= Kerberos.KRB5_CONFIG_FILE;
    assert stores.path + "/" <= Kerberos.KEYSTORE_FILE && stores.path + "/" <= Kerberos.TRUSTSTORE_FILE;
  }

  lemma ServerFacts()
    ensures Kerberos.Has(Kerberos.SslServer(), "ssl.server.keystore.location", Kerberos.KEYSTORE_FILE)
    ensures Kerberos.Has(Kerberos.SslServer(), "ssl.server.truststore.location", Kerberos.TRUSTSTORE_FILE)
    ensures Kerberos.Has(Kerberos.SslServer(), "ssl.server.keystore.password", Kerberos.STORE_PASSWORD)
    ensures Kerberos.Has(Kerberos.SslServer(), "ssl.server.truststore.password", Kerberos.STORE_PASSWORD)
  {
  }

  lemma PartsFit(site: map<string, string>, main: StatefulSets.Container, volumes: seq<StatefulSets.Volume>,
                 c: Kerberos.KerberosConfig)
    requires main.Main? && StatefulSets.HasKerberosParts(main, volumes, c)
    requires StatefulSets.ClaimsSecrets(volumes, c.kerberosClass, c.tlsClass, c.clusterName)
    requires Kerberos.IsSecure(site, Kerberos.SslServer(), Kerberos.SslClient())
    ensures SecretsFit(site, Kerberos.SslServer(), main, volumes)
  {
    hide StatefulSets.HasKerberosParts, IsMounted, Kerberos.SslServer, Kerberos.SslClient;
    hide Kerberos.PrincipalKeys, Kerberos.KeytabOf, Kerberos.ServiceOf, Texts.Split;
    FilesAreMounted(main, volumes, c);
    ServicesAreRequested();
    ServerFacts();
  }

  // The files are there, secure as a whole, and fit the pod.
  ghost predicate DataFits(d: ConfigMaps.Data, main: StatefulSets.Container, volumes: seq<StatefulSets.Volume>)
    requires main.Main?
  {
    && ConfigMaps.ENV_KEY in d && d[ConfigMaps.ENV_KEY].Text?
    && Texts.Contains(d[ConfigMaps.ENV_KEY].text, "-Djava.security.krb5.conf=" + Kerberos.KRB5_CONFIG_FILE)
    && ConfigMaps.HBASE_KEY in d && d[ConfigMaps.HBASE_KEY].Xml?
    && ConfigMaps.SSL_SERVER_KEY in d && d[ConfigMaps.SSL_SERVER_KEY].Xml?
    && ConfigMaps.SSL_CLIENT_KEY in d && d[ConfigMaps.SSL_CLIENT_KEY].Xml?
    && var site := d[ConfigMaps.HBASE_KEY].properties;
       var (server, client) := (d[ConfigMaps.SSL_SERVER_KEY].properties, d[ConfigMaps.SSL_CLIENT_KEY].properties);
       Kerberos.IsSecure(site, server, client) && SecretsFit(site, server, main, volumes)
  }

  lemma KerberosDataFits(d: ConfigMaps.Data, main: StatefulSets.Container, volumes: seq<StatefulSets.Volume>,
                         c: Kerberos.KerberosConfig)
    requires main.Main? && StatefulSets.HasKerberosParts(main, volumes, c) && ConfigMaps.HasKerberosData(d, c)
    requires StatefulSets.ClaimsSecrets(volumes, c.kerberosClass, c.tlsClass, c.clusterName)
    ensures DataFits(d, main, volumes)
  {
    hide StatefulSets.HasKerberosParts, StatefulSets.ClaimsSecrets, Texts.Contains, Kerberos.IsSecure, SecretsFit, Kerberos.HbaseSite, Kerberos.Includes;
    hide Kerberos.SslServer, Kerberos.SslClient;
    var site := d[ConfigMaps.HBASE_KEY].properties;
    Kerberos.SiteIsSecure(c);
    Kerberos.MoreIsSecure(Kerberos.HbaseSite(c), site, Kerberos.SslServer(), Kerberos.SslClient());
    PartsFit(site, main, volumes, c);
  }

  /** With Kerberos on, the files in a group's built ConfigMap are secure as a whole, and every keytab, store
      and password they name is one that the group's pod mounts or asks the secret operator for. */
  lemma SecureFilesFitThePod(ctx: Context, g: Group, out: ConfigMaps.Outside, a: ConfigMaps.Address)
    requires var config := NewConfigMap(ctx, g.info).config;
             config.krb5.Some? && ConfigMaps.AllSucceed(ConfigMaps.Steps(config, out, a))
    ensures var (pod, config) := (NewStatefulSet(ctx, g.info, g.replicas).pod, NewConfigMap(ctx, g.info).config);
            var data := ConfigMaps.RunFrom(map[], ConfigMaps.Steps(config, out, a), 0);
            DataFits(data, StatefulSets.MainContainer(pod), StatefulSets.AllVolumes(pod))
  {
    hide ConfigMaps.Steps, ConfigMaps.RunFrom, FullName, StatefulSets.AllVolumes;
    hide StatefulSets.HasKerberosParts, StatefulSets.ClaimsSecrets, ConfigMaps.HasKerberosData, DataFits;
    var (pod, config) := (NewStatefulSet(ctx, g.info, g.replicas).pod, NewConfigMap(ctx, g.info).config);
    KerberosAgrees(ctx, g, out, a);
    StatefulSets.SecretsAreClaimed(pod);
    KerberosDataFits(ConfigMaps.RunFrom(map[], ConfigMaps.Steps(config, out, a), 0),
                     StatefulSets.MainContainer(pod), StatefulSets.AllVolumes(pod), config.krb5.value);
  }

  /** The secret classes of the cluster's authentication reach the right volumes of every group's pod; without
      both of them the pod has no part of Kerberos. */
  lemma SecretsComeFromTheCluster(ctx: Context, g: Group)
    ensures var (pod, auth) := (NewStatefulSet(ctx, g.info, g.replicas).pod, ctx.clusterConfig.authentication);
            if IsSecured(ctx) then
              StatefulSets.ClaimsSecrets(StatefulSets.AllVolumes(pod), auth.value.kerberosSecretClass,
                                         auth.value.tlsSecretClass, g.info.clusterName)
            else
              StatefulSets.HasNoKerberosPart(StatefulSets.MainContainer(pod), StatefulSets.AllVolumes(pod))
  {
    hide FullName, StatefulSets.ClaimsSecrets, StatefulSets.HasNoKerberosPart, StatefulSets.HasKerberosParts;
    hide StatefulSets.AllVolumes;
    var pod := NewStatefulSet(ctx, g.info, g.replicas).pod;
    if IsSecured(ctx) { StatefulSets.SecretsAreClaimed(pod); } else { StatefulSets.KerberosIsAllOrNothing(pod); }
  }

  lemma ConfigNamesCluster(ctx: Context, i: Info)
    ensures var krb5 := NewConfigMap(ctx, i).config.krb5;
            krb5.Some? ==> krb5.value.clusterName == i.clusterName && krb5.value.namespace == ctx.namespace
  {
    hide FullName;
  }

  /** From the registration to the running pod: every principal in a group's built hbase-site.xml, once
      the realm is put in, names the cluster and the namespace the group was registered for. */
  lemma BuiltPrincipalsResolve(ctx: Context, i: Info, out: ConfigMaps.Outside, a: ConfigMaps.Address, realm: string)
    requires '.' !in ctx.namespace && '@' !in i.clusterName && '@' !in ctx.namespace
    requires '$' !in i.clusterName && '$' !in ctx.namespace && Kerberos.IsPlainRealm(realm)
    requires NewConfigMap(ctx, i).config.krb5.Some?
    requires ConfigMaps.AllSucceed(ConfigMaps.Steps(NewConfigMap(ctx, i).config, out, a))
    ensures var data := ConfigMaps.RunFrom(map[], ConfigMaps.Steps(NewConfigMap(ctx, i).config, out, a), 0);
            && ConfigMaps.HBASE_KEY in data && data[ConfigMaps.HBASE_KEY].Xml?
            && var properties := data[ConfigMaps.HBASE_KEY].properties;
               forall key :: key in Kerberos.PrincipalKeys() ==>
                 key in properties
                 && Kerberos.ParsePrincipal(Kerberos.Sed(properties[key], realm)) ==
                    Some(Kerberos.Identity(Kerberos.ServiceOf(key), i.clusterName, ctx.namespace, realm))
  {
    hide ConfigMaps.Steps, ConfigMaps.RunFrom, ConfigMaps.SiteProperties, FullName;
    hide Kerberos.HbaseSite, Kerberos.Sed, Kerberos.ParsePrincipal, Kerberos.PrincipalKeys, Kerberos.ServiceOf;
    var config := NewConfigMap(ctx, i).config;
    ConfigNamesCluster(ctx, i);
    ConfigMaps.BuiltOver(map[], config, out, a);
    assert ConfigMaps.SiteIs(
      ConfigMaps.RunFrom(map[], ConfigMaps.Steps(config, out, a), 0)[ConfigMaps.HBASE_KEY].properties,
      config, a.quorum.value, a.chroot.value, a.port.value);
    Kerberos.SitePrincipalsResolve(config.krb5.value, realm);
  }
}
