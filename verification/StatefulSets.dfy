/** The pod template of one role group, and what its setup commands do to the configuration files. */
module StatefulSets {
  import opened Options
  import opened ApiTypes
  import opened Roles
  import opened Kerberos
  import Affinities
  import Oidc
  import Urls

  const CONF_DIR := "/kubedoop/config"
  const HBASE_MOUNT := "/kubedoop/mount/config/hbase"
  const HDFS_MOUNT := "/kubedoop/mount/config/hdfs"
  const HBASE_SITE := "hbase-site.xml"
  const HDFS_SITE := "hdfs-site.xml"
  const CORE_SITE := "core-site.xml"

  datatype SetupCommand =
    | MakeConfDir           // mkdir -p
    | CopyAll(from: string) // cp from/* into the configuration directory
    | ExportRealm           // export KERBEROS_REALM=$(grep ...)
    | SedRealm(file: string)

  datatype EnvVar = EnvVar(name: string, value: string)
  datatype VolumeMount = VolumeMount(name: string, path: string)

  datatype Container =
    | Main(name: string, setup: seq<SetupCommand>, startArg: string, env: seq<EnvVar>, mounts: seq<VolumeMount>,
           ports: seq<ContainerPort>, probePort: string)
    | Proxy(environment: Oidc.ProxyEnvironment)
    | Vector

  datatype Volume =
    | ConfigMapVolume(name: string, configMap: string)
    | SecretVolume(name: string, annotations: map<string, string>)  // claims from the secret operator
    | OtherVolume(name: string)

  datatype PodTemplate = PodTemplate(containers: seq<Container>, volumes: seq<Volume>, affinity: Affinities.Affinity)

  datatype Settings = Settings(
    name: string, clusterConfig: ClusterConfigSpec, role: Role, clusterName: string, krb5: Option<KerberosConfig>)

  // The AuthenticationClass object that the cluster names.
  datatype ClassLookup = LookupFailed | Found(provider: Option<Oidc.OidcProvider>)

  // What comes from outside this model: the class lookup, the digest of the cluster's UID, GetObject,
  // and the volumes of the Vector container.
  datatype Outside = Outside(lookup: ClassLookup, digest: Oidc.Digest, objectBuilt: bool, vectorVolumes: seq<Volume>)

  // ----- the parts of the pod -----

  function Krb5Setup(c: KerberosConfig): seq<SetupCommand> {
    [ExportRealm, SedRealm(CORE_SITE), SedRealm(HDFS_SITE), SedRealm(HBASE_SITE)]
  }

  function SetupCommands(krb5: Option<KerberosConfig>): seq<SetupCommand> {
    [MakeConfDir, CopyAll(HBASE_MOUNT), CopyAll(HDFS_MOUNT)] + if krb5.Some? then Krb5Setup(krb5.value) else []
  }

  function Krb5Env(c: KerberosConfig): seq<EnvVar> {
    [EnvVar("KRB5_CONFIG", KRB5_CONFIG_FILE), EnvVar("HBASE_OPTS", "-Djava.security.krb5.conf=" + KRB5_CONFIG_FILE)]
  }

  function Krb5Mounts(c: KerberosConfig): seq<VolumeMount> {
    [VolumeMount("kerberos", KERBEROS_DIR), VolumeMount("tls", TLS_DIR)]
  }

  const SECRET_CLASS := "secrets.kubedoop.dev/class"
  const SECRET_SCOPE := "secrets.kubedoop.dev/scope"
  const SERVICE_NAMES := "secrets.kubedoop.dev/kerberosServiceNames"
  const SECRET_FORMAT := "secrets.kubedoop.dev/format"
  const SECRET_PASSWORD := "secrets.kubedoop.dev/tlsPKCS12Password"

  function KerberosVolume(c: KerberosConfig): Volume {
    SecretVolume("kerberos", map[SECRET_CLASS := c.kerberosClass, SECRET_SCOPE := "service=" + c.clusterName,
                                 SERVICE_NAMES := "HTTP,hbase"])
  }

  function TlsVolume(c: KerberosConfig): Volume {
    SecretVolume("tls", map[SECRET_CLASS := c.tlsClass, SECRET_SCOPE := "node,pod", SECRET_FORMAT := "tls-p12",
                            SECRET_PASSWORD := STORE_PASSWORD])
  }

  function Krb5Volumes(c: KerberosConfig): seq<Volume> {
    [KerberosVolume(c), TlsVolume(c)]
  }

  function MainContainer(s: Settings): Container {
    Main(
      RoleName(s.role),
      SetupCommands(s.krb5),
      CommandArg(s.role),
      [EnvVar("HBASE_CONF_DIR", CONF_DIR), EnvVar("HADOOP_CONF_DIR", CONF_DIR)]
        + (if s.krb5.Some? then Krb5Env(s.krb5.value) else []),
      [VolumeMount("hdfs-config", HDFS_MOUNT), VolumeMount("hbase-config", HBASE_MOUNT)]
        + (if s.krb5.Some? then Krb5Mounts(s.krb5.value) else []),
      Ports(s.role),
      ProbePort(s.role))
  }

  function BaseVolumes(s: Settings): seq<Volume> {
    [ConfigMapVolume("hdfs-config", s.clusterConfig.hdfsConfigMapName), ConfigMapVolume("hbase-config", s.name)]
  }

  function AllVolumes(s: Settings): seq<Volume> {
    BaseVolumes(s) + if s.krb5.Some? then Krb5Volumes(s.krb5.value) else []
  }

  function DefaultAffinities(s: Settings): seq<Affinities.PodAffinity> {
    var labels := map["app.kubernetes.io/instance" := s.clusterName, "app.kubernetes.io/name" := "hbase"];
    [Affinities.PodAffinity(false, false, 20, labels),
     Affinities.PodAffinity(false, true, 70, labels["app.kubernetes.io/component" := RoleName(s.role)])]
  }

  // ----- the proxy container -----

  datatype ProxyResult = ProxyFailed | NoProxy | ProxyContainer(container: Container)

  predicate AsksForProxy(s: Settings) {
    s.clusterConfig.authentication.Some? && s.clusterConfig.authentication.value.authenticationClass != ""
  }

  predicate IsByteProvider(o: Outside) {
    o.lookup.Found? && o.lookup.provider.Some? ==>
      var p := o.lookup.provider.value;
      (forall i :: 0 <= i < |p.hostname| ==> p.hostname[i] as int < 256)
      && (forall i :: 0 <= i < |p.rootPath| ==> p.rootPath[i] as int < 256)
  }

  function ProxyOf(s: Settings, o: Outside): ProxyResult
    requires IsByteProvider(o)
  {
    if !AsksForProxy(s) then NoProxy
    else if o.lookup.LookupFailed? then ProxyFailed
    else
      var oidc := s.clusterConfig.authentication.value.oidc;
      if o.lookup.provider.None? || oidc.None? then NoProxy
      else ProxyContainer(Proxy(Oidc.Environment(
        o.digest, PortNamed(Ports(s.role), UI_PORT), oidc.value, o.lookup.provider.value)))
  }

  // The proxy passes requests on to the port of the pod that the role's metrics Service targets as well,
  // and logs in with the credentials the cluster names.
  ghost predicate SpeaksFor(env: Oidc.ProxyEnvironment, role: Role, config: ClusterConfigSpec) {
    && Urls.ParseUrl(env.upstream) == Some(Urls.HttpUrl(Oidc.POD_IP_REFERENCE, MetricsPort(role), ""))
    && config.authentication.Some? && config.authentication.value.oidc.Some?
    && var secret := config.authentication.value.oidc.value.clientCredentialsSecret;
       env.clientId == Oidc.SecretKeyRef(secret, "CLIENT_ID") && env.clientSecret == Oidc.SecretKeyRef(secret, "CLIENT_SECRET")
  }

  lemma ProxySpeaksForRole(s: Settings, o: Outside)
    requires IsByteProvider(o)
    ensures var r := ProxyOf(s, o);
            r.ProxyContainer? ==> r.container.Proxy? && SpeaksFor(r.container.environment, s.role, s.clusterConfig)
  {
    hide Urls.ParseUrl, Oidc.CookieSecret, Oidc.IssuerUrl, Oidc.Scopes;
    Oidc.PodIpIsPlain();
    TablesAgree(s.role);
    Oidc.PortedUrlParses(Oidc.POD_IP_REFERENCE, MetricsPort(s.role));
  }

  function ProxyList(r: ProxyResult): seq<Container> {
    if r.ProxyContainer? then [r.container] else []
  }

  class StatefulSetBuilder {
    const settings: Settings
    var containers: seq<Container>
    var volumes: seq<Volume>
    var affinity: Option<Affinities.Affinity>

    constructor (s: Settings)
      ensures settings == s && containers == [] && volumes == [] && affinity == None
    {
      settings := s;
      containers, volumes, affinity := [], [], None;
    }

    method BuildOidcContainer(o: Outside) returns (r: ProxyResult)
      requires IsByteProvider(o)
      ensures r == ProxyOf(settings, o)
      ensures var auth := settings.clusterConfig.authentication;
              && (r.ProxyContainer? <==>
                    auth.Some? && auth.value.authenticationClass != "" && auth.value.oidc.Some?
                    && o.lookup.Found? && o.lookup.provider.Some?)
              && (r.ProxyFailed? <==>
                    auth.Some? && auth.value.authenticationClass != "" && o.lookup.LookupFailed?)
      ensures r.ProxyContainer? ==>
                r.container.Proxy? && SpeaksFor(r.container.environment, settings.role, settings.clusterConfig)
    {
      ProxySpeaksForRole(settings, o);
      hide Oidc.Environment, SpeaksFor;
      if settings.clusterConfig.authentication.None? || settings.clusterConfig.authentication.value.authenticationClass == "" {
        return NoProxy;
      }
      if o.lookup.LookupFailed? {
        return ProxyFailed;
      }
      var oidc := settings.clusterConfig.authentication.value.oidc;
      if o.lookup.provider.None? || oidc.None? {
        return NoProxy;
      }
      var upstreamPort := FindPort(Ports(settings.role), UI_PORT);
      return ProxyContainer(Proxy(Oidc.Environment(o.digest, upstreamPort, oidc.value, o.lookup.provider.value)));
    }

    /**
     Adds to what the builder holds, and returns the pod with everything it then holds.  A failing
     lookup stops after the main container and all volumes have been added.
     */
    method Build(o: Outside) returns (pod: Option<PodTemplate>)
      requires IsByteProvider(o)
      modifies this
      ensures volumes == old(volumes) + AllVolumes(settings)
      ensures affinity == Some(Affinities.Partition(DefaultAffinities(settings)))
      ensures containers == old(containers) + [MainContainer(settings)] + ProxyList(ProxyOf(settings, o))
      ensures pod.Some? <==> !ProxyOf(settings, o).ProxyFailed? && o.objectBuilt
      ensures pod.Some? ==>
                pod.value == if settings.clusterConfig.vectorAggregatorConfigMapName == ""
                             then PodTemplate(containers, volumes, affinity.value)
                             else PodTemplate(containers + [Vector], volumes + o.vectorVolumes, affinity.value)
    {
      hide Affinities.Partition, DefaultAffinities, Oidc.Environment;
      containers := containers + [MainContainer(settings)];
      volumes := volumes + BaseVolumes(settings);
      var affinityBuilder := new Affinities.AffinityBuilder(DefaultAffinities(settings));
      var built := affinityBuilder.Build();
      affinity := Some(built);
      if settings.krb5.Some? {
        volumes := volumes + Krb5Volumes(settings.krb5.value);
      }
      assert volumes == old(volumes) + AllVolumes(settings);
      var proxy := BuildOidcContainer(o);
      if proxy.ProxyFailed? {
        return None;
      }
      if proxy.ProxyContainer? {
        containers := containers + [proxy.container];
      }
      if !o.objectBuilt {
        return None;
      }
      if settings.clusterConfig.vectorAggregatorConfigMapName != "" {
        return Some(PodTemplate(containers + [Vector], volumes + o.vectorVolumes, built));
      }
      return Some(PodTemplate(containers, volumes, built));
    }
  }

  // The pod that a new builder returns.
  function PodOf(s: Settings, o: Outside): Option<PodTemplate>
    requires IsByteProvider(o)
  {
    var proxy := ProxyOf(s, o);
    if proxy.ProxyFailed? || !o.objectBuilt then None
    else
      var vector := s.clusterConfig.vectorAggregatorConfigMapName != "";
      Some(PodTemplate(
        [MainContainer(s)] + ProxyList(proxy) + (if vector then [Vector] else []),
        AllVolumes(s) + (if vector then o.vectorVolumes else []),
        Affinities.Partition(DefaultAffinities(s))))
  }

  method BuildNew(s: Settings, o: Outside) returns (pod: Option<PodTemplate>)
    requires IsByteProvider(o)
    ensures pod == PodOf(s, o)
  {
    hide Affinities.Partition, DefaultAffinities, MainContainer, AllVolumes, ProxyOf;
    var b := new StatefulSetBuilder(s);
    pod := b.Build(o);
    assert [] + [MainContainer(s)] == [MainContainer(s)] && [] + AllVolumes(s) == AllVolumes(s);
    assert b.containers + [] == b.containers && b.volumes + [] == b.volumes;
  }

  // ----- what holds of every pod -----

  // The role's server is started, probed and exposed by the container, and reads the directory that the
  // setup commands fill.
  ghost predicate RunsRole(main: Container, role: Role) {
    && main.Main? && main.name == RoleName(role)
    && main.startArg == (match role case Master => "master" case RegionServer => "regionserver" case RestServer => "rest")
    && main.ports == Ports(role) && (exists p :: p in main.ports && p.name == main.probePort)
    && (main.probePort == if role.RestServer? then "rest-http" else RoleName(role))
    && EnvVar("HBASE_CONF_DIR", "/kubedoop/config") in main.env && EnvVar("HADOOP_CONF_DIR", "/kubedoop/config") in main.env
  }

  lemma MainRunsRole(s: Settings)
    ensures RunsRole(MainContainer(s), s.role)
  {
    var main := MainContainer(s);
    TablesAgree(s.role);
    assert main.env[0] == EnvVar("HBASE_CONF_DIR", CONF_DIR) && main.env[1] == EnvVar("HADOOP_CONF_DIR", CONF_DIR);
  }

  // The claims of a pod's secret volumes, by name: each from the class that the cluster gives for it.
  ghost predicate ClaimsSecrets(volumes: seq<Volume>, kerberosClass: string, tlsClass: string, clusterName: string) {
    && (exists v :: v in volumes && v.name == "kerberos") && (exists v :: v in volumes && v.name == "tls")
    && (forall v :: v in volumes && v.name == "kerberos" ==>
          && v.SecretVolume? && Has(v.annotations, "secrets.kubedoop.dev/class", kerberosClass)
          && Has(v.annotations, "secrets.kubedoop.dev/scope", "service=" + clusterName)
          && Has(v.annotations, "secrets.kubedoop.dev/kerberosServiceNames", "HTTP,hbase"))
    && (forall v :: v in volumes && v.name == "tls" ==>
          && v.SecretVolume? && Has(v.annotations, "secrets.kubedoop.dev/class", tlsClass)
          && Has(v.annotations, "secrets.kubedoop.dev/scope", "node,pod")
          && Has(v.annotations, "secrets.kubedoop.dev/format", "tls-p12")
          && Has(v.annotations, "secrets.kubedoop.dev/tlsPKCS12Password", "changeit"))
  }

  lemma KerberosClaim(c: KerberosConfig)
    ensures KerberosVolume(c).name == "kerberos"
    ensures Has(KerberosVolume(c).annotations, "secrets.kubedoop.dev/class", c.kerberosClass)
    ensures Has(KerberosVolume(c).annotations, "secrets.kubedoop.dev/scope", "service=" + c.clusterName)
    ensures Has(KerberosVolume(c).annotations, "secrets.kubedoop.dev/kerberosServiceNames", "HTTP,hbase")
  {
    assert |SECRET_CLASS| == 26 && |SECRET_SCOPE| == 26 && |SERVICE_NAMES| == 41 && SECRET_CLASS[21] == 'c' && SECRET_SCOPE[21] == 's';
  }

  lemma TlsClaim(c: KerberosConfig)
    ensures TlsVolume(c).name == "tls"
    ensures Has(TlsVolume(c).annotations, "secrets.kubedoop.dev/class", c.tlsClass)
    ensures Has(TlsVolume(c).annotations, "secrets.kubedoop.dev/scope", "node,pod")
    ensures Has(TlsVolume(c).annotations, "secrets.kubedoop.dev/format", "tls-p12")
    ensures Has(TlsVolume(c).annotations, "secrets.kubedoop.dev/tlsPKCS12Password", "changeit")
  {
    assert |SECRET_CLASS| == 26 && |SECRET_SCOPE| == 26 && |SECRET_FORMAT| == 27 && |SECRET_PASSWORD| == 38;
    assert SECRET_CLASS[21] == 'c' && SECRET_SCOPE[21] == 's';
  }

  lemma VolumeNames()
    ensures "hdfs-config" != "kerberos" && "hdfs-config" != "tls" && "hbase-config" != "kerberos" && "hbase-config" != "tls"
    ensures "kerberos" != "tls"
  {
    assert |"hdfs-config"| == 11 && |"hbase-config"| == 12 && |"kerberos"| == 8 && |"tls"| == 3;
  }

  /** With Kerberos on, the volumes named kerberos and tls claim their secrets from the Kerberos class and the
      TLS class respectively, for this cluster. */
  lemma SecretsAreClaimed(s: Settings)
    requires s.krb5.Some?
    ensures ClaimsSecrets(AllVolumes(s), s.krb5.value.kerberosClass, s.krb5.value.tlsClass, s.krb5.value.clusterName)
  {
    var (volumes, c) := (AllVolumes(s), s.krb5.value);
    KerberosClaim(c);
    TlsClaim(c);
    VolumeNames();
    assert volumes == [ConfigMapVolume("hdfs-config", s.clusterConfig.hdfsConfigMapName), ConfigMapVolume("hbase-config", s.name),
                       KerberosVolume(c), TlsVolume(c)];
    assert volumes[2] == KerberosVolume(c) && volumes[3] == TlsVolume(c);
    assert KerberosVolume(c).SecretVolume? && TlsVolume(c).SecretVolume?;
    hide KerberosVolume, TlsVolume, AllVolumes, Has;
  }

  // Authentication names a class with an OIDC provider, and the cluster configures OIDC.
  predicate WantsProxy(s: Settings, o: Outside) {
    AsksForProxy(s) && s.clusterConfig.authentication.value.oidc.Some? && o.lookup.Found? && o.lookup.provider.Some?
  }

  lemma ProxyOutcome(s: Settings, o: Outside)
    requires IsByteProvider(o)
    ensures ProxyOf(s, o).ProxyContainer? <==> WantsProxy(s, o)
    ensures ProxyOf(s, o).ProxyFailed? <==> AsksForProxy(s) && o.lookup.LookupFailed?
  {
    hide Oidc.Environment;
  }

  lemma Layout<T>(first: T, middle: seq<T>, last: seq<T>)
    requires |middle| <= 1 && |last| <= 1
    ensures var all := [first] + middle + last;
            && |all| == 1 + |middle| + |last| && all[0] == first
            && (middle != [] ==> all[1] == middle[0]) && (last != [] ==> all[|all| - 1] == last[0])
  {
  }

  /** The containers of a pod: first the main one, a proxy exactly when the cluster is set up for one, and
      Vector exactly when an aggregator is named; the volumes are the pod's own, and Vector's besides. */
  lemma PodHolds(s: Settings, o: Outside)
    requires IsByteProvider(o)
    ensures PodOf(s, o).Some? <==> o.objectBuilt && !(AsksForProxy(s) && o.lookup.LookupFailed?)
    ensures PodOf(s, o).Some? ==>
              var (pod, vector) := (PodOf(s, o).value, s.clusterConfig.vectorAggregatorConfigMapName != "");
              && |pod.containers| == 1 + (if WantsProxy(s, o) then 1 else 0) + (if vector then 1 else 0)
              && RunsRole(pod.containers[0], s.role)
              && (WantsProxy(s, o) ==> pod.containers[1].Proxy?
                                       && SpeaksFor(pod.containers[1].environment, s.role, s.clusterConfig))
              && (vector ==> pod.containers[|pod.containers| - 1].Vector?)
              && AllVolumes(s) <= pod.volumes
              && pod.volumes[|AllVolumes(s)|..] == if vector then o.vectorVolumes else []
  {
    hide ProxyOf, WantsProxy, AsksForProxy, MainContainer, AllVolumes, RunsRole, SpeaksFor;
    hide Affinities.Partition, DefaultAffinities;
    MainRunsRole(s);
    ProxySpeaksForRole(s, o);
    ProxyOutcome(s, o);
    var vector := s.clusterConfig.vectorAggregatorConfigMapName != "";
    Layout(MainContainer(s), ProxyList(ProxyOf(s, o)), if vector then [Vector] else []);
    var added := if vector then o.vectorVolumes else [];
    assert (AllVolumes(s) + added)[|AllVolumes(s)|..] == added;
  }

  // The labels of a pod that affinity looks at.
  function PodLabels(cluster: string, name: string, component: string): map<string, string> {
    map["app.kubernetes.io/instance" := cluster, "app.kubernetes.io/name" := name,
        "app.kubernetes.io/component" := component]
  }

  /** A pod prefers, weakly, hosts with other pods of its cluster and, strongly, hosts without pods of its own
      role in that cluster; it requires nothing. */
  lemma PodsSpread(s: Settings)
    ensures var a := Affinities.Partition(DefaultAffinities(s));
            && a.require == [] && a.antiRequire == [] && |a.prefer| == 1 && |a.antiPrefer| == 1
            && a.prefer[0].weight == 20 && a.antiPrefer[0].weight == 70
            && (forall cluster, name, component ::
                  Includes(PodLabels(cluster, name, component), a.prefer[0].term.matchLabels) <==>
                  cluster == s.clusterName && name == "hbase")
            && (forall cluster, name, component ::
                  Includes(PodLabels(cluster, name, component), a.antiPrefer[0].term.matchLabels) <==>
                  cluster == s.clusterName && name == "hbase" && component == RoleName(s.role))
  {
    LabelKeys();
    var pas := DefaultAffinities(s);
    AffinityShape(s);
    forall cluster, name, component
      ensures Includes(PodLabels(cluster, name, component), pas[0].labels) <==> cluster == s.clusterName && name == "hbase"
      ensures Includes(PodLabels(cluster, name, component), pas[1].labels) <==>
              cluster == s.clusterName && name == "hbase" && component == RoleName(s.role)
    {
      LabelsMatch(s, cluster, name, component);
    }
  }

  lemma LabelKeys()
    ensures "app.kubernetes.io/instance" != "app.kubernetes.io/name"
    ensures "app.kubernetes.io/component" != "app.kubernetes.io/instance"
    ensures "app.kubernetes.io/component" != "app.kubernetes.io/name"
  {
    assert |"app.kubernetes.io/instance"| == 26 && |"app.kubernetes.io/name"| == 22 && |"app.kubernetes.io/component"| == 27;
  }

  lemma LabelsMatch(s: Settings, cluster: string, name: string, component: string)
    ensures var (pas, labels) := (DefaultAffinities(s), PodLabels(cluster, name, component));
            && (Includes(labels, pas[0].labels) <==> cluster == s.clusterName && name == "hbase")
            && (Includes(labels, pas[1].labels) <==>
                  cluster == s.clusterName && name == "hbase" && component == RoleName(s.role))
  {
    LabelKeys();
    var (pas, labels) := (DefaultAffinities(s), PodLabels(cluster, name, component));
    assert "app.kubernetes.io/instance" in pas[0].labels && "app.kubernetes.io/name" in pas[0].labels;
    assert "app.kubernetes.io/instance" in pas[1].labels && "app.kubernetes.io/name" in pas[1].labels;
    assert "app.kubernetes.io/component" in pas[1].labels;
  }

  lemma AffinityShape(s: Settings)
    ensures var (a, pas) := (Affinities.Partition(DefaultAffinities(s)), DefaultAffinities(s));
            && a.require == [] && a.antiRequire == [] && |a.prefer| == 1 && |a.antiPrefer| == 1
            && a.prefer[0].weight == 20 && a.antiPrefer[0].weight == 70
            && a.prefer[0].term.matchLabels == pas[0].labels && a.antiPrefer[0].term.matchLabels == pas[1].labels
  {
    var pas := DefaultAffinities(s);
    assert pas == [] + [pas[0]] + [pas[1]];
    Affinities.AddedGoesLast([], pas[0]);
    Affinities.AddedGoesLast([] + [pas[0]], pas[1]);
  }

  // Everything the pod needs for Kerberos, each part added in a place of its own.
  ghost predicate HasKerberosParts(main: Container, volumes: seq<Volume>, c: KerberosConfig)
    requires main.Main?
  {
    && ExportRealm in main.setup
    && SedRealm(CORE_SITE) in main.setup && SedRealm(HDFS_SITE) in main.setup && SedRealm(HBASE_SITE) in main.setup
    && EnvVar("KRB5_CONFIG", KRB5_CONFIG_FILE) in main.env
    && EnvVar("HBASE_OPTS", "-Djava.security.krb5.conf=" + KRB5_CONFIG_FILE) in main.env
    && VolumeMount("kerberos", KERBEROS_DIR) in main.mounts && VolumeMount("tls", TLS_DIR) in main.mounts
    && KerberosVolume(c) in volumes && TlsVolume(c) in volumes
  }

  ghost predicate HasNoKerberosPart(main: Container, volumes: seq<Volume>)
    requires main.Main?
  {
    && (forall c :: c in main.setup ==> !c.ExportRealm? && !c.SedRealm?)
    && (forall e :: e in main.env ==> e.name != "KRB5_CONFIG" && e.name != "HBASE_OPTS")
    && (forall m :: m in main.mounts ==> m.name != "kerberos" && m.name != "tls")
    && (forall v :: v in volumes ==> !v.SecretVolume?)
  }

  /** The pod has all its Kerberos parts when Kerberos is on, and none of them otherwise. */
  lemma KerberosIsAllOrNothing(s: Settings)
    ensures if s.krb5.Some? then HasKerberosParts(MainContainer(s), AllVolumes(s), s.krb5.value)
            else HasNoKerberosPart(MainContainer(s), AllVolumes(s))
  {
    if s.krb5.Some? {
      KerberosParts(s);
    } else {
      NoKerberosParts(s);
    }
  }

  lemma KerberosParts(s: Settings)
    requires s.krb5.Some?
    ensures HasKerberosParts(MainContainer(s), AllVolumes(s), s.krb5.value)
  {
    var (main, c) := (MainContainer(s), s.krb5.value);
    assert main.setup[3] == ExportRealm && main.setup[4] == SedRealm(CORE_SITE);
    assert main.setup[5] == SedRealm(HDFS_SITE) && main.setup[6] == SedRealm(HBASE_SITE);
    assert main.env[2] == Krb5Env(c)[0] && main.env[3] == Krb5Env(c)[1];
    assert main.mounts[2] == Krb5Mounts(c)[0] && main.mounts[3] == Krb5Mounts(c)[1];
    assert AllVolumes(s)[2] == Krb5Volumes(c)[0] && AllVolumes(s)[3] == Krb5Volumes(c)[1];
  }

  lemma NoKerberosParts(s: Settings)
    requires s.krb5.None?
    ensures HasNoKerberosPart(MainContainer(s), AllVolumes(s))
  {
    assert |"HBASE_CONF_DIR"| == 14 && |"HADOOP_CONF_DIR"| == 15 && |"KRB5_CONFIG"| == 11 && |"HBASE_OPTS"| == 10;
    assert |"hdfs-config"| == 11 && |"hbase-config"| == 12 && |"kerberos"| == 8 && |"tls"| == 3;
  }

  /** Every mount of the main container names a volume of the pod, and the mounted hbase configuration is
      the ConfigMap with the StatefulSet's own name, the HDFS one that of the cluster. */
  lemma MountsHaveVolumes(s: Settings)
    ensures forall m :: m in MainContainer(s).mounts ==> exists v :: v in AllVolumes(s) && v.name == m.name
    ensures ConfigMapVolume("hbase-config", s.name) in AllVolumes(s)
    ensures ConfigMapVolume("hdfs-config", s.clusterConfig.hdfsConfigMapName) in AllVolumes(s)
    ensures VolumeMount("hbase-config", HBASE_MOUNT) in MainContainer(s).mounts
    ensures VolumeMount("hdfs-config", HDFS_MOUNT) in MainContainer(s).mounts
  {
    var (mounts, volumes) := (MainContainer(s).mounts, AllVolumes(s));
    assert |mounts| == |volumes| && forall i :: 0 <= i < |mounts| ==> mounts[i].name == volumes[i].name;
    assert volumes[0] == ConfigMapVolume("hdfs-config", s.clusterConfig.hdfsConfigMapName);
    assert volumes[1] == ConfigMapVolume("hbase-config", s.name);
    assert mounts[0] == VolumeMount("hdfs-config", HDFS_MOUNT) && mounts[1] == VolumeMount("hbase-config", HBASE_MOUNT);
    forall m | m in mounts ensures exists v :: v in volumes && v.name == m.name {
      var i :| 0 <= i < |mounts| && mounts[i] == m;
      assert volumes[i] in volumes;
    }
  }

  // ----- what the setup commands do -----

  type Files = map<string, string>

  // The mounted directories and the realm that grep finds (empty if it finds none).
  datatype Mounted = Mounted(hbase: Files, hdfs: Files, realm: string)

  // The configuration directory, if it exists, and the shell's variable KERBEROS_REALM, if it is set.
  datatype Progress = Progress(dir: Option<Files>, realm: Option<string>)

  // None: the command fails, and with errexit on the script ends there.  Copying needs the directory, and
  // with nounset on the substitution needs the variable.
  function RunCommand(m: Mounted, p: Progress, c: SetupCommand): Option<Progress> {
    match c
    case MakeConfDir => Some(p.(dir := Some(FilesOf(p))))
    case CopyAll(from) =>
      var files := if from == HBASE_MOUNT then m.hbase else m.hdfs;
      if files == map[] || p.dir.None? then None else Some(p.(dir := Some(p.dir.value + files)))
    case ExportRealm => Some(p.(realm := Some(m.realm)))
    case SedRealm(file) =>
      if p.realm.None? || p.dir.None? || file !in p.dir.value then None
      else Some(p.(dir := Some(p.dir.value[file := Sed(p.dir.value[file], p.realm.value)])))
  }

  function FilesOf(p: Progress): Files {
    if p.dir.Some? then p.dir.value else map[]
  }

  function RunCommands(m: Mounted, p: Progress, commands: seq<SetupCommand>): Option<Progress>
    decreases |commands|
  {
    if commands == [] then Some(p)
    else
      match RunCommand(m, p, commands[0])
      case None => None
      case Some(next) => RunCommands(m, next, commands[1..])
  }

  predicate IsRealmFile(file: string) {
    file == "core-site.xml" || file == "hdfs-site.xml" || file == "hbase-site.xml"
  }

  // The files that the copies leave: a copied file replaces what was there, and the HDFS ones win.
  function Copied(m: Mounted, conf: Files): Files {
    conf + m.hbase + m.hdfs
  }

  lemma SiteNamesAreDistinct()
    ensures CORE_SITE != HDFS_SITE && CORE_SITE != HBASE_SITE && HDFS_SITE != HBASE_SITE
    ensures HBASE_MOUNT != HDFS_MOUNT
  {
    assert |CORE_SITE| == 13 && |HDFS_SITE| == 13 && |HBASE_SITE| == 14 && CORE_SITE[0] == 'c' && HDFS_SITE[0] == 'h';
    assert |HBASE_MOUNT| == 28 && |HDFS_MOUNT| == 27;
  }

  // A file once the setup is over.
  function Finished(m: Mounted, conf: Files, krb5: bool, file: string): string
    requires file in Copied(m, conf)
  {
    if krb5 && IsRealmFile(file) then Sed(Copied(m, conf)[file], m.realm) else Copied(m, conf)[file]
  }

  /**
   Whether or not the configuration directory exists and holds files, and whatever KERBEROS_REALM was, the
   setup succeeds exactly when both mounts hold files and, with Kerberos, the three files that carry
   principals are then there.  Afterwards each file is the HDFS one if there is one, else the HBase one if
   there is one, else what it was before, with the realm put in in just those three.
   */
  lemma SetupResult(m: Mounted, p: Progress, krb5: Option<KerberosConfig>)
    ensures var result := RunCommands(m, p, SetupCommands(krb5));
            var files := Copied(m, FilesOf(p));
            && (result.Some? <==>
                  m.hbase != map[] && m.hdfs != map[] &&
                  (krb5.Some? ==> forall file :: IsRealmFile(file) ==> file in files))
            && (result.Some? ==>
                  && result.value.dir.Some? && result.value.dir.value.Keys == files.Keys
                  && forall file :: file in files ==>
                       result.value.dir.value[file] == Finished(m, FilesOf(p), krb5.Some?, file))
  {
    var commands := SetupCommands(krb5);
    SiteNamesAreDistinct();
    hide Sed;
    RunsFirst(m, p, commands);
    var made := p.(dir := Some(FilesOf(p)));
    RunsFirst(m, made, commands[1..]);
    if m.hbase != map[] {
      var half := p.(dir := Some(FilesOf(p) + m.hbase));
      RunsFirst(m, half, commands[2..]);
      if m.hdfs != map[] {
        var copied := p.(dir := Some(Copied(m, FilesOf(p))));
        assert commands[3..] == if krb5.Some? then Krb5Setup(krb5.value) else [];
        if krb5.Some? { RealmRuns(m, copied, krb5.value); }
      }
    }
    assert IsRealmFile(CORE_SITE) && IsRealmFile(HDFS_SITE) && IsRealmFile(HBASE_SITE);
  }

  lemma RunsFirst(m: Mounted, p: Progress, commands: seq<SetupCommand>)
    requires commands != []
    ensures RunCommands(m, p, commands) ==
            match RunCommand(m, p, commands[0])
            case None => None
            case Some(next) => RunCommands(m, next, commands[1..])
  {
  }

  // The realm commands on their own.
  lemma RealmRuns(m: Mounted, p: Progress, c: KerberosConfig)
    requires p.dir.Some?
    ensures var conf := p.dir.value;
            RunCommands(m, p, Krb5Setup(c)) ==
            if CORE_SITE in conf && HDFS_SITE in conf && HBASE_SITE in conf then
              Some(Progress(
                Some(map file | file in conf :: if IsRealmFile(file) then Sed(conf[file], m.realm) else conf[file]),
                Some(m.realm)))
            else None
  {
    hide Sed;
    var (commands, conf) := (Krb5Setup(c), p.dir.value);
    SiteNamesAreDistinct();
    RunsFirst(m, p, commands);
    var start := Progress(Some(conf), Some(m.realm));
    RunsFirst(m, start, commands[1..]);
    if CORE_SITE in conf {
      var first := conf[CORE_SITE := Sed(conf[CORE_SITE], m.realm)];
      RunsFirst(m, start.(dir := Some(first)), commands[2..]);
      if HDFS_SITE in conf {
        var second := first[HDFS_SITE := Sed(conf[HDFS_SITE], m.realm)];
        RunsFirst(m, start.(dir := Some(second)), commands[3..]);
        if HBASE_SITE in conf {
          var third := second[HBASE_SITE := Sed(conf[HBASE_SITE], m.realm)];
          assert commands[4..] == [];
          assert third == map file | file in conf :: if IsRealmFile(file) then Sed(conf[file], m.realm) else conf[file];
        }
      }
    }
  }
}
