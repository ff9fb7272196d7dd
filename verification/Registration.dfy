/** Which resources a cluster registers: four for every role group of its three roles. */
module Registration {
  import opened Options
  import opened ApiTypes
  import opened Roles
  import Kerberos
  import ConfigMaps
  import StatefulSets

  // reconciler.RoleGroupInfo
  datatype Info = Info(clusterName: string, role: Role, groupName: string)

  function FullName(i: Info): string {
    i.clusterName + "-" + RoleName(i.role) + "-" + i.groupName
  }

  const METRICS_SUFFIX := "-metrics"

  // CreateServiceMetricsName
  function MetricsName(i: Info): string {
    FullName(i) + METRICS_SUFFIX
  }

  datatype Resource =
    | StatefulSetResource(pod: StatefulSets.Settings, replicas: Option<int>)
    | ServiceResource(name: string, ports: seq<ContainerPort>)
    | ConfigMapResource(config: ConfigMaps.Settings)
    | MetricsServiceResource(name: string, port: int)

  datatype Kind = StatefulSet | Service | ConfigMap

  datatype Id = Id(kind: Kind, name: string)

  function IdOf(r: Resource): Id {
    match r
    case StatefulSetResource(pod, _) => Id(StatefulSet, pod.name)
    case ServiceResource(name, _) => Id(Service, name)
    case ConfigMapResource(config) => Id(ConfigMap, config.name)
    case MetricsServiceResource(name, _) => Id(Service, name)
  }

  // What is the same for all groups of a cluster.
  datatype Context = Context(namespace: string, clusterConfig: ClusterConfigSpec)

  // NewStatefulSetReconciler
  function NewStatefulSet(ctx: Context, i: Info, replicas: Option<int>): Resource {
    var auth := ctx.clusterConfig.authentication;
    var kerberosClass := if auth.Some? then auth.value.kerberosSecretClass else "";
    var tlsClass := if auth.Some? then auth.value.tlsSecretClass else "";
    StatefulSetResource(
      StatefulSets.Settings(
        FullName(i), ctx.clusterConfig, i.role, i.clusterName,
        Kerberos.ConfigOf(ctx.namespace, i.clusterName, kerberosClass, tlsClass)),
      replicas)
  }

  // NewConfigMapReconciler
  function NewConfigMap(ctx: Context, i: Info): Resource {
    var auth := ctx.clusterConfig.authentication;
    var kerberosClass := if auth.Some? then auth.value.kerberosSecretClass else "";
    var tlsClass := if auth.Some? then auth.value.tlsSecretClass else "";
    ConfigMapResource(
      ConfigMaps.Settings(
        FullName(i), i.clusterName, RoleName(i.role), i.groupName,
        Kerberos.ConfigOf(ctx.namespace, i.clusterName, kerberosClass, tlsClass),
        ctx.clusterConfig.vectorAggregatorConfigMapName))
  }

  // A role group with the replicas its spec asks for.
  datatype Group = Group(info: Info, replicas: Option<int>)

  // RegisterResourceWithRoleGroup
  function GroupResources(ctx: Context, g: Group): (rs: seq<Resource>)
    ensures |rs| == 4
  {
    [NewStatefulSet(ctx, g.info, g.replicas),
     ServiceResource(FullName(g.info), Ports(g.info.role)),
     NewConfigMap(ctx, g.info),
     MetricsServiceResource(MetricsName(g.info), MetricsPort(g.info.role))]
  }

  function AllResources(ctx: Context, groups: seq<Group>): (rs: seq<Resource>)
    ensures |rs| == 4 * |groups|
  {
    if groups == [] then []
    else AllResources(ctx, groups[..|groups| - 1]) + GroupResources(ctx, groups[|groups| - 1])
  }

  // ----- registering -----

  // MergeObject of operator-go: whether it fails on a role's and a group's part.
  datatype Outside = Outside(
    configMerges: (Option<RoleConfigSpec>, Option<RoleConfigSpec>) -> bool,
    overridesMerge: (Option<Foreign>, Option<Foreign>) -> bool)

  // A missing spec, image or cluster configuration is a nil pointer that the code follows.
  datatype Outcome = Registered | MergeFailed | Panicked

  predicate Merges(o: Outside, role: RoleSpec, group: RoleGroupSpec) {
    o.configMerges(role.config, group.config) && o.overridesMerge(role.overrides, group.overrides)
  }

  function GroupsOf(role: RoleSpec): map<string, RoleGroupSpec> {
    if role.roleGroups.Some? then role.roleGroups.value else map[]
  }

  ghost predicate AllMerge(o: Outside, role: RoleSpec) {
    forall name :: name in GroupsOf(role) ==> Merges(o, role, GroupsOf(role)[name])
  }

  // The order in which some of the role's groups were visited.
  ghost predicate IsVisit(clusterName: string, role: Role, spec: RoleSpec, visited: seq<Group>) {
    && (forall i :: 0 <= i < |visited| ==>
          var name := visited[i].info.groupName;
          && name in GroupsOf(spec)
          && visited[i] == Group(Info(clusterName, role, name), GroupsOf(spec)[name].replicas))
    && (forall i, j :: 0 <= i < j < |visited| ==> visited[i].info != visited[j].info)
  }

  ghost function NamesOf(visited: seq<Group>): set<string> {
    set i | 0 <= i < |visited| :: visited[i].info.groupName
  }

  lemma VisitGrows(clusterName: string, role: Role, spec: RoleSpec, visited: seq<Group>, name: string)
    requires IsVisit(clusterName, role, spec, visited)
    requires name in GroupsOf(spec) && name !in NamesOf(visited)
    ensures var more := visited + [Group(Info(clusterName, role, name), GroupsOf(spec)[name].replicas)];
            IsVisit(clusterName, role, spec, more) && NamesOf(more) == NamesOf(visited) + {name}
  {
    var more := visited + [Group(Info(clusterName, role, name), GroupsOf(spec)[name].replicas)];
    assert forall i :: 0 <= i < |visited| ==> visited[i].info.groupName in NamesOf(visited) && more[i] == visited[i];
    assert more[|visited|].info.groupName == name;
    forall n | n in NamesOf(visited) ensures n in NamesOf(more) {
      var i :| 0 <= i < |visited| && visited[i].info.groupName == n;
      assert more[i].info.groupName == n;
    }
  }

  lemma AllResourcesGrows(ctx: Context, visited: seq<Group>, g: Group)
    ensures AllResources(ctx, visited + [g]) == AllResources(ctx, visited) + GroupResources(ctx, g)
  {
    assert (visited + [g])[..|visited|] == visited;
  }

  // ----- what the resources of a group are for -----

  ghost predicate IsStatefulSetFor(r: Resource, ctx: Context, i: Info, replicas: Option<int>) {
    && r.StatefulSetResource? && r.pod.name == i.clusterName + "-" + RoleName(i.role) + "-" + i.groupName
    && r.pod.role == i.role && r.pod.clusterName == i.clusterName && r.pod.clusterConfig == ctx.clusterConfig
    && r.replicas == replicas
    && (r.pod.krb5.Some? <==> IsSecured(ctx))
    && (r.pod.krb5.Some? ==> IsConfigFor(r.pod.krb5.value, ctx, i))
  }

  // The cluster names both a Kerberos and a TLS secret class.
  predicate IsSecured(ctx: Context) {
    var auth := ctx.clusterConfig.authentication;
    auth.Some? && auth.value.kerberosSecretClass != "" && auth.value.tlsSecretClass != ""
  }

  ghost predicate IsConfigFor(c: Kerberos.KerberosConfig, ctx: Context, i: Info)
    requires IsSecured(ctx)
  {
    var auth := ctx.clusterConfig.authentication.value;
    && c.namespace == ctx.namespace && c.clusterName == i.clusterName
    && c.kerberosClass == auth.kerberosSecretClass && c.tlsClass == auth.tlsSecretClass
  }

  ghost predicate IsServiceFor(r: Resource, i: Info) {
    && r.ServiceResource? && r.name == i.clusterName + "-" + RoleName(i.role) + "-" + i.groupName
    && r.ports == Ports(i.role)
  }

  ghost predicate IsConfigMapFor(r: Resource, ctx: Context, i: Info) {
    && r.ConfigMapResource? && r.config.name == i.clusterName + "-" + RoleName(i.role) + "-" + i.groupName
    && r.config.clusterName == i.clusterName && r.config.roleName == RoleName(i.role) && r.config.groupName == i.groupName
    && r.config.vectorConfigMapName == ctx.clusterConfig.vectorAggregatorConfigMapName
    && (r.config.krb5.Some? <==> IsSecured(ctx))
    && (r.config.krb5.Some? ==> IsConfigFor(r.config.krb5.value, ctx, i))
  }

  ghost predicate IsMetricsServiceFor(r: Resource, i: Info) {
    && r.MetricsServiceResource?
    && r.name == i.clusterName + "-" + RoleName(i.role) + "-" + i.groupName + "-metrics"
    && r.port == PortNamed(Ports(i.role), UI_PORT)
  }

  // The resources have one of each kind for the group.
  ghost predicate ServesGroup(rs: seq<Resource>, ctx: Context, i: Info, replicas: Option<int>) {
    && (exists r :: r in rs && IsStatefulSetFor(r, ctx, i, replicas))
    && (exists r :: r in rs && IsServiceFor(r, i))
    && (exists r :: r in rs && IsConfigMapFor(r, ctx, i))
    && (exists r :: r in rs && IsMetricsServiceFor(r, i))
  }

  // The resources have one of each kind for every group of the role's map.
  ghost predicate ServesRole(rs: seq<Resource>, ctx: Context, clusterName: string, role: Role, spec: RoleSpec) {
    forall name :: name in GroupsOf(spec).Keys ==>
      ServesGroup(rs, ctx, Info(clusterName, role, name), GroupsOf(spec)[name].replicas)
  }

  /** The four resources of a group: StatefulSet and ConfigMap run its role with the cluster's settings, the
      Service exposes the pod's ports, and the metrics Service the port of its web interface. */
  lemma GroupIsServed(ctx: Context, g: Group)
    ensures var rs := GroupResources(ctx, g);
            && IsStatefulSetFor(rs[0], ctx, g.info, g.replicas) && IsServiceFor(rs[1], g.info)
            && IsConfigMapFor(rs[2], ctx, g.info) && IsMetricsServiceFor(rs[3], g.info)
  {
    TablesAgree(g.info.role);
  }

  lemma VisitServesGroup(ctx: Context, visited: seq<Group>, k: nat)
    requires k < |visited|
    ensures ServesGroup(AllResources(ctx, visited), ctx, visited[k].info, visited[k].replicas)
  {
    hide AllResources, GroupResources, IsStatefulSetFor, IsServiceFor, IsConfigMapFor, IsMetricsServiceFor;
    var rs := AllResources(ctx, visited);
    GroupIsServed(ctx, visited[k]);
    ResourceAt(ctx, visited, k, 0);
    ResourceAt(ctx, visited, k, 1);
    ResourceAt(ctx, visited, k, 2);
    ResourceAt(ctx, visited, k, 3);
    assert rs[4 * k + 0] in rs && rs[4 * k + 1] in rs && rs[4 * k + 2] in rs && rs[4 * k + 3] in rs;
  }

  lemma FullVisitServesRole(ctx: Context, clusterName: string, role: Role, spec: RoleSpec, visited: seq<Group>)
    requires IsVisit(clusterName, role, spec, visited) && NamesOf(visited) == GroupsOf(spec).Keys
    ensures ServesRole(AllResources(ctx, visited), ctx, clusterName, role, spec)
  {
    forall name | name in GroupsOf(spec).Keys
      ensures ServesGroup(AllResources(ctx, visited), ctx, Info(clusterName, role, name), GroupsOf(spec)[name].replicas)
    {
      assert name in NamesOf(visited);
      var k :| 0 <= k < |visited| && visited[k].info.groupName == name;
      VisitServesGroup(ctx, visited, k);
    }
  }

  lemma MoreServesRole(before: seq<Resource>, rs: seq<Resource>, ctx: Context, clusterName: string, role: Role, spec: RoleSpec)
    requires ServesRole(rs, ctx, clusterName, role, spec)
    ensures ServesRole(before + rs, ctx, clusterName, role, spec)
  {
    hide IsStatefulSetFor, IsServiceFor, IsConfigMapFor, IsMetricsServiceFor;
    forall name | name in GroupsOf(spec).Keys
      ensures ServesGroup(before + rs, ctx, Info(clusterName, role, name), GroupsOf(spec)[name].replicas)
    {
      var (i, replicas) := (Info(clusterName, role, name), GroupsOf(spec)[name].replicas);
      assert ServesGroup(rs, ctx, i, replicas);
      assert forall r :: r in rs ==> r in before + rs;
    }
  }

  class RoleReconciler {
    const clusterName: string
    const role: Role
    const spec: Option<RoleSpec>
    const namespace: string
    const clusterConfig: Option<ClusterConfigSpec>
    var resources: seq<Resource>

    constructor (clusterName: string, role: Role, spec: Option<RoleSpec>, namespace: string,
                 clusterConfig: Option<ClusterConfigSpec>)
      ensures this.clusterName == clusterName && this.role == role && this.spec == spec
      ensures this.namespace == namespace && this.clusterConfig == clusterConfig && resources == []
    {
      this.clusterName, this.role, this.spec := clusterName, role, spec;
      this.namespace, this.clusterConfig := namespace, clusterConfig;
      resources := [];
    }

    /**
     Visits the groups in any order.  Success means that every group merges, and registers exactly the
     four resources of every group, once; a failure leaves the resources of the groups visited before.
     */
    method RegisterResources(o: Outside) returns (outcome: Outcome, ghost visited: seq<Group>)
      modifies this
      ensures spec.None? ==> outcome.Panicked?
      ensures outcome.MergeFailed? ==> spec.Some? && !AllMerge(o, spec.value)
      ensures clusterConfig.Some? && spec.Some? ==>
                outcome == if AllMerge(o, spec.value) then Registered else MergeFailed
      ensures clusterConfig.Some? && spec.Some? ==>
                (outcome.Registered? <==>
                   forall name :: name in GroupsOf(spec.value).Keys ==>
                     var group := GroupsOf(spec.value)[name];
                     o.configMerges(spec.value.config, group.config) && o.overridesMerge(spec.value.overrides, group.overrides))
      ensures clusterConfig.None? && spec.Some? ==>
                (outcome.Registered? <==> GroupsOf(spec.value) == map[]) && resources == old(resources)
      ensures clusterConfig.Some? && spec.Some? ==>
                && IsVisit(clusterName, role, spec.value, visited)
                && resources == old(resources) + AllResources(Context(namespace, clusterConfig.value), visited)
                && (outcome.Registered? ==> NamesOf(visited) == GroupsOf(spec.value).Keys)
                && forall name :: name in NamesOf(visited) ==>
                     name in GroupsOf(spec.value) && Merges(o, spec.value, GroupsOf(spec.value)[name])
      ensures clusterConfig.Some? && outcome.Registered? ==>
                ServesRole(resources, Context(namespace, clusterConfig.value), clusterName, role, spec.value)
    {
      hide IsVisit, AllResources, GroupResources, NamesOf, ServesRole;
      visited := [];
      if spec.None? {
        return Panicked, [];
      }
      var groups := GroupsOf(spec.value);
      var names := groups.Keys;
      VisitStarts(clusterName, role, spec.value);
      while names != {}
        invariant names <= groups.Keys && NamesOf(visited) == groups.Keys - names
        invariant clusterConfig.None? ==> names == groups.Keys && resources == old(resources)
        invariant IsVisit(clusterName, role, spec.value, visited)
        invariant forall name :: name in groups.Keys - names ==> Merges(o, spec.value, groups[name])
        invariant clusterConfig.Some? ==>
                    resources == old(resources) + AllResources(Context(namespace, clusterConfig.value), visited)
        decreases names
      {
        var name :| name in names;
        if !o.configMerges(spec.value.config, groups[name].config) {
          return MergeFailed, visited;
        }
        if !o.overridesMerge(spec.value.overrides, groups[name].overrides) {
          return MergeFailed, visited;
        }
        if clusterConfig.None? {
          return Panicked, visited;
        }
        var ctx := Context(namespace, clusterConfig.value);
        var group := Group(Info(clusterName, role, name), groups[name].replicas);
        AddResources(GroupResources(ctx, group));
        AllResourcesGrows(ctx, visited, group);
        VisitGrows(clusterName, role, spec.value, visited, name);
        visited := visited + [group];
        names := names - {name};
      }
      if clusterConfig.Some? {
        FullVisitServesRole(Context(namespace, clusterConfig.value), clusterName, role, spec.value, visited);
        MoreServesRole(old(resources), AllResources(Context(namespace, clusterConfig.value), visited),
                       Context(namespace, clusterConfig.value), clusterName, role, spec.value);
      }
      return Registered, visited;
    }

    // AddResource for each of a group's reconcilers
    method AddResources(reconcilers: seq<Resource>)
      modifies this
      ensures resources == old(resources) + reconcilers
    {
      for i := 0 to |reconcilers|
        invariant resources == old(resources) + reconcilers[..i]
      {
        resources := resources + [reconcilers[i]];
      }
      assert reconcilers[..|reconcilers|] == reconcilers;
    }
  }

  // The reconciler holds the resources of exactly its role's groups, each group visited once.
  ghost predicate HasAllResources(ctx: Context, r: RoleReconciler)
    reads r
  {
    r.spec.Some? &&
    exists visited ::
      && IsVisit(r.clusterName, r.role, r.spec.value, visited)
      && NamesOf(visited) == GroupsOf(r.spec.value).Keys
      && r.resources == AllResources(ctx, visited)
  }

  lemma VisitStarts(clusterName: string, role: Role, spec: RoleSpec)
    ensures IsVisit(clusterName, role, spec, []) && NamesOf([]) == {}
    ensures forall ctx :: AllResources(ctx, []) == []
  {
  }

  // ----- the order of the groups does not matter -----

  ghost predicate NoneTwice(groups: seq<Group>) {
    forall i, j :: 0 <= i < j < |groups| ==> groups[i].info != groups[j].info
  }

  lemma {:induction false} AllResourcesAppends(ctx: Context, a: seq<Group>, b: seq<Group>)
    ensures AllResources(ctx, a + b) == AllResources(ctx, a) + AllResources(ctx, b)
  {
    hide GroupResources;
    if b == [] {
      assert a + b == a;
    } else {
      var n := |b| - 1;
      AllResourcesAppends(ctx, a, b[..n]);
      assert (a + b)[..|a + b| - 1] == a + b[..n];
      AllResourcesGrows(ctx, a + b[..n], b[n]);
      assert a + b == a + b[..n] + [b[n]];
    }
  }

  lemma TakeOut(ctx: Context, before: seq<Group>, g: Group, after: seq<Group>)
    ensures multiset(AllResources(ctx, before + [g] + after)) ==
            multiset(AllResources(ctx, before + after)) + multiset(GroupResources(ctx, g))
  {
    hide GroupResources, AllResources;
    AllResourcesAppends(ctx, before + [g], after);
    AllResourcesGrows(ctx, before, g);
    AllResourcesAppends(ctx, before, after);
  }

  /** Two visits of the same groups register the same resources, each as often. */
  lemma {:induction false} OrderDoesNotMatter(ctx: Context, a: seq<Group>, b: seq<Group>)
    requires multiset(a) == multiset(b)
    ensures multiset(AllResources(ctx, a)) == multiset(AllResources(ctx, b))
  {
    if a == [] {
      assert |multiset(a)| == |multiset(b)|;
      assert b == [];
    } else {
      hide AllResources, GroupResources;
      var n := |a| - 1;
      assert a[n] in multiset(b);
      var i :| 0 <= i < |b| && b[i] == a[n];
      var (before, after) := (b[..i], b[i + 1..]);
      assert a == a[..n] + [a[n]];
      assert b == before + [a[n]] + after;
      assert multiset(a[..n]) == multiset(a) - multiset{a[n]};
      assert multiset(before + after) == multiset(b) - multiset{a[n]};
      OrderDoesNotMatter(ctx, a[..n], before + after);
      AllResourcesGrows(ctx, a[..n], a[n]);
      TakeOut(ctx, before, a[n], after);
    }
  }

  lemma VisitsAgree(clusterName: string, role: Role, spec: RoleSpec, a: seq<Group>, b: seq<Group>)
    requires IsVisit(clusterName, role, spec, a) && IsVisit(clusterName, role, spec, b)
    requires NamesOf(a) == NamesOf(b)
    ensures multiset(a) == multiset(b)
  {
    forall g ensures multiset(a)[g] == multiset(b)[g] {
      AtMostOnce(clusterName, role, spec, a, g);
      AtMostOnce(clusterName, role, spec, b, g);
    }
  }

  lemma AtMostOnce(clusterName: string, role: Role, spec: RoleSpec, v: seq<Group>, g: Group)
    requires IsVisit(clusterName, role, spec, v)
    ensures var name := g.info.groupName;
            multiset(v)[g] ==
            if name in NamesOf(v) && name in GroupsOf(spec)
               && g == Group(Info(clusterName, role, name), GroupsOf(spec)[name].replicas) then 1 else 0
  {
    if g in v {
      var i :| 0 <= i < |v| && v[i] == g;
      assert v == v[..i] + [g] + v[i + 1..];
      assert g !in v[..i] && g !in v[i + 1..];
      assert multiset(v) == multiset(v[..i]) + multiset{g} + multiset(v[i + 1..]);
      assert v[i].info.groupName in NamesOf(v);
    } else {
      assert multiset(v)[g] == 0;
    }
  }

  /** Whatever order the map of role groups is walked in, a successful registration has the same outcome. */
  lemma RegistrationIsDetermined(ctx: Context, clusterName: string, role: Role, spec: RoleSpec,
                                 a: seq<Group>, b: seq<Group>)
    requires IsVisit(clusterName, role, spec, a) && NamesOf(a) == GroupsOf(spec).Keys
    requires IsVisit(clusterName, role, spec, b) && NamesOf(b) == GroupsOf(spec).Keys
    ensures multiset(AllResources(ctx, a)) == multiset(AllResources(ctx, b))
    ensures |AllResources(ctx, a)| == 4 * |GroupsOf(spec)|
  {
    VisitsAgree(clusterName, role, spec, a, b);
    OrderDoesNotMatter(ctx, a, b);
    VisitCount(clusterName, role, spec, a);
  }

  lemma {:induction false} VisitCount(clusterName: string, role: Role, spec: RoleSpec, v: seq<Group>)
    requires IsVisit(clusterName, role, spec, v)
    ensures |NamesOf(v)| == |v|
  {
    if v != [] {
      var n := |v| - 1;
      VisitCount(clusterName, role, spec, v[..n]);
      var name := v[n].info.groupName;
      assert v == v[..n] + [v[n]];
      VisitGrows(clusterName, role, spec, v[..n], name);
    }
  }

  // ----- names -----

  lemma RoleNamesDiffer(a: Role, b: Role)
    requires a != b
    ensures |RoleName(a)| > 2 && |RoleName(b)| > 2 && RoleName(a)[..3] != RoleName(b)[..3]
  {
    assert "master"[0] == 'm' && "regionserver"[0] == 'r' && "restserver"[0] == 'r';
    assert "regionserver"[2] == 'g' && "restserver"[2] == 's';
    assert RoleName(a)[..3][0] == RoleName(a)[0] && RoleName(a)[..3][2] == RoleName(a)[2];
    assert RoleName(b)[..3][0] == RoleName(b)[0] && RoleName(b)[..3][2] == RoleName(b)[2];
  }

  lemma RoleTextsDiffer(a: Role, b: Role, x: string, y: string)
    requires a != b
    ensures RoleName(a) + "-" + x != RoleName(b) + "-" + y
  {
    RoleNamesDiffer(a, b);
    assert (RoleName(a) + "-" + x)[..3] == RoleName(a)[..3];
    assert (RoleName(b) + "-" + y)[..3] == RoleName(b)[..3];
  }

  lemma SamePrefix(prefix: string, s: string, t: string)
    requires prefix + s == prefix + t
    ensures s == t
  {
    assert (prefix + s)[|prefix|..] == s && (prefix + t)[|prefix|..] == t;
  }

  /** In one cluster, a full name tells role and group apart. */
  lemma FullNameIdentifies(a: Info, b: Info)
    requires a.clusterName == b.clusterName
    ensures FullName(a) == FullName(b) <==> a == b
  {
    if FullName(a) == FullName(b) {
      var (s, t) := (RoleName(a.role) + "-" + a.groupName, RoleName(b.role) + "-" + b.groupName);
      assert FullName(a) == a.clusterName + "-" + s && FullName(b) == a.clusterName + "-" + t;
      SamePrefix(a.clusterName + "-", s, t);
      if a.role != b.role {
        RoleTextsDiffer(a.role, b.role, a.groupName, b.groupName);
      } else {
        SamePrefix(RoleName(a.role) + "-", a.groupName, b.groupName);
      }
    }
  }

  // The group whose plain Service would have the name of this group's metrics Service.
  function Shadow(i: Info): Info {
    i.(groupName := i.groupName + METRICS_SUFFIX)
  }

  lemma MetricsNameIsShadow(i: Info)
    ensures MetricsName(i) == FullName(Shadow(i))
  {
    var head := i.clusterName + "-" + RoleName(i.role) + "-";
    assert head + i.groupName + METRICS_SUFFIX == head + (i.groupName + METRICS_SUFFIX);
  }

  lemma MetricsNameIdentifies(a: Info, b: Info)
    requires a.clusterName == b.clusterName
    ensures MetricsName(a) == MetricsName(b) <==> a == b
    ensures FullName(a) == MetricsName(b) <==> a == Shadow(b)
  {
    MetricsNameIsShadow(a);
    MetricsNameIsShadow(b);
    FullNameIdentifies(Shadow(a), Shadow(b));
    FullNameIdentifies(a, Shadow(b));
    if Shadow(a) == Shadow(b) {
      assert (a.groupName + METRICS_SUFFIX)[..|a.groupName|] == a.groupName;
      assert (b.groupName + METRICS_SUFFIX)[..|b.groupName|] == b.groupName;
    }
  }

  lemma GroupIds(ctx: Context, g: Group)
    ensures var rs := GroupResources(ctx, g);
            && IdOf(rs[0]) == Id(StatefulSet, FullName(g.info)) && IdOf(rs[1]) == Id(Service, FullName(g.info))
            && IdOf(rs[2]) == Id(ConfigMap, FullName(g.info)) && IdOf(rs[3]) == Id(Service, MetricsName(g.info))
  {
  }

  // Two resources of two groups have the same kind and name only in these two ways.
  lemma ClashExactly(ctx: Context, g: Group, k: nat, h: Group, m: nat)
    requires k < 4 && m < 4 && g.info.clusterName == h.info.clusterName
    ensures IdOf(GroupResources(ctx, g)[k]) == IdOf(GroupResources(ctx, h)[m]) <==>
            (k == m && g.info == h.info)
            || (k == 1 && m == 3 && g.info == Shadow(h.info))
            || (k == 3 && m == 1 && h.info == Shadow(g.info))
  {
    hide GroupResources, FullName, MetricsName;
    GroupIds(ctx, g);
    GroupIds(ctx, h);
    FullNameIdentifies(g.info, h.info);
    MetricsNameIdentifies(g.info, h.info);
    MetricsNameIdentifies(h.info, g.info);
  }

  lemma {:induction false} ResourceAt(ctx: Context, groups: seq<Group>, i: nat, k: nat)
    requires i < |groups| && k < 4
    ensures AllResources(ctx, groups)[4 * i + k] == GroupResources(ctx, groups[i])[k]
  {
    hide GroupResources;
    if i < |groups| - 1 { ResourceAt(ctx, groups[..|groups| - 1], i, k); }
  }

  ghost predicate AllIdsDiffer(rs: seq<Resource>) {
    forall x, y :: 0 <= x < y < |rs| ==> IdOf(rs[x]) != IdOf(rs[y])
  }

  // Some role has both the groups g and g-metrics.
  ghost predicate HasShadow(groups: seq<Group>) {
    exists i, j :: 0 <= i < |groups| && 0 <= j < |groups| && groups[i].info == Shadow(groups[j].info)
  }

  /**
   In one cluster, the registered resources have pairwise different kinds and names exactly when no role
   has two groups g and g-metrics.
   */
  lemma NamesAreDistinctExactly(ctx: Context, clusterName: string, groups: seq<Group>)
    requires forall i :: 0 <= i < |groups| ==> groups[i].info.clusterName == clusterName
    requires NoneTwice(groups)
    ensures AllIdsDiffer(AllResources(ctx, groups)) <==> !HasShadow(groups)
  {
    hide AllResources, GroupResources;
    var rs := AllResources(ctx, groups);
    if HasShadow(groups) {
      var i, j :| 0 <= i < |groups| && 0 <= j < |groups| && groups[i].info == Shadow(groups[j].info);
      ResourceAt(ctx, groups, i, 1);
      ResourceAt(ctx, groups, j, 3);
      ClashExactly(ctx, groups[i], 1, groups[j], 3);
      assert IdOf(rs[4 * i + 1]) == IdOf(rs[4 * j + 3]);
    } else {
      forall x, y | 0 <= x < y < |rs| ensures IdOf(rs[x]) != IdOf(rs[y]) {
        var (i, k, j, m) := (x / 4, x % 4, y / 4, y % 4);
        ResourceAt(ctx, groups, i, k);
        ResourceAt(ctx, groups, j, m);
        ClashExactly(ctx, groups[i], k, groups[j], m);
      }
    }
  }

  /** Resources of different roles of one cluster never have the same kind and name. */
  lemma RolesNeverClash(ctx: Context, g: Group, h: Group)
    requires g.info.clusterName == h.info.clusterName && g.info.role != h.info.role
    ensures forall k, m :: 0 <= k < 4 && 0 <= m < 4 ==>
              IdOf(GroupResources(ctx, g)[k]) != IdOf(GroupResources(ctx, h)[m])
  {
    forall k, m | 0 <= k < 4 && 0 <= m < 4
      ensures IdOf(GroupResources(ctx, g)[k]) != IdOf(GroupResources(ctx, h)[m])
    {
      ClashExactly(ctx, g, k, h, m);
    }
  }
}
