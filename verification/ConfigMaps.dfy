/** The ConfigMap of one role group: how its data is built, step by step, and when it is applied. */
module ConfigMaps {
  import opened Options
  import opened Kerberos
  import opened Texts
  import Znodes

  // XML files are kept as their properties; rendering them is not part of this model.
  datatype Content = Xml(properties: map<string, string>) | Text(text: string)

  type Data = map<string, Content>

  const HBASE_KEY := "hbase-site.xml"
  const ENV_KEY := "hbase-env.sh"
  const LOG_KEY := "log4j.properties"
  const SSL_CLIENT_KEY := "ssl-client.xml"
  const SSL_SERVER_KEY := "ssl-server.xml"
  const VECTOR_KEY := "vector.yaml"

  lemma KeysAreDistinct()
    ensures HBASE_KEY != ENV_KEY && HBASE_KEY != LOG_KEY && HBASE_KEY != SSL_CLIENT_KEY
    ensures HBASE_KEY != SSL_SERVER_KEY && HBASE_KEY != VECTOR_KEY && ENV_KEY != LOG_KEY
    ensures SSL_CLIENT_KEY != SSL_SERVER_KEY && SSL_CLIENT_KEY != VECTOR_KEY && SSL_SERVER_KEY != VECTOR_KEY
    ensures ENV_KEY != VECTOR_KEY && LOG_KEY != VECTOR_KEY
    ensures SSL_CLIENT_KEY != ENV_KEY && SSL_CLIENT_KEY != LOG_KEY && SSL_SERVER_KEY != ENV_KEY && SSL_SERVER_KEY != LOG_KEY
  {
    assert |HBASE_KEY| == 14 && |ENV_KEY| == 12 && |LOG_KEY| == 16 && |VECTOR_KEY| == 11;
    assert |SSL_CLIENT_KEY| == 14 && |SSL_SERVER_KEY| == 14;
    assert ENV_KEY != VECTOR_KEY && LOG_KEY != VECTOR_KEY;
    assert HBASE_KEY[0] == 'h' && SSL_CLIENT_KEY[4] == 'c' && SSL_SERVER_KEY[4] == 's' && SSL_CLIENT_KEY[0] == 's';
    assert SSL_SERVER_KEY[0] == 's';
  }

  // What the ConfigMap of a role group is built from.
  datatype Settings = Settings(
    name: string, clusterName: string, roleName: string, groupName: string,
    krb5: Option<KerberosConfig>, vectorConfigMapName: string)

  // The outcomes of what is outside this model: marshalling, the log and Vector generators, Build.
  datatype Outside = Outside(
    marshals: map<string, string> -> bool, logProperties: Option<string>, vectorYaml: Option<string>, builds: bool)

  // One step of building: it adds an entry, has nothing to add, or fails.
  datatype Step = Insert(key: string, content: Content) | Nothing | Fail

  function InsertXml(out: Outside, key: string, properties: map<string, string>): Step {
    if out.marshals(properties) then Insert(key, Xml(properties)) else Fail
  }

  const QUORUM_PROPERTY := "hbase.zookeeper.quorum"
  const PARENT_PROPERTY := "zookeeper.znode.parent"
  const PORT_PROPERTY := "hbase.zookeeper.property.clientPort"

  // The properties that every site has.
  function BaseSite(quorum: string, chroot: string, port: string): map<string, string> {
    map[
      QUORUM_PROPERTY := quorum,
      PARENT_PROPERTY := chroot + "/hbase",
      PORT_PROPERTY := port,
      "hbase.cluster.distributed" := "true",
      "hbase.rootdir" := "/hbase",
      "hbase.unsafe.regionserver.hostname.disable.master.reversedns" := "true"]
  }

  function SiteProperties(s: Settings, quorum: string, chroot: string, port: string): map<string, string> {
    BaseSite(quorum, chroot, port) + if s.krb5.Some? then HbaseSite(s.krb5.value) else map[]
  }

  // The three values a znode ConfigMap must carry.
  datatype Address = Address(quorum: Option<string>, chroot: Option<string>, port: Option<string>)

  predicate IsComplete(a: Address) {
    a.quorum.Some? && a.chroot.Some? && a.port.Some?
  }

  function SiteStep(s: Settings, out: Outside, a: Address): Step {
    if IsComplete(a) then InsertXml(out, HBASE_KEY, SiteProperties(s, a.quorum.value, a.chroot.value, a.port.value))
    else Fail
  }

  function JvmOptions(s: Settings): string {
    if s.krb5.Some? then "-Djava.security.krb5.conf=" + KRB5_CONFIG_FILE else ""
  }

  function OptionsLine(roleName: string, options: string): string {
    "export HBASE_" + roleName + "_OPTS=\"$HBASE_OPTS " + options + "\""
  }

  const UNMANAGED := "export HBASE_MANAGES_ZK=false"

  function EnvText(s: Settings): string {
    "\n" + UNMANAGED + "\n" + OptionsLine(s.roleName, JvmOptions(s)) + "\n\n"
  }

  function EnvStep(s: Settings): Step {
    Insert(ENV_KEY, Text(EnvText(s)))
  }

  function LogStep(out: Outside): Step {
    if out.logProperties.Some? then Insert(LOG_KEY, Text(out.logProperties.value)) else Fail
  }

  function SslClientStep(s: Settings, out: Outside): Step {
    if s.krb5.Some? then InsertXml(out, SSL_CLIENT_KEY, SslClient()) else Nothing
  }

  function SslServerStep(s: Settings, out: Outside): Step {
    if s.krb5.Some? then InsertXml(out, SSL_SERVER_KEY, SslServer()) else Nothing
  }

  function VectorStep(s: Settings, out: Outside): Step {
    if s.vectorConfigMapName == "" then Nothing
    else if out.vectorYaml.Some? then Insert(VECTOR_KEY, Text(out.vectorYaml.value))
    else Fail
  }

  function Steps(s: Settings, out: Outside, a: Address): seq<Step> {
    [SiteStep(s, out, a), EnvStep(s), LogStep(out), SslClientStep(s, out), SslServerStep(s, out), VectorStep(s, out)]
  }

  function Apply(d: Data, step: Step): Data {
    if step.Insert? then d[step.key := step.content] else d
  }

  // The steps from the i-th on, up to the first that fails.
  function RunFrom(d: Data, steps: seq<Step>, i: nat): Data
    requires i <= |steps|
    decreases |steps| - i
  {
    if i == |steps| || steps[i].Fail? then d else RunFrom(Apply(d, steps[i]), steps, i + 1)
  }

  predicate AllSucceed(steps: seq<Step>) {
    forall i :: 0 <= i < |steps| ==> !steps[i].Fail?
  }

  lemma RunOne(start: Data, d: Data, steps: seq<Step>, i: nat)
    requires i < |steps| && RunFrom(start, steps, 0) == RunFrom(d, steps, i)
    ensures steps[i].Fail? ==> RunFrom(start, steps, 0) == d && !AllSucceed(steps)
    ensures !steps[i].Fail? ==> RunFrom(start, steps, 0) == RunFrom(Apply(d, steps[i]), steps, i + 1)
  {
  }

  class ConfigMapBuilder {
    const settings: Settings
    var data: Data

    constructor (s: Settings)
      ensures settings == s && data == map[]
    {
      settings := s;
      data := map[];
    }

    // AddData and AddItem of the embedded builder
    method Add(step: Step) returns (ok: bool)
      modifies this
      ensures data == Apply(old(data), step) && ok == !step.Fail?
    {
      if step.Insert? {
        data := data[step.key := step.content];
      }
      return !step.Fail?;
    }

    method AddHbaseSite(out: Outside, znode: Znodes.ZnodeConfiguration) returns (ok: bool)
      modifies this
      ensures var step := SiteStep(settings, out, Address(znode.GetQuorum(), znode.GetChroot(), znode.GetClientPort()));
              data == Apply(old(data), step) && ok == !step.Fail?
    {
      var quorum := znode.GetQuorum();
      if quorum.None? {
        return false;
      }
      var chroot := znode.GetChroot();
      if chroot.None? {
        return false;
      }
      var port := znode.GetClientPort();
      if port.None? {
        return false;
      }
      ok := Add(InsertXml(out, HBASE_KEY, SiteProperties(settings, quorum.value, chroot.value, port.value)));
    }

    // Every step in order, stopping at the first that fails.
    method AddAll(out: Outside, znode: Znodes.ZnodeConfiguration) returns (ok: bool)
      modifies this
      ensures var steps := Steps(settings, out, Address(znode.GetQuorum(), znode.GetChroot(), znode.GetClientPort()));
              data == RunFrom(old(data), steps, 0) && ok == AllSucceed(steps)
      ensures var a := Address(znode.GetQuorum(), znode.GetChroot(), znode.GetClientPort());
              ok ==> IsComplete(a) && IsBuilt(data, old(data), settings, out, a)
    {
      hide RunFrom, SiteStep, EnvStep, LogStep, SslClientStep, SslServerStep, VectorStep, IsBuilt;
      ghost var address := Address(znode.GetQuorum(), znode.GetChroot(), znode.GetClientPort());
      ghost var steps := Steps(settings, out, address);
      RunOne(old(data), data, steps, 0);
      ok := AddHbaseSite(out, znode);
      if !ok {
        return false;
      }
      RunOne(old(data), data, steps, 1);
      ok := Add(EnvStep(settings));
      if !ok {
        return false;
      }
      RunOne(old(data), data, steps, 2);
      ok := Add(LogStep(out));
      if !ok {
        return false;
      }
      RunOne(old(data), data, steps, 3);
      ok := Add(SslClientStep(settings, out));
      if !ok {
        return false;
      }
      RunOne(old(data), data, steps, 4);
      ok := Add(SslServerStep(settings, out));
      if !ok {
        return false;
      }
      RunOne(old(data), data, steps, 5);
      ok := Add(VectorStep(settings, out));
      if !ok {
        return false;
      }
      RunsOut(data, steps);
      BuiltOver(old(data), settings, out, address);
      return true;
    }

    /**
     Fetches the znode ConfigMap (nil if that fails) and runs the steps.  The data is applied if and
     only if every step and Build succeeded.
     */
    method Reconcile(out: Outside, znode: Znodes.ZnodeConfiguration?) returns (applied: Option<Data>)
      modifies this
      ensures znode == null ==> data == old(data) && applied == None
      ensures znode != null ==>
                var steps := Steps(settings, out, Address(znode.GetQuorum(), znode.GetChroot(), znode.GetClientPort()));
                && data == RunFrom(old(data), steps, 0)
                && applied == if AllSucceed(steps) && out.builds then Some(data) else None
      ensures applied.Some? ==>
                && znode != null && znode.data.Some?
                && var entries := znode.data.value;
                   && "ZOOKEEPER_HOSTS" in entries && "ZOOKEEPER_CHROOT" in entries && "ZOOKEEPER_PORT" in entries
                   && IsBuilt(applied.value, old(data), settings, out,
                              Address(Some(entries["ZOOKEEPER_HOSTS"]), Some(entries["ZOOKEEPER_CHROOT"]),
                                      Some(entries["ZOOKEEPER_PORT"])))
    {
      hide Steps, RunFrom, IsBuilt;
      if znode == null {
        return None;
      }
      var ok := AddAll(out, znode);
      if !ok || !out.builds {
        return None;
      }
      return Some(data);
    }
  }

  lemma RunsOut(d: Data, steps: seq<Step>)
    ensures RunFrom(d, steps, |steps|) == d
  {
  }

  // ----- idempotence and failure -----

  // Everything the steps from the i-th on insert, up to the first that fails.
  function Overlay(steps: seq<Step>, i: nat): Data
    requires i <= |steps|
    decreases |steps| - i
  {
    if i == |steps| || steps[i].Fail? then map[] else Apply(map[], steps[i]) + Overlay(steps, i + 1)
  }

  lemma ApplyIsOverlay(d: Data, step: Step, rest: Data)
    ensures Apply(d, step) + rest == d + (Apply(map[], step) + rest)
  {
  }

  lemma {:induction false} RunIsOverlay(d: Data, steps: seq<Step>, i: nat)
    requires i <= |steps|
    ensures RunFrom(d, steps, i) == d + Overlay(steps, i)
    decreases |steps| - i
  {
    hide Apply;
    if i < |steps| && !steps[i].Fail? {
      RunIsOverlay(Apply(d, steps[i]), steps, i + 1);
      ApplyIsOverlay(d, steps[i], Overlay(steps, i + 1));
    }
  }

  /** Running the same steps again changes nothing, whether they all succeed or one of them fails. */
  lemma RunningTwiceIsRunningOnce(d: Data, steps: seq<Step>)
    ensures RunFrom(RunFrom(d, steps, 0), steps, 0) == RunFrom(d, steps, 0)
  {
    RunIsOverlay(d, steps, 0);
    RunIsOverlay(RunFrom(d, steps, 0), steps, 0);
  }

  /** A znode ConfigMap without one of the three values leaves all data as it was. */
  lemma IncompleteAddressChangesNothing(d: Data, s: Settings, out: Outside, a: Address)
    requires !IsComplete(a)
    ensures RunFrom(d, Steps(s, out, a), 0) == d && !AllSucceed(Steps(s, out, a))
  {
    assert Steps(s, out, a)[0].Fail?;
  }

  ghost predicate IsOwnKey(key: string) {
    key == HBASE_KEY || key == ENV_KEY || key == LOG_KEY || key == SSL_CLIENT_KEY || key == SSL_SERVER_KEY
    || key == VECTOR_KEY
  }

  lemma {:induction false} OverlayKeys(steps: seq<Step>, i: nat)
    requires i <= |steps|
    requires forall j :: 0 <= j < |steps| && steps[j].Insert? ==> IsOwnKey(steps[j].key)
    ensures forall key :: key in Overlay(steps, i) ==> IsOwnKey(key)
    decreases |steps| - i
  {
    if i < |steps| && !steps[i].Fail? { OverlayKeys(steps, i + 1); }
  }

  /** No other entry is ever touched. */
  lemma OtherKeysAreKept(d: Data, s: Settings, out: Outside, a: Address, key: string)
    requires !IsOwnKey(key)
    ensures var after := RunFrom(d, Steps(s, out, a), 0);
            (key in after <==> key in d) && (key in d ==> after[key] == d[key])
  {
    hide SiteProperties, SslClient, SslServer;
    RunIsOverlay(d, Steps(s, out, a), 0);
    OverlayKeys(Steps(s, out, a), 0);
  }

  // ----- what a successful build holds -----

  lemma {:induction false} InsertedIsKept(steps: seq<Step>, i: nat, j: nat)
    requires i <= j < |steps| && steps[j].Insert?
    requires forall k :: i <= k < |steps| ==> !steps[k].Fail?
    requires forall k :: j < k < |steps| && steps[k].Insert? ==> steps[k].key != steps[j].key
    ensures steps[j].key in Overlay(steps, i) && Overlay(steps, i)[steps[j].key] == steps[j].content
    decreases |steps| - i
  {
    if i < j {
      InsertedIsKept(steps, i + 1, j);
    } else {
      NotInserted(steps, j + 1, steps[j].key);
    }
  }

  lemma {:induction false} NotInserted(steps: seq<Step>, i: nat, key: string)
    requires i <= |steps|
    requires forall k :: i <= k < |steps| && steps[k].Insert? ==> steps[k].key != key
    ensures key !in Overlay(steps, i)
    decreases |steps| - i
  {
    if i < |steps| && !steps[i].Fail? { NotInserted(steps, i + 1, key); }
  }

  /** With Kerberos on, every Kerberos property is in the site with its own value; with it off, none is,
      for no cluster's configuration. */
  lemma KerberosIsAllOrNothing(quorum: string, chroot: string, port: string, s: Settings)
    ensures s.krb5.Some? ==> Includes(SiteProperties(s, quorum, chroot, port), HbaseSite(s.krb5.value))
    ensures s.krb5.None? ==>
              forall c, key :: key in HbaseSite(c) ==> key !in SiteProperties(s, quorum, chroot, port)
  {
    hide HbaseSite, NoBaseKey, BaseSite;
    if s.krb5.None? {
      forall c: KerberosConfig, key | key in HbaseSite(c) ensures key !in SiteProperties(s, quorum, chroot, port) {
        KerberosKeys(c);
        BaseKeys(quorum, chroot, port);
      }
    }
  }

  lemma BaseKeys(quorum: string, chroot: string, port: string)
    ensures forall key :: key in BaseSite(quorum, chroot, port) ==> !NoBaseKey(key)
  {
    hide NoBaseKey;
    NoOtherBaseKey();
  }

  lemma NoOtherBaseKey()
    ensures !NoBaseKey(QUORUM_PROPERTY) && !NoBaseKey(PARENT_PROPERTY) && !NoBaseKey(PORT_PROPERTY)
    ensures !NoBaseKey("hbase.cluster.distributed") && !NoBaseKey("hbase.rootdir")
    ensures !NoBaseKey("hbase.unsafe.regionserver.hostname.disable.master.reversedns")
  {
    assert QUORUM_PROPERTY[6] == 'z' && PARENT_PROPERTY[0] == 'z' && PORT_PROPERTY[6] == 'z';
    assert |"hbase.cluster.distributed"| == 25 && |"hbase.rootdir"| == 13;
    assert |"hbase.unsafe.regionserver.hostname.disable.master.reversedns"| == 60;
  }

  lemma KerberosKeys(c: KerberosConfig)
    ensures forall key :: key in HbaseSite(c) ==> NoBaseKey(key)
  {
    hide NoBaseKey, SecuritySite, KeytabSite, SslSite, PrincipalSite;
    SecurityKeys();
    KeytabKeys();
    SslKeys();
    PrincipalKeysFacts(c);
  }

  // Tells the properties that every site has from all Kerberos properties.
  predicate NoBaseKey(key: string) {
    13 < |key| < 60 && |key| != 25 && key[0] != 'z' && key[6] != 'z'
  }

  lemma SecurityKeys()
    ensures forall key :: key in SecuritySite() ==> NoBaseKey(key)
  {
  }

  lemma KeytabKeys()
    ensures forall key :: key in KeytabSite() ==> NoBaseKey(key)
  {
  }

  lemma SslKeys()
    ensures forall key :: key in SslSite() ==> NoBaseKey(key)
  {
  }

  lemma PrincipalKeysFacts(c: KerberosConfig)
    ensures forall key :: key in PrincipalSite(c) ==> NoBaseKey(key)
  {
    hide Principal;
    assert |MASTER_PRINCIPAL| == 31 && MASTER_PRINCIPAL[0] == 'h' && MASTER_PRINCIPAL[6] == 'm';
    assert |REGIONSERVER_PRINCIPAL| == 37 && REGIONSERVER_PRINCIPAL[0] == 'h' && REGIONSERVER_PRINCIPAL[6] == 'r';
    assert |REST_PRINCIPAL| == 29 && REST_PRINCIPAL[0] == 'h' && REST_PRINCIPAL[6] == 'r';
    assert |REST_LOGIN_PRINCIPAL| == 44 && REST_LOGIN_PRINCIPAL[0] == 'h' && REST_LOGIN_PRINCIPAL[6] == 'r';
  }

  lemma BaseIsKept(s: Settings, quorum: string, chroot: string, port: string)
    ensures Includes(SiteProperties(s, quorum, chroot, port), BaseSite(quorum, chroot, port))
  {
    hide HbaseSite, NoBaseKey, BaseSite;
    BaseKeys(quorum, chroot, port);
    if s.krb5.Some? { KerberosKeys(s.krb5.value); }
  }

  lemma BaseAddress(quorum: string, chroot: string, port: string)
    ensures var p := BaseSite(quorum, chroot, port);
            && Has(p, "hbase.zookeeper.quorum", quorum) && Has(p, "zookeeper.znode.parent", chroot + "/hbase")
            && Has(p, "hbase.zookeeper.property.clientPort", port)
            && Has(p, "hbase.cluster.distributed", "true") && Has(p, "hbase.rootdir", "/hbase")
            && Has(p, "hbase.unsafe.regionserver.hostname.disable.master.reversedns", "true")
  {
    assert |QUORUM_PROPERTY| == 22 && |PARENT_PROPERTY| == 22 && |PORT_PROPERTY| == 35 && QUORUM_PROPERTY[0] == 'h';
    assert |"hbase.cluster.distributed"| == 25 && |"hbase.rootdir"| == 13 && PARENT_PROPERTY[0] == 'z';
    assert |"hbase.unsafe.regionserver.hostname.disable.master.reversedns"| == 60;
  }

  /** The Kerberos properties never displace the address of the znode. */
  lemma AddressIsKept(s: Settings, quorum: string, chroot: string, port: string)
    ensures var p := SiteProperties(s, quorum, chroot, port);
            && Has(p, "hbase.zookeeper.quorum", quorum) && Has(p, "zookeeper.znode.parent", chroot + "/hbase")
            && Has(p, "hbase.zookeeper.property.clientPort", port)
  {
    hide SiteProperties, BaseSite;
    BaseIsKept(s, quorum, chroot, port);
    BaseAddress(quorum, chroot, port);
  }

  // The form of six steps that all succeed.
  ghost predicate HasShape(steps: seq<Step>, secure: bool, vector: bool) {
    && |steps| == 6
    && steps[0].Insert? && steps[0].key == HBASE_KEY
    && steps[1].Insert? && steps[1].key == ENV_KEY
    && steps[2].Insert? && steps[2].key == LOG_KEY
    && (if secure then steps[3].Insert? && steps[3].key == SSL_CLIENT_KEY else steps[3].Nothing?)
    && (if secure then steps[4].Insert? && steps[4].key == SSL_SERVER_KEY else steps[4].Nothing?)
    && (if vector then steps[5].Insert? && steps[5].key == VECTOR_KEY else steps[5].Nothing?)
  }

  lemma StepsHaveShape(s: Settings, out: Outside, a: Address)
    requires AllSucceed(Steps(s, out, a))
    ensures HasShape(Steps(s, out, a), s.krb5.Some?, s.vectorConfigMapName != "")
    ensures IsComplete(a)
    ensures Steps(s, out, a)[0].content == Xml(SiteProperties(s, a.quorum.value, a.chroot.value, a.port.value))
    ensures Steps(s, out, a)[1] == EnvStep(s)
    ensures out.logProperties.Some? && Steps(s, out, a)[2].content == Text(out.logProperties.value)
    ensures s.krb5.Some? ==>
              Steps(s, out, a)[3].content == Xml(SslClient()) && Steps(s, out, a)[4].content == Xml(SslServer())
    ensures s.vectorConfigMapName != "" ==>
              out.vectorYaml.Some? && Steps(s, out, a)[5].content == Text(out.vectorYaml.value)
  {
    hide SiteProperties, JvmOptions, SslClient, SslServer;
    var steps := Steps(s, out, a);
    assert !steps[0].Fail? && !steps[2].Fail? && !steps[3].Fail? && !steps[4].Fail? && !steps[5].Fail?;
  }

  /** When building succeeds: the address is complete, every generator needed delivers, and every XML file
      needed can be rendered. */
  lemma SucceedsExactly(s: Settings, out: Outside, a: Address)
    ensures AllSucceed(Steps(s, out, a)) <==>
            && IsComplete(a)
            && out.marshals(SiteProperties(s, a.quorum.value, a.chroot.value, a.port.value))
            && out.logProperties.Some?
            && (s.krb5.Some? ==> out.marshals(SslClient()) && out.marshals(SslServer()))
            && (s.vectorConfigMapName != "" ==> out.vectorYaml.Some?)
  {
    hide SiteProperties, JvmOptions, SslClient, SslServer;
    var steps := Steps(s, out, a);
    assert AllSucceed(steps) <==>
           !steps[0].Fail? && !steps[1].Fail? && !steps[2].Fail? && !steps[3].Fail? && !steps[4].Fail? && !steps[5].Fail?;
  }

  ghost predicate HasEntry(d: Data, step: Step) {
    step.Insert? && step.key in d && d[step.key] == step.content
  }

  lemma ShapedBase(steps: seq<Step>, secure: bool, vector: bool)
    requires HasShape(steps, secure, vector)
    ensures HasEntry(Overlay(steps, 0), steps[0]) && HasEntry(Overlay(steps, 0), steps[1])
    ensures HasEntry(Overlay(steps, 0), steps[2])
  {
    hide Overlay;
    KeysAreDistinct();
    InsertedIsKept(steps, 0, 0);
    InsertedIsKept(steps, 0, 1);
    InsertedIsKept(steps, 0, 2);
  }

  lemma ShapedVector(steps: seq<Step>, secure: bool, vector: bool)
    requires HasShape(steps, secure, vector)
    ensures if vector then HasEntry(Overlay(steps, 0), steps[5]) else VECTOR_KEY !in Overlay(steps, 0)
  {
    hide Overlay;
    KeysAreDistinct();
    if vector { InsertedIsKept(steps, 0, 5); } else { NotInserted(steps, 0, VECTOR_KEY); }
  }

  lemma ShapedSsl(steps: seq<Step>, vector: bool)
    requires HasShape(steps, true, vector)
    ensures HasEntry(Overlay(steps, 0), steps[3]) && HasEntry(Overlay(steps, 0), steps[4])
  {
    hide Overlay;
    KeysAreDistinct();
    InsertedIsKept(steps, 0, 3);
    InsertedIsKept(steps, 0, 4);
  }

  lemma ShapedWithoutSsl(steps: seq<Step>, vector: bool)
    requires HasShape(steps, false, vector)
    ensures SSL_CLIENT_KEY !in Overlay(steps, 0) && SSL_SERVER_KEY !in Overlay(steps, 0)
  {
    hide Overlay;
    KeysAreDistinct();
    NotInserted(steps, 0, SSL_CLIENT_KEY);
    NotInserted(steps, 0, SSL_SERVER_KEY);
  }

  ghost predicate SameEntry(d: Data, before: Data, key: string) {
    (key in d <==> key in before) && (key in d ==> d[key] == before[key])
  }

  // What the steps leave, entry by entry, over the data there was before.
  ghost predicate HoldsSteps(d: Data, before: Data, steps: seq<Step>, secure: bool, vector: bool)
    requires |steps| == 6
  {
    && HasEntry(d, steps[0]) && HasEntry(d, steps[1]) && HasEntry(d, steps[2])
    && (if secure then HasEntry(d, steps[3]) && HasEntry(d, steps[4])
        else SameEntry(d, before, SSL_CLIENT_KEY) && SameEntry(d, before, SSL_SERVER_KEY))
    && (if vector then HasEntry(d, steps[5]) else SameEntry(d, before, VECTOR_KEY))
  }

  lemma ShapedData(before: Data, steps: seq<Step>, secure: bool, vector: bool)
    requires HasShape(steps, secure, vector)
    ensures HoldsSteps(RunFrom(before, steps, 0), before, steps, secure, vector)
  {
    hide Overlay, RunFrom, HasShape;
    RunIsOverlay(before, steps, 0);
    ShapedBase(steps, secure, vector);
    ShapedVector(steps, secure, vector);
    if secure { ShapedSsl(steps, vector); } else { ShapedWithoutSsl(steps, vector); }
  }

  // ----- a build that fails half way -----

  // The entries in the order in which the steps write them.
  const ORDER := ["hbase-site.xml", "hbase-env.sh", "log4j.properties", "ssl-client.xml", "ssl-server.xml", "vector.yaml"]

  lemma OrderIsDistinct()
    ensures forall i, j :: 0 <= i < j < |ORDER| ==> ORDER[i] != ORDER[j]
  {
    KeysAreDistinct();
  }

  lemma {:induction false} StopsAtFailure(steps: seq<Step>, k: nat, n: nat)
    requires k <= n < |steps| && steps[n].Fail? && forall i :: k <= i < n ==> !steps[i].Fail?
    ensures Overlay(steps, k) == Overlay(steps[..n], k)
    decreases n - k
  {
    if k < n { StopsAtFailure(steps, k + 1, n); }
  }

  lemma StepKeys(s: Settings, out: Outside, a: Address, i: nat)
    requires i < 6 && Steps(s, out, a)[i].Insert?
    ensures Steps(s, out, a)[i].key == ORDER[i]
  {
    hide SiteProperties, EnvText, SslClient, SslServer;
  }

  // The entries of the first n steps are written, as far as they have one, and the others are as before.
  ghost predicate WrittenUpTo(d: Data, before: Data, steps: seq<Step>, keys: seq<string>, n: nat)
    requires n <= |steps| == |keys|
  {
    && (forall i :: 0 <= i < n && steps[i].Insert? ==> keys[i] in d && d[keys[i]] == steps[i].content)
    && (forall i :: 0 <= i < n && !steps[i].Insert? ==> SameEntry(d, before, keys[i]))
    && (forall i :: n <= i < |steps| ==> SameEntry(d, before, keys[i]))
  }

  ghost predicate KeysFit(steps: seq<Step>, keys: seq<string>) {
    && |steps| == |keys|
    && (forall i :: 0 <= i < |steps| && steps[i].Insert? ==> steps[i].key == keys[i])
    && (forall i, j :: 0 <= i < j < |keys| ==> keys[i] != keys[j])
  }

  lemma OverlayUpTo(steps: seq<Step>, keys: seq<string>, n: nat, i: nat)
    requires KeysFit(steps, keys) && n <= |steps| && i < |keys| && forall k :: 0 <= k < n ==> !steps[k].Fail?
    ensures if i < n && steps[i].Insert?
            then keys[i] in Overlay(steps[..n], 0) && Overlay(steps[..n], 0)[keys[i]] == steps[i].content
            else keys[i] !in Overlay(steps[..n], 0)
  {
    hide Overlay;
    if i < n && steps[i].Insert? { InsertedIsKept(steps[..n], 0, i); } else { NotInserted(steps[..n], 0, keys[i]); }
  }

  lemma RunUpToFailure(before: Data, steps: seq<Step>, keys: seq<string>, n: nat)
    requires KeysFit(steps, keys) && n < |steps|
    requires steps[n].Fail? && forall k :: 0 <= k < n ==> !steps[k].Fail?
    ensures WrittenUpTo(RunFrom(before, steps, 0), before, steps, keys, n)
  {
    hide RunFrom, Overlay;
    RunIsOverlay(before, steps, 0);
    StopsAtFailure(steps, 0, n);
    forall i | 0 <= i < |keys|
      ensures if i < n && steps[i].Insert?
              then keys[i] in Overlay(steps, 0) && Overlay(steps, 0)[keys[i]] == steps[i].content
              else keys[i] !in Overlay(steps, 0)
    {
      OverlayUpTo(steps, keys, n, i);
    }
  }

  /** When the n-th step is the first to fail, exactly the entries before it are written. */
  lemma FailureStopsThere(before: Data, s: Settings, out: Outside, a: Address, n: nat)
    requires n < 6 && Steps(s, out, a)[n].Fail? && forall i :: 0 <= i < n ==> !Steps(s, out, a)[i].Fail?
    ensures |ORDER| == 6 && WrittenUpTo(RunFrom(before, Steps(s, out, a), 0), before, Steps(s, out, a), ORDER, n)
  {
    var steps := Steps(s, out, a);
    forall i | 0 <= i < 6 && steps[i].Insert? ensures steps[i].key == ORDER[i] { StepKeys(s, out, a, i); }
    assert |steps| == 6 && |ORDER| == 6;
    OrderIsDistinct();
    hide Steps, RunFrom, ORDER, WrittenUpTo;
    RunUpToFailure(before, steps, ORDER, n);
  }

  // ----- hbase-env.sh -----

  const KRB5_OPTION := "-Djava.security.krb5.conf=" + KRB5_CONFIG_FILE

  // The file has the line that sets the role's options, and these hold the krb5.conf exactly when Kerberos
  // is on; an option could otherwise come only from the role's own name.
  ghost predicate EnvIs(text: string, s: Settings) {
    && (Contains(text, KRB5_OPTION) <==> s.krb5.Some? || Contains(s.roleName, KRB5_OPTION))
    && ('\n' !in s.roleName ==> EnvHasLines(Split(text, '\n'), s))
  }

  ghost predicate EnvHasLines(lines: seq<string>, s: Settings) {
    && UNMANAGED in lines
    && exists line :: line in lines && SetsOptions(line, s)
  }

  ghost predicate SetsOptions(line: string, s: Settings) {
    && "export HBASE_" + s.roleName + "_OPTS=" <= line
    && (s.krb5.Some? ==> Contains(line, KRB5_OPTION))
  }

  lemma LineSetsOptions(s: Settings)
    ensures SetsOptions(OptionsLine(s.roleName, JvmOptions(s)), s)
  {
    var start := "export HBASE_" + s.roleName + "_OPTS=";
    var quote := "\"$HBASE_OPTS ";
    assert "_OPTS=" + quote == "_OPTS=\"$HBASE_OPTS ";
    var options := JvmOptions(s);
    assert OptionsLine(s.roleName, options) == start + quote + options + "\"";
    hide OptionsLine;
    if s.krb5.Some? { ContainsMiddle(start + quote, KRB5_OPTION, "\""); }
  }

  lemma OptionIsInText(s: Settings)
    requires s.krb5.Some?
    ensures Contains(EnvText(s), KRB5_OPTION)
  {
    var start := "\n" + UNMANAGED + "\n" + ("export HBASE_" + s.roleName + "_OPTS=\"$HBASE_OPTS ");
    assert JvmOptions(s) == KRB5_OPTION;
    hide JvmOptions, KRB5_OPTION;
    assert EnvText(s) == start + KRB5_OPTION + ("\"" + "\n\n");
    hide EnvText;
    ContainsMiddle(start, KRB5_OPTION, "\"" + "\n\n");
  }

  lemma OptionFacts()
    ensures KRB5_OPTION != "" && KRB5_OPTION[0] == '-' && '_' !in KRB5_OPTION
  {
  }

  lemma OptionIsNotInText(s: Settings)
    requires s.krb5.None?
    ensures Contains(EnvText(s), KRB5_OPTION) <==> Contains(s.roleName, KRB5_OPTION)
  {
    var before := "\n" + UNMANAGED + "\n" + "export HBASE_";
    var after := "_OPTS=\"$HBASE_OPTS " + "\"" + "\n\n";
    OptionFacts();
    assert '-' !in before && '-' !in after && after[0] == '_';
    hide KRB5_OPTION;
    assert EnvText(s) == before + s.roleName + after;
    hide EnvText;
    ContainedInMiddle(before, s.roleName, after, KRB5_OPTION);
  }

  lemma {:induction false} ThreeLines(first: string, second: string)
    requires '\n' !in first && '\n' !in second
    ensures Split("\n" + first + "\n" + second + "\n\n", '\n') == ["", first, second, "", ""]
  {
    assert "\n" + first + "\n" + second + "\n\n" == "" + ['\n'] + (first + ['\n'] + (second + ['\n'] + ("" + ['\n'] + "")));
    hide Split;
    SplitAtFirst("", '\n', first + ['\n'] + (second + ['\n'] + ("" + ['\n'] + "")));
    SplitAtFirst(first, '\n', second + ['\n'] + ("" + ['\n'] + ""));
    SplitAtFirst(second, '\n', "" + ['\n'] + "");
    SplitAtFirst("", '\n', "");
    SplitOfFree("", '\n');
  }

  lemma OptionsAreFree(s: Settings)
    ensures '\n' !in JvmOptions(s)
  {
  }

  lemma OptionsLineIsFree(s: Settings)
    requires '\n' !in s.roleName
    ensures '\n' !in OptionsLine(s.roleName, JvmOptions(s))
  {
    hide JvmOptions;
    OptionsAreFree(s);
  }

  lemma LinesAreThere(s: Settings)
    requires '\n' !in s.roleName
    ensures EnvHasLines(Split(EnvText(s), '\n'), s)
  {
    var line := OptionsLine(s.roleName, JvmOptions(s));
    OptionsLineIsFree(s);
    assert '\n' !in UNMANAGED;
    assert EnvText(s) == "\n" + UNMANAGED + "\n" + line + "\n\n";
    hide Split, EnvText, OptionsLine, SetsOptions, UNMANAGED;
    ThreeLines(UNMANAGED, line);
    LineSetsOptions(s);
    var lines := ["", UNMANAGED, line, "", ""];
    assert lines[1] == UNMANAGED && lines[2] == line;
  }

  lemma EnvIsRight(s: Settings)
    ensures EnvIs(EnvText(s), s)
  {
    hide EnvText, Split, Contains, EnvHasLines;
    if s.krb5.Some? { OptionIsInText(s); } else { OptionIsNotInText(s); }
    if '\n' !in s.roleName { LinesAreThere(s); }
  }

  // ----- all of the data -----

  // The site names the znode's address and the fixed settings, and Kerberos is all or nothing in it.
  ghost predicate SiteIs(p: map<string, string>, s: Settings, quorum: string, chroot: string, port: string) {
    && Has(p, "hbase.zookeeper.quorum", quorum) && Has(p, "zookeeper.znode.parent", chroot + "/hbase")
    && Has(p, "hbase.zookeeper.property.clientPort", port)
    && Has(p, "hbase.cluster.distributed", "true") && Has(p, "hbase.rootdir", "/hbase")
    && Has(p, "hbase.unsafe.regionserver.hostname.disable.master.reversedns", "true")
    && if s.krb5.Some? then Includes(p, HbaseSite(s.krb5.value))
       else forall c, key :: key in HbaseSite(c) ==> key !in p
  }

  lemma SiteIsRight(s: Settings, quorum: string, chroot: string, port: string)
    ensures SiteIs(SiteProperties(s, quorum, chroot, port), s, quorum, chroot, port)
  {
    hide SiteProperties, BaseSite, HbaseSite;
    BaseIsKept(s, quorum, chroot, port);
    BaseAddress(quorum, chroot, port);
    KerberosIsAllOrNothing(quorum, chroot, port, s);
  }

  ghost predicate IsXml(d: Data, key: string, properties: map<string, string>) {
    key in d && d[key] == Xml(properties)
  }

  ghost predicate IsText(d: Data, key: string, text: string) {
    key in d && d[key] == Text(text)
  }

  ghost predicate SiteEntryIs(d: Data, s: Settings, quorum: string, chroot: string, port: string) {
    var key := "hbase-site.xml";
    key in d && d[key].Xml? && SiteIs(d[key].properties, s, quorum, chroot, port)
  }

  ghost predicate EnvEntryIs(d: Data, s: Settings) {
    var key := "hbase-env.sh";
    key in d && d[key].Text? && EnvIs(d[key].text, s)
  }

  ghost predicate SslEntriesAre(d: Data, before: Data, secure: bool) {
    if secure then IsXml(d, "ssl-client.xml", SslClient()) && IsXml(d, "ssl-server.xml", SslServer())
    else SameEntry(d, before, "ssl-client.xml") && SameEntry(d, before, "ssl-server.xml")
  }

  ghost predicate VectorEntryIs(d: Data, before: Data, vector: bool, yaml: Option<string>) {
    if vector then yaml.Some? && IsText(d, "vector.yaml", yaml.value) else SameEntry(d, before, "vector.yaml")
  }

  // The data after a successful build, described without the steps that built it.
  ghost predicate IsBuilt(d: Data, before: Data, s: Settings, out: Outside, a: Address)
    requires IsComplete(a)
  {
    && SiteEntryIs(d, s, a.quorum.value, a.chroot.value, a.port.value)
    && EnvEntryIs(d, s)
    && out.logProperties.Some? && IsText(d, "log4j.properties", out.logProperties.value)
    && SslEntriesAre(d, before, s.krb5.Some?)
    && VectorEntryIs(d, before, s.vectorConfigMapName != "", out.vectorYaml)
  }

  /** What a successful build leaves, over any data there was before. */
  lemma BuiltOver(before: Data, s: Settings, out: Outside, a: Address)
    requires AllSucceed(Steps(s, out, a))
    ensures IsComplete(a) && IsBuilt(RunFrom(before, Steps(s, out, a), 0), before, s, out, a)
  {
    hide Steps, RunFrom, SiteProperties, HbaseSite, SslClient, SslServer, SiteIs, EnvIs, Contains, Split, EnvText;
    StepsHaveShape(s, out, a);
    ShapedData(before, Steps(s, out, a), s.krb5.Some?, s.vectorConfigMapName != "");
    SiteIsRight(s, a.quorum.value, a.chroot.value, a.port.value);
    EnvIsRight(s);
  }

  // The data holds everything Kerberos needs, for the given configuration.
  ghost predicate HasKerberosData(d: Data, c: KerberosConfig) {
    && HBASE_KEY in d && d[HBASE_KEY].Xml? && Includes(d[HBASE_KEY].properties, HbaseSite(c))
    && IsXml(d, SSL_CLIENT_KEY, SslClient()) && IsXml(d, SSL_SERVER_KEY, SslServer())
    && ENV_KEY in d && d[ENV_KEY].Text? && Contains(d[ENV_KEY].text, KRB5_OPTION)
  }

  // The data holds nothing that Kerberos would have added, for no configuration.
  ghost predicate HasNoKerberosData(d: Data) {
    && (HBASE_KEY in d && d[HBASE_KEY].Xml? ==>
          forall c, key :: key in HbaseSite(c) ==> key !in d[HBASE_KEY].properties)
    && SSL_CLIENT_KEY !in d && SSL_SERVER_KEY !in d
    && (ENV_KEY in d && d[ENV_KEY].Text? ==> !Contains(d[ENV_KEY].text, KRB5_OPTION))
  }

  /** A ConfigMap built from nothing holds all Kerberos data when Kerberos is on, and otherwise none. */
  lemma BuiltData(s: Settings, out: Outside, a: Address)
    requires AllSucceed(Steps(s, out, a)) && !Contains(s.roleName, KRB5_OPTION)
    ensures IsComplete(a)
    ensures var d := RunFrom(map[], Steps(s, out, a), 0);
            && IsBuilt(d, map[], s, out, a)
            && (if s.krb5.Some? then HasKerberosData(d, s.krb5.value) else HasNoKerberosData(d))
  {
    hide Steps, RunFrom, HbaseSite, SslClient, SslServer, Contains, Split;
    BuiltOver(map[], s, out, a);
  }
}
