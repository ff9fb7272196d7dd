# Verification model of the HBase operator

The operator (repository `zncdatadev/hbase-operator`) turns an `HbaseCluster` object into StatefulSets,
Services and ConfigMaps. Most of it is glue around the library operator-go; the parts with behaviour of
their own are modelled here in Dafny 4.11, and what they promise is proved for all inputs and all runs.
`dafny verify dfyconfig.toml` checks everything.

| file | what it models |
|---|---|
| `ShellSignals.dfy`, `ShellSignalProofs.dfy` | the Bash script of the main container: trap, background server, two waits, TERM signals at any moment |
| `DeepCopies.dfy`, `ApiTypes.dfy` | the generated deep-copy functions of the API types, on the heap, against the values the objects stand for |
| `Oidc.dfy`, `Urls.dfy`, `Encodings.dfy`, `Texts.dfy` | the environment of the OIDC proxy: cookie secret, issuer URL, scopes |
| `Kerberos.dfy` | principals, the `sed` command that puts the realm into them, the Kerberos properties |
| `Registration.dfy`, `Clusters.dfy`, `Roles.dfy` | which resources the groups, roles and the cluster register, and under which names |
| `StatefulSets.dfy`, `Affinities.dfy` | the pod template of a group, what its setup commands do to the configuration files, the affinity loop |
| `ConfigMaps.dfy`, `Znodes.dfy` | the ConfigMap of a group, built step by step, and the znode ConfigMap it reads |
| `Services.dfy` | the label, selector and annotation maps of the metrics Service |

## How the script is modelled

`ShellSignals.CommandAt` holds the script as data and `ShellSignals.Step` interprets it, following section
2.11 (Signals and Error Handling) of the Shell Command Language volume of IEEE Std 1003.1. Every event is a
step of its own: a TERM arrives, the server exits, the shell begins the trap action, the handler or the main
program runs one command, a `wait` returns or is cut short. The trap action runs between commands and cuts a
`wait` short; whether it also runs between two commands of the handler is left open, so the results hold
either way. The shell is PID 1, so a TERM without a trap is ignored. `ShellSignals.Setting` makes `set -u`, the
process id and the inherited values of the two variables parameters. Commands whose outcome is not fixed
(`mkdir`, `cp`, `sed`, a `kill` that misses, a `wait`) take their outcome from the event. Results speak about
`Leads(c, run, s)`: the sequence of events `run` can happen and ends in the state `s`.

## What the proofs found

- Bash is started with `-u` (`internal/controller/common/statefulset.go:213`). The handler's first line then
  aborts the shell when it reads the unset `term_child_pid`, so the whole deferral, `term_kill_needed` included,
  is dead code, and a TERM between `trap` and the assignment of the process id ends the container without a kill.
  No TERM is ever lost exactly when `-u` is off (`ShellSignalProofs.NoTermLostExactly`).
- `AddData` rejects the very form that the comment above it gives as an example (one slash); it also panics on a
  ConfigMap whose data map is nil.
- A second run of the realm substitution is harmless on every file exactly when the realm cannot take part in a
  new match of the pattern. The pattern's `.` is a wildcard, so every realm of one character is one that can. A realm with `&` puts the placeholder back. On files made of
  `$`-free text and placeholders, any plain realm is fine.
- A URL path of exactly `*` is the only one that is not escaped, so it alone is told apart from its rooted form.
- Two groups of one role named `g` and `g-metrics` make two Services of the same name; nothing else clashes.
- The image ignores the product version and the pull secret of the spec.
- A role without a spec, a cluster without an image, or a group without a cluster configuration is a nil pointer
  that the code follows.
- Required affinity terms carry no topology key.
- hbase-env.sh names its variable after the role as it stands, such as `HBASE_master_OPTS`.
- Building a StatefulSet twice with one builder adds its containers and volumes twice; building the ConfigMap
  data twice changes nothing.

## Model

| member | source | states |
|---|---|---|
| ShellSignalProofs.InvAlways | internal/controller/common/statefulset.go:158-189 | The joint invariant of control points, variables, trap, errexit, log and kills holds after every run, whatever the interleaving |
| ShellSignalProofs.NoTermLostExactly | internal/controller/common/statefulset.go:158-213 | The guarantee of the script for every setting: in every run, however it halts, each caught TERM is followed by a kill of the server, if and only if nounset is off |
| ShellSignalProofs.CaughtTermIsForwarded | internal/controller/common/statefulset.go:165-180 | No TERM is lost: once the deferred-kill check is passed and nothing is pending, each caught TERM and each trap run is followed by a kill of the server's own pid |
| ShellSignalProofs.KillIsJustified | internal/controller/common/statefulset.go:167-181 | No TERM is invented: each kill names the server, comes after a trap run, and misses only a server that has already exited |
| ShellSignalProofs.KillsMatchHandlings | internal/controller/common/statefulset.go:165-181 | Kills and trap runs balance: one kill per run, all deferred runs sharing one; with nounset nothing is deferred |
| ShellSignalProofs.EndMeansServerExited | internal/controller/common/statefulset.go:174-189 | The end of the script is reached only after the server exited, with no TERM left over |
| ShellSignalProofs.SecondWaitIsNeverCut | internal/controller/common/statefulset.go:181-183 | After the trap is reset no TERM can cut the wait short; it returns only when the server has exited |
| ShellSignalProofs.RunningServerWasHit | internal/controller/common/statefulset.go:181-183 | Why two waits are enough: with the first wait over and no trap run left, a server still running has already been hit by a kill, so ignoring later TERMs loses nothing |
| ShellSignalProofs.FailingKillOrWaitIsHarmless | internal/controller/common/statefulset.go:165-185 | Errexit is off wherever a kill or wait can fail, so only the setup commands can abort the script by failing |
| ShellSignalProofs.UnboundAbortExactly | internal/controller/common/statefulset.go:160-172 | With no trap run in progress, the shell has died of an unbound variable if and only if nounset is on and some trap run began before the pid was stored |
| ShellSignalProofs.NounsetNeverDefers | internal/controller/common/statefulset.go:167-180 | With nounset the deferral is never recorded, `term_kill_needed` stays unset and the deferred kill is unreachable |
| ShellSignalProofs.EarlyTermEndsTheShell | internal/controller/common/statefulset.go:158-189 | With nounset, whatever happens after a TERM between installing the trap and storing the pid, the script never leaves that window and no kill is ever sent; if it halts, the shell died of the unbound variable |
| ShellSignalProofs.EarlyTermIsDeferred | internal/controller/common/statefulset.go:165-180 | Without nounset, whatever happens after such a TERM, the shell lives on; it is on record once no trap run is left over, and past the deferred-kill check the server has been killed |
| ShellSignalProofs.DeferredKillFollows | internal/controller/common/statefulset.go:176-180 | A recorded TERM can always be delivered: with nothing interfering the main program reaches the deferred kill, which hits the running server, once |
| ShellSignalProofs.RunIsDetermined | internal/controller/common/statefulset.go:152-189 | A sequence of events ends in one state only |
| ShellSignalProofs.StepSpendsBudget | internal/controller/common/statefulset.go:158-189 | Every step but a TERM decreases the measure; a TERM raises it by at most 3 |
| ShellSignalProofs.RunIsBounded | internal/controller/common/statefulset.go:158-189 | A run with n TERMs has at most 27 + 4n events |
| ShellSignalProofs.NeverStuck | internal/controller/common/statefulset.go:158-189 | In every reachable live state the shell can go on, or it waits, with no TERM to handle, for a server that can still exit |
| ShellSignalProofs.CaughtTermMovesOn | internal/controller/common/statefulset.go:163-181 | While a TERM is pending or being handled the shell can always go on by itself, without waiting for the server |
| ShellSignalProofs.TrapComesFirst | internal/controller/common/statefulset.go:163-181 | A pending TERM cuts a wait and its trap action runs before the next command of the main program; without one nothing is cut |
| ShellSignalProofs.TermWhileWaitingIsForwarded | internal/controller/common/statefulset.go:165-182 | The ordinary stop: a TERM during the first wait cuts it, and the kill reaches the server while it runs, with exactly this log |
| ShellSignalProofs.OutcomesAreOpen | internal/controller/common/statefulset.go:152-189 | What the model does not rule out: a TERM and the exit of a running server at any time, and both outcomes of the setup, of a wait that ends and of a kill that misses |
| ShellSignalProofs.CanAlwaysHalt | internal/controller/common/statefulset.go:158-189 | From every reachable state some continuation without further TERMs halts the script |
| DeepCopies.HbaseClusterList.DeepCopy | api/v1alpha1/zz_generated.deepcopy.go:111-118 | nil gives nil; otherwise the copy's value equals the original's, everything it reaches is new and disjoint from the original, and the original is as it was |
| DeepCopies.HbaseClusterList.DeepCopyInto | api/v1alpha1/zz_generated.deepcopy.go:97-108 | The target stands for the source's value, nil and empty items kept apart, and reaches only itself and new objects |
| DeepCopies.HbaseClusterList.UnaliasItems | api/v1alpha1/zz_generated.deepcopy.go:101-107 | The slice still shared after the struct assignment is replaced by copies of its elements, nil staying nil |
| DeepCopies.HbaseClusterList.CopyItems | api/v1alpha1/zz_generated.deepcopy.go:101-107 | The item loop gives new clusters with the values of the old ones, in order |
| DeepCopies.WritesToCopyDoNotShow | api/v1alpha1/zz_generated.deepcopy.go:97-118 | No later write to objects the copy reaches, or to new objects, changes the original's value |
| DeepCopies.ClusterListFields | api/v1alpha1/zz_generated.deepcopy.go:97-108 | Equal views mean equal fields, and back, so each field of a copy has its own original value: type and list metadata, and the items one by one, nil and empty kept apart |
| DeepCopies.ClusterFields | api/v1alpha1/zz_generated.deepcopy.go:70-76 | Equal views mean equal fields, and back, so each field of a copy has its own original value: metadata, spec and status |
| DeepCopies.ClusterSpecFields | api/v1alpha1/zz_generated.deepcopy.go:129-161 | Equal views mean equal fields, and back, so each field of a copy has its own original value: all six optional parts |
| DeepCopies.StatusFields | api/v1alpha1/zz_generated.deepcopy.go:174-183 | Equal views mean equal fields, and back, so each field of a copy has its own original value: the conditions one by one |
| DeepCopies.RoleFields | api/v1alpha1/zz_generated.deepcopy.go:261-285 | Equal views mean equal fields, and back, so each field of a copy has its own original value: config, group map, role config and overrides |
| DeepCopies.RoleGroupMapFields | api/v1alpha1/zz_generated.deepcopy.go:268-274 | Equal views mean equal fields, and back, so each field of a copy has its own original value: the same keys, each with an equal entry |
| DeepCopies.RoleGroupFields | api/v1alpha1/zz_generated.deepcopy.go:231-248 | Equal views mean equal fields, and back, so each field of a copy has its own original value: replicas, config and overrides |
| DeepCopies.RoleConfigFields | api/v1alpha1/zz_generated.deepcopy.go:211-218 | Equal views mean equal fields, and back, so each field of a copy has its own original value: the group config |
| DeepCopies.ClusterConfigFields | api/v1alpha1/zz_generated.deepcopy.go:50-57 | Equal views mean equal fields, and back, so each field of a copy has its own original value: all four names and the authentication |
| DeepCopies.AuthenticationFields | api/v1alpha1/zz_generated.deepcopy.go:30-37 | Equal views mean equal fields, and back, so each field of a copy has its own original value: class, OIDC part, Kerberos class and TLS class |
| DeepCopies.OidcFields | api/v1alpha1/zz_generated.deepcopy.go:298-305 | Equal views mean equal fields, and back, so each field of a copy has its own original value: the secret and the scopes |
| DeepCopies.HbaseCluster.DeepCopyInto | api/v1alpha1/zz_generated.deepcopy.go:70-76 | Equal value, only new objects reached besides the struct and its embedded parts |
| DeepCopies.HbaseCluster.DeepCopy | api/v1alpha1/zz_generated.deepcopy.go:79-86 | nil-preserving, equal value, all new |
| DeepCopies.HbaseClusterSpec.DeepCopyInto | api/v1alpha1/zz_generated.deepcopy.go:129-161 | Each of the six optional parts is copied where present and nil where nil; nothing stays shared |
| DeepCopies.HbaseClusterSpec.DeepCopy | api/v1alpha1/zz_generated.deepcopy.go:164-171 | nil-preserving, equal value, all new |
| DeepCopies.HbaseClusterStatus.DeepCopyInto | api/v1alpha1/zz_generated.deepcopy.go:174-183 | Conditions are copied one by one, nil and empty kept apart |
| DeepCopies.RoleSpec.DeepCopyInto | api/v1alpha1/zz_generated.deepcopy.go:261-285 | Config, group map, role config and overrides are all un-aliased, with equal value |
| DeepCopies.RoleSpec.DeepCopy | api/v1alpha1/zz_generated.deepcopy.go:368-402 | nil-preserving, equal value, all new |
| DeepCopies.RoleGroupMap.Copy | api/v1alpha1/zz_generated.deepcopy.go:268-274 | The new map has the same keys and equal values, and shares nothing with the old |
| DeepCopies.RoleGroupMap.CopyEntries | api/v1alpha1/zz_generated.deepcopy.go:269-273 | The range loop gives each key a new struct with the value of the old one, in any order |
| DeepCopies.RoleGroupSpec.DeepCopyInto | api/v1alpha1/zz_generated.deepcopy.go:231-248 | Replicas, config and overrides are un-aliased, with equal value |
| DeepCopies.RoleGroupSpec.DeepCopy | api/v1alpha1/zz_generated.deepcopy.go:251-258 | nil-preserving, equal value, all new |
| DeepCopies.RoleConfigSpec.DeepCopyInto | api/v1alpha1/zz_generated.deepcopy.go:211-218 | The pointed-to group config is un-aliased, with equal value |
| DeepCopies.ClusterConfigSpec.DeepCopyInto | api/v1alpha1/zz_generated.deepcopy.go:50-57 | The authentication part is un-aliased, with equal value |
| DeepCopies.AuthenticationSpec.DeepCopyInto | api/v1alpha1/zz_generated.deepcopy.go:30-37 | The OIDC part is un-aliased, with equal value |
| DeepCopies.OidcSpec.DeepCopyInto | api/v1alpha1/zz_generated.deepcopy.go:298-305 | The scope slice is copied into a new array, nil and empty kept apart |
| Oidc.CookieSecretDecodes | internal/controller/authz/oidc.go:95-99 | The secret is 32 unpadded characters; decoded once it is 24 bytes, decoded twice the first 16 hexadecimal characters of the digest |
| Oidc.CookieSecretsAgree | internal/controller/authz/oidc.go:95-99 | Two digests give the same secret if and only if their first 8 bytes agree |
| Oidc.ScopesSplitBack | internal/controller/authz/oidc.go:72-76 | Splitting the scope value on spaces gives the fixed scopes and then the extra ones in order, if and only if no extra scope has a space |
| Oidc.IssuerParsesBack | internal/controller/authz/oidc.go:78-86 | The issuer URL parses back to the same host, effective port and rooted path, for every host name without a colon and every path |
| Oidc.IssuersAgree | internal/controller/authz/oidc.go:78-86 | Exactly when two providers share an issuer URL: same host, effective port and rooted path, and both or neither with the path `*` |
| Oidc.IssuerIsLiteral | internal/controller/authz/oidc.go:78-86 | Hosts and paths that need no escaping stand in the URL as they are, with the port unless it is 0 or 80 |
| Oidc.IssuerIsClean | internal/controller/authz/oidc.go:78-86 | The URL has no query, fragment, space, line break or backslash, whatever host and path hold |
| Oidc.EnvironmentReadsBack | internal/controller/authz/oidc.go:70-152 | Token, credentials, provider address, provider name (keycloak only as keycloak-oidc), scopes and upstream can all be read back from the generated environment |
| Encodings.Base64RoundTrip | internal/controller/authz/oidc.go:99 | Decoding undoes encoding for every byte sequence (section 4 of RFC 4648) |
| Encodings.Base64Shape | internal/controller/authz/oidc.go:99 | Length, and padding exactly when the length is no multiple of 3 |
| Encodings.GroupIsBigEndian | internal/controller/authz/oidc.go:99 | Four characters carry the 24 bits of three bytes, most significant first (section 4 of RFC 4648) |
| Encodings.AlphabetCorners | internal/controller/authz/oidc.go:99 | The ranges of the standard alphabet, from A to / |
| Encodings.HexPrefix | internal/controller/authz/oidc.go:96-97 | A prefix of 2n hexadecimal characters is the text of the first n bytes |
| Encodings.HexAt | internal/controller/authz/oidc.go:96 | Each byte becomes two lower-case digits, the high one first |
| Encodings.HexInjective | internal/controller/authz/oidc.go:96 | Hexadecimal texts are equal if and only if the bytes are (section 8 of RFC 4648, lower case) |
| Urls.UnescapeEscape | internal/controller/authz/oidc.go:138 | Percent-decoding undoes the escaping of every host and path |
| Texts.SplitJoin | internal/controller/authz/oidc.go:142 | Splitting a joined list gives it back if and only if no piece contains the separator |
| Texts.ParseItoa | internal/controller/authz/oidc.go:85 | Printing any integer in decimal and reading it back is the identity |
| Kerberos.SedIsSubstitute | internal/controller/authz/krb5.go:221-223 | Replacing line by line equals replacing in the whole file: no match spans a line break |
| Kerberos.PatternIs | internal/controller/authz/krb5.go:221-223 | The pattern matches exactly the placeholder with any one character but a line break for its dot |
| Kerberos.RealmIsSubstituted | internal/controller/authz/krb5.go:218-226 | On text without `$` joined by placeholders, each placeholder becomes the realm, the rest stays, no match is left, and a second run changes nothing |
| Kerberos.RunningTwiceIsRunningOnceExactly | internal/controller/authz/krb5.go:221-223 | On arbitrary files: no match is ever left if and only if the realm is inert and has no `&`, which puts the matched text back; a second run never changes anything if and only if that holds or the realm is a lone `&` |
| Kerberos.HostIdentifiesCluster | internal/controller/authz/krb5.go:55-57 | With dot-free namespaces, host texts are equal if and only if cluster and namespace are, even for cluster names with dots |
| Kerberos.PrincipalParses | internal/controller/authz/krb5.go:55-58 | A principal parses back to service, cluster, namespace and realm |
| Kerberos.PrincipalResolves | internal/controller/authz/krb5.go:55-58 | After the generated substitution the principal still parses to the same service, cluster and namespace, with the realm in place |
| Kerberos.SitePrincipalsResolve | internal/controller/authz/krb5.go:83-116 | All four principals of hbase-site.xml resolve so; the REST ones with service HTTP, the others with hbase |
| Kerberos.GroupsAreKept | internal/controller/authz/krb5.go:83-116 | Security, keytab, SSL and principal properties are all in the site, each with its own value: no key displaces another |
| Kerberos.SiteIsSecure | internal/controller/authz/krb5.go:83-146 | The files are secure together: authentication and encryption are on, every principal has its keytab, and REST server, SSL server and SSL client name the same stores, passwords and types |
| Znodes.ZnodeConfiguration.AddData | internal/controller/common/zookeeper.go:24-40 | Accepts exactly the well-formed texts (with a data map); the getters then return the pieces and the whole, other keys untouched; on an error nothing changes |
| Znodes.WellFormedExactly | internal/controller/common/zookeeper.go:25-33 | Two slashes, and one colon before the first, if and only if the text has the form host:port/middle/chroot |
| Znodes.PartsAreUnique | internal/controller/common/zookeeper.go:25-38 | There is at most one way to take a text apart |
| Znodes.OneSlashIsRejected | internal/controller/common/zookeeper.go:22-28 | The form in the comment is never accepted |
| Affinities.AffinityBuilder.Build | internal/controller/common/affinity.go:65-129 | The loop's four lists are the four-way partition of the builder's list, and the builder is unchanged |
| Affinities.AffinityBuilder.AddPodAffinity | internal/controller/common/affinity.go:60-63 | The new element goes to the end of the builder's list |
| Affinities.AddedGoesLast | internal/controller/common/affinity.go:60-105 | One more element extends exactly one of the four lists, by its term at the end |
| Affinities.PartitionIsStable | internal/controller/common/affinity.go:71-105 | Every element's term stands in the list of its class at its rank in that class, and the lengths add up to the input's |
| Affinities.StandsInOrder | internal/controller/common/affinity.go:71-105 | The element at i comes after exactly the elements of its class before i |
| Affinities.WeightsAreSet | internal/controller/common/affinity.go:74-97 | No preferred term has weight 0; preferred terms, and only they, name the host topology |
| ConfigMaps.ConfigMapBuilder.AddHbaseSite | internal/controller/common/configmap.go:172-208 | Writes the site entry with the znode's address, or fails and leaves the data alone if a key is missing or marshalling fails |
| ConfigMaps.ConfigMapBuilder.AddAll | internal/controller/common/configmap.go:256-278 | The data is the result of the steps up to the first that fails; on success it is, entry by entry, what IsBuilt describes without the steps |
| ConfigMaps.ConfigMapBuilder.Reconcile | internal/controller/common/configmap.go:249-287 | Applies the data if and only if the znode was read and all steps and Build succeeded; what is applied has the address under the keys ZOOKEEPER_HOSTS, ZOOKEEPER_PORT and ZOOKEEPER_CHROOT of the fetched ConfigMap, and every other entry as IsBuilt describes it |
| ConfigMaps.SucceedsExactly | internal/controller/common/configmap.go:256-278 | All steps succeed if and only if the address is complete and every needed file can be rendered or generated |
| ConfigMaps.FailureStopsThere | internal/controller/common/configmap.go:256-278 | When a step is the first to fail, exactly the entries before it are written, in the order of the steps |
| ConfigMaps.BuiltOver | internal/controller/common/configmap.go:94-231 | What a successful build leaves over any earlier data: the site with address and fixed settings, the environment file, log4j and Vector files as generated, the SSL files, and nothing else changed |
| ConfigMaps.EnvIsRight | internal/controller/common/configmap.go:94-119 | hbase-env.sh sets the role's own options variable, and the text has the krb5.conf option if and only if Kerberos is on or the role name itself holds it |
| ConfigMaps.RunningTwiceIsRunningOnce | internal/controller/common/configmap.go:249-278 | Reconciling again with the same inputs leaves the same data, on success and on failure |
| ConfigMaps.OtherKeysAreKept | internal/controller/common/configmap.go:94-231 | No entry besides the six of the builder is touched |
| ConfigMaps.AddressIsKept | internal/controller/common/configmap.go:178-198 | The Kerberos properties never displace quorum, znode parent or client port |
| ConfigMaps.KerberosIsAllOrNothing | internal/controller/common/configmap.go:196-198 | With Kerberos on, every Kerberos property is in the site with its own value; with it off, no Kerberos property of any configuration is |
| ConfigMaps.BuiltData | internal/controller/common/configmap.go:144-231 | Built from nothing, with Kerberos on the data has all of it (properties, SSL files, krb5.conf option), otherwise none; all other entries are as BuiltOver says |
| StatefulSets.StatefulSetBuilder.Build | internal/controller/common/statefulset.go:345-377 | What the builder holds and what pod it returns, also when the class lookup fails half way |
| StatefulSets.StatefulSetBuilder.BuildOidcContainer | internal/controller/common/statefulset.go:310-343 | A proxy container if and only if authentication names a class, the class has an OIDC provider and the cluster configures OIDC; failure if and only if a named class cannot be looked up; the container speaks for its role |
| StatefulSets.ProxySpeaksForRole | internal/controller/common/statefulset.go:324-342 | The upstream of the proxy parses to the pod itself at the port that the role's metrics Service targets, and both credentials come from the secret the cluster names |
| StatefulSets.BuildNew | internal/controller/common/statefulset.go:345-377 | A new builder gives the pod with main container, optional proxy and Vector, in this order |
| StatefulSets.KerberosIsAllOrNothing | internal/controller/common/statefulset.go:145-150 | The realm export, all three substitutions, both environment variables, both mounts and both secret volumes are there, or none of these is |
| StatefulSets.SecretsAreClaimed | internal/controller/authz/krb5.go:161-215 | The volume named kerberos claims from the Kerberos secret class for this cluster's service and both service names, the one named tls from the TLS class |
| StatefulSets.MainRunsRole | internal/controller/common/statefulset.go:144-145 | The main container starts its role's server, with its ports and probe, on the directory that the setup fills |
| StatefulSets.PodHolds | internal/controller/common/statefulset.go:345-377 | When there is a pod, exactly, and what it holds: the role's main container first, the proxy if and only if wanted, Vector if and only if named, and the volumes |
| StatefulSets.PodsSpread | internal/controller/common/statefulset.go:234-251 | The affinity terms match exactly the pods of the same cluster (weight 20) and, to be avoided, of the same role in it (weight 70); nothing is required |
| StatefulSets.MountsHaveVolumes | internal/controller/common/statefulset.go:98-142 | Every mount of the main container has its volume; hbase-config is the ConfigMap with the StatefulSet's name and hdfs-config the one the cluster names |
| StatefulSets.SetupResult | internal/controller/common/statefulset.go:152-156 | Whether or not the configuration directory exists, and whatever KERBEROS_REALM was: when the setup succeeds, exactly, and the content of every file it leaves; the order of the commands matters, since copying needs the directory and the substitution the variable |
| StatefulSets.RealmRuns | internal/controller/authz/krb5.go:218-226 | The realm commands succeed if and only if all three site files are there, and change only those |
| Roles.FindPort | internal/controller/common/statefulset.go:326-333 | The loop finds the number of the first port with the name, or leaves 0 |
| Services.NewMetricsService | internal/controller/common/service.go:18-85 | The Service selects by the group's own label map, unchanged; its labels and annotations are new maps with the added entries; an unknown role panics |
| Services.CopyMap | internal/controller/common/service.go:50-53 | The range loop gives a new map with the same entries, in any order |
| Services.ScrapeUrlReadsBack | internal/controller/common/service.go:56-66 | The URL a scraper composes from the annotations parses to the metrics page at the role's metrics port, whatever annotations were there |
| Registration.RoleReconciler.RegisterResources | internal/controller/master/role.go:50-81 | In any order of the map: success if and only if every group merges, and then the four resources of every group once, each made for its role and group; on failure only those of groups visited before |
| Registration.GroupIsServed | internal/controller/master/role.go:83-142 | A group's StatefulSet runs its role with its replicas and the cluster's settings, the Service exposes the pod's ports, the ConfigMap is for the same role and settings, the metrics Service has the port of the web interface |
| Registration.FullVisitServesRole | internal/controller/regionserver/role.go:51-82 | After a full visit every group of the map has all four resources, made for it |
| Registration.RoleReconciler.AddResources | internal/controller/regionserver/role.go:75-79 | The inner loop appends the group's reconcilers in order |
| Registration.RegistrationIsDetermined | internal/controller/master/role.go:50-81 | Two successful walks of the map, in whatever order, register the same resources, four per group |
| Registration.OrderDoesNotMatter | internal/controller/restserver/role.go:50-81 | Permuted visits register the same multiset of resources |
| Registration.FullNameIdentifies | test/e2e/default/hbase-assert.yaml:16 | Within a cluster, full names are equal if and only if role and group are |
| Registration.MetricsNameIdentifies | internal/util/util.go:5-7 | A metrics name equals another's only for the same group, and a plain name only for the group of that name with -metrics |
| Registration.ClashExactly | internal/controller/master/role.go:83-142 | Which two resources of two groups share kind and name, exactly |
| Registration.NamesAreDistinctExactly | internal/controller/master/role.go:83-142 | All registered resources differ in kind or name if and only if no group is the -metrics twin of another of its role |
| Registration.RolesNeverClash | internal/controller/restserver/role.go:83-141 | Resources of different roles never share kind and name |
| Clusters.ClusterReconciler.RegisterResources | internal/controller/cluster/cluster.go:60-115 | The cluster gets exactly the roles before the first that fails, in the order master, regionserver, restserver, each from its own part of the spec and with resources made for every one of its groups; success if and only if all three |
| Clusters.ClusterReconciler.RegisterRole | internal/controller/cluster/cluster.go:62-77 | A role registers if and only if its spec is there, its groups merge and they have a cluster configuration; then it is complete |
| Clusters.ImagesAgree | internal/controller/cluster/cluster.go:41-58 | Which specs give the same image, exactly: product version and pull secret play no part |
| Clusters.ClusterNamesAreDistinctExactly | internal/controller/cluster/cluster.go:60-115 | Over all three roles, kinds and names are pairwise different if and only if no role's map has both g and g-metrics |
| Clusters.GroupPartsAgree | internal/controller/common/statefulset.go:128-138 | The pod of every group mounts the ConfigMap registered for that same group, runs the group's role, has the Service's ports and the metrics Service's port among them, and both are built from the same Kerberos settings |
| Clusters.KerberosAgrees | internal/controller/common/statefulset.go:69-78 | Either the pod of a group has all Kerberos parts and its built ConfigMap all Kerberos data, for one configuration, or neither has any |
| Clusters.SecretsComeFromTheCluster | internal/controller/common/statefulset.go:405-432 | With both secret classes given, the cluster's Kerberos class reaches the volume kerberos and its TLS class the volume tls of every group's pod; otherwise the pod has no part of Kerberos |
| Clusters.SecureFilesFitThePod | internal/controller/authz/krb5.go:83-216 | With Kerberos on, the files of a group's built ConfigMap are secure together, every keytab, store and krb5.conf they name lies in a mount of the group's pod, and principals' services and store passwords are those its volumes ask for |
| Clusters.BuiltPrincipalsResolve | internal/controller/common/configmap.go:295-317 | After the realm is put in, every principal in a group's built ConfigMap names the cluster and namespace the group was registered for |

## Witnesses and helpers

These are not results about the operator but show that the results above speak about something, or serve them.

- `ShellSignalProofs.WindowIsReached`: in every setting some run reaches the window between trap and process id.
- `Kerberos.InertExamples`: the realm EXAMPLE.COM is inert, a realm of one character never is.
- `ConfigMaps.IncompleteAddressChangesNothing`: the first step fails, so a missing znode key changes no data.
- `Roles.TablesAgree`: the port tables of the roles fit together.
- `Services.OwnLabelsSelectExactly`: what the metrics Service would select by its own labels, which it does not use.
- `Clusters.ClusterReconciler.GetImage`: computes `Clusters.ImageOf`, which `Clusters.ImagesAgree` is about.

## Left out

- Kubernetes API calls, readiness, garbage collection, status updates and the manager: fetches and applies appear as arbitrary outcomes or as inputs.
- operator-go is not part of this model: merging, XML and Vector files, logging files and `GetObject` are arbitrary outcomes, builders append and insert, and the values of its constants (directories under /kubedoop, label keys, vector.yaml) are assumptions; no main result depends on their values beyond their being different from each other.
- The full name of a group is taken to be cluster-role-group, as test/e2e/default/hbase-assert.yaml:16 shows it.
- The three role packages, and the three copies of each role type, differ in names only; each shape is modelled once, with the role as a parameter.
- The image, the stopped flag, labels, owner references and merged overrides are not carried into the containers.
- Probe timings, security contexts, volume modes and the request sizes of the secret volumes: constants without a property.
- Indentation by `IndentTab4Spaces` is not modelled.
- The Go types int32 and int are unbounded integers here; the code does no arithmetic on them.
- SHA-256 is an arbitrary sequence of 32 bytes: nothing about its strength is used or claimed.
- Decoding of base64, URLs and principals is a reference definition of this model; the code only produces them. Line breaks inside base64 are not accepted.
- HBase, HDFS and ZooKeeper themselves, and file system effects other than overwriting by `cp` and editing by `sed`.
- `GetDiscoveryConfig` (internal/controller/authz/krb5.go:118-127) has no caller.
- DeepCopyObject only wraps DeepCopy.
- DeepCopies.Foreign.DeepCopyInto: stands for the types of other packages, whose deep copies are taken to keep the contract proved here for one struct with a slice.
- DeepCopies.RoleGroupMap.CopyEntries: the map holds its structs by reference and making and filling are one loop, because Dafny has no struct values on the heap; sharing between entries and originals is still visible.
- DeepCopies.HbaseClusterList.CopyItems: elements are created as the loop reaches them instead of all at once.
- ShellSignalProofs.NeverStuck: progress is about what can happen; that the scheduler lets the shell run and that the server exits after a TERM are not claimed.
- ShellSignalProofs.EarlyTermEndsTheShell: TERM handling inside the handler is left open by the standard and by the model; the results hold for both readings.
- Kerberos.RealmIsSubstituted: for realms free of `$`, `&`, `\`, `/` and newlines. A failing `grep` is hidden by `export` and gives the empty realm, which is included.
- Kerberos.RunningTwiceIsRunningOnceExactly: for realms free of `$`, `\`, `/` and newlines; the last three end or escape the replacement part, so that `sed` no longer sees this one command.
- StatefulSets.SetupResult: describes the realm commands for realms without `\`, `/` and newlines, for the same reason.
- StatefulSets.RealmRuns: the same.
- Kerberos.HostIdentifiesCluster: for namespaces without dots, as Kubernetes requires of a namespace.
- Oidc.IssuerParsesBack: for hosts without a colon, since section 3.2.2 of RFC 3986 wants brackets around an IPv6 address and the code adds none.
- StatefulSets.StatefulSetBuilder.Build: asks that host and path of the provider be byte strings, as every Go string is.
- ConfigMaps.ConfigMapBuilder.AddHbaseSite: properties are kept as a map; their order and the XML text are not modelled. The map of JVM options has one entry, so its walk has one order.
