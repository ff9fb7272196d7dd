/**
 The generated deep-copy functions, on Go's memory.  A class here is a Go struct that something points
 to, and a nullable field is a pointer, slice or map that may be nil.  Every DeepCopyInto first assigns
 the whole struct, so that the copy shares what the original points to, and then replaces each shared
 part by a copy of its own.

 Repr holds the struct and everything that can be reached from it; View is the value it stands for.
 The input may share substructure in any way.
 */
module DeepCopies {
  import opened Options
  import A = ApiTypes

  // A []string that may be nil, as a value.
  ghost function ViewSlice(a: array?<string>): Option<seq<string>>
    reads a
  {
    if a == null then None else Some(a[..])
  }

  // make and copy
  method CopySlice(a: array<string>) returns (copy: array<string>)
    ensures fresh(copy) && copy[..] == a[..]
  {
    copy := new string[a.Length];
    for i := 0 to a.Length
      invariant copy[..i] == a[..i]
    {
      copy[i] := a[i];
    }
    assert copy[..] == copy[..a.Length] == a[..a.Length] == a[..];
  }

  // *int32
  class Int32 {
    var value: int

    constructor ()
      ensures value == 0
    {
      value := 0;
    }
  }

  // A struct of another package; its deep copy keeps the same contract as the ones generated here.
  class Foreign {
    var scalars: string
    var items: array?<string>
    ghost var Repr: set<object>

    ghost predicate Valid()
      reads this, Repr
      ensures Valid() ==> this in Repr
    {
      && this in Repr
      && (items != null ==> items in Repr)
    }

    ghost function View(): A.Foreign
      requires Valid()
      reads this, Repr
    {
      A.Foreign(scalars, ViewSlice(items))
    }

    constructor ()
      ensures Valid() && Repr == {this}
    {
      scalars, items := "", null;
      Repr := {this};
    }

    method DeepCopyInto(out: Foreign)
      requires Valid() && out !in Repr
      modifies out
      ensures out.Valid() && fresh(out.Repr - {out})
      ensures out.View() == old(View())
    {
      out.scalars, out.items := scalars, items;
      out.Repr := {out};
      if items != null {
        out.items := CopySlice(items);
        out.Repr := out.Repr + {out.items};
      }
    }

    static method DeepCopy(src: Foreign?) returns (copy: Foreign?)
      requires src != null ==> src.Valid()
      ensures src == null <==> copy == null
      ensures copy != null ==> copy.Valid() && fresh(copy.Repr) && copy.View() == src.View()
    {
      if src == null {
        return null;
      }
      var out := new Foreign();
      src.DeepCopyInto(out);
      return out;
    }
  }

  class OidcSpec {
    var clientCredentialsSecret: string
    var extraScopes: array?<string>
    ghost var Repr: set<object>

    ghost predicate Valid()
      reads this, Repr
      ensures Valid() ==> this in Repr
    {
      && this in Repr
      && (extraScopes != null ==> extraScopes in Repr)
    }

    ghost function View(): A.OidcSpec
      requires Valid()
      reads this, Repr
    {
      A.OidcSpec(clientCredentialsSecret, ViewSlice(extraScopes))
    }

    constructor ()
      ensures Valid() && Repr == {this}
    {
      clientCredentialsSecret, extraScopes := "", null;
      Repr := {this};
    }

    method DeepCopyInto(out: OidcSpec)
      requires Valid() && out !in Repr
      modifies out
      ensures out.Valid() && fresh(out.Repr - {out})
      ensures out.View() == old(View())
    {
      out.clientCredentialsSecret, out.extraScopes := clientCredentialsSecret, extraScopes;
      out.Repr := {out};
      if extraScopes != null {
        out.extraScopes := CopySlice(extraScopes);
        out.Repr := out.Repr + {out.extraScopes};
      }
    }

    static method DeepCopy(src: OidcSpec?) returns (copy: OidcSpec?)
      requires src != null ==> src.Valid()
      ensures src == null <==> copy == null
      ensures copy != null ==> copy.Valid() && fresh(copy.Repr) && copy.View() == src.View()
    {
      if src == null {
        return null;
      }
      var out := new OidcSpec();
      src.DeepCopyInto(out);
      return out;
    }
  }

  class AuthenticationSpec {
    var authenticationClass: string
    var oidc: OidcSpec?
    var kerberosSecretClass: string
    var tlsSecretClass: string
    ghost var Repr: set<object>

    ghost predicate Valid()
      reads this, Repr
      ensures Valid() ==> this in Repr
    {
      && this in Repr
      && (oidc != null ==> oidc in Repr && oidc.Repr <= Repr && oidc.Valid())
    }

    ghost function View(): A.AuthenticationSpec
      requires Valid()
      reads this, Repr
    {
      A.AuthenticationSpec(authenticationClass,
                           if oidc == null then None else Some(oidc.View()),
                           kerberosSecretClass,
                           tlsSecretClass)
    }

    constructor ()
      ensures Valid() && Repr == {this}
    {
      authenticationClass, oidc, kerberosSecretClass, tlsSecretClass := "", null, "", "";
      Repr := {this};
    }

    method DeepCopyInto(out: AuthenticationSpec)
      requires Valid() && out !in Repr
      modifies out
      ensures out.Valid() && fresh(out.Repr - {out})
      ensures out.View() == old(View())
    {
      hide OidcSpec.Valid, OidcSpec.View;
      out.authenticationClass, out.oidc, out.kerberosSecretClass := authenticationClass, oidc, kerberosSecretClass;
      out.tlsSecretClass := tlsSecretClass;
      out.Repr := {out};
      if oidc != null {
        out.oidc := OidcSpec.DeepCopy(oidc);
        out.Repr := out.Repr + out.oidc.Repr;
      }
    }

    static method DeepCopy(src: AuthenticationSpec?) returns (copy: AuthenticationSpec?)
      requires src != null ==> src.Valid()
      ensures src == null <==> copy == null
      ensures copy != null ==> copy.Valid() && fresh(copy.Repr) && copy.View() == src.View()
    {
      if src == null {
        return null;
      }
      var out := new AuthenticationSpec();
      src.DeepCopyInto(out);
      return out;
    }
  }

  class ClusterConfigSpec {
    var zookeeperConfigMapName: string
    var hdfsConfigMapName: string
    var listenerClass: string
    var authentication: AuthenticationSpec?
    var vectorAggregatorConfigMapName: string
    ghost var Repr: set<object>

    ghost predicate Valid()
      reads this, Repr
      ensures Valid() ==> this in Repr
    {
      && this in Repr
      && (authentication != null ==> authentication in Repr && authentication.Repr <= Repr && authentication.Valid())
    }

    ghost function View(): A.ClusterConfigSpec
      requires Valid()
      reads this, Repr
    {
      A.ClusterConfigSpec(zookeeperConfigMapName,
                          hdfsConfigMapName,
                          listenerClass,
                          if authentication == null then None else Some(authentication.View()),
                          vectorAggregatorConfigMapName)
    }

    constructor ()
      ensures Valid() && Repr == {this}
    {
      zookeeperConfigMapName, hdfsConfigMapName, listenerClass, authentication, vectorAggregatorConfigMapName := "", "", "", null, "";
      Repr := {this};
    }

    method DeepCopyInto(out: ClusterConfigSpec)
      requires Valid() && out !in Repr
      modifies out
      ensures out.Valid() && fresh(out.Repr - {out})
      ensures out.View() == old(View())
    {
      hide AuthenticationSpec.Valid, AuthenticationSpec.View;
      out.zookeeperConfigMapName, out.hdfsConfigMapName, out.listenerClass := zookeeperConfigMapName, hdfsConfigMapName, listenerClass;
      out.authentication, out.vectorAggregatorConfigMapName := authentication, vectorAggregatorConfigMapName;
      out.Repr := {out};
      if authentication != null {
        out.authentication := AuthenticationSpec.DeepCopy(authentication);
        out.Repr := out.Repr + out.authentication.Repr;
      }
    }

    static method DeepCopy(src: ClusterConfigSpec?) returns (copy: ClusterConfigSpec?)
      requires src != null ==> src.Valid()
      ensures src == null <==> copy == null
      ensures copy != null ==> copy.Valid() && fresh(copy.Repr) && copy.View() == src.View()
    {
      if src == null {
        return null;
      }
      var out := new ClusterConfigSpec();
      src.DeepCopyInto(out);
      return out;
    }
  }

  // Structs without references: assigning the struct copies it.
  class ImageSpec {
    var fields: A.ImageSpec

    constructor (fields: A.ImageSpec)
      ensures this.fields == fields
    {
      this.fields := fields;
    }
  }

  class ClusterOperationSpec {
    var fields: A.ClusterOperationSpec

    constructor (fields: A.ClusterOperationSpec)
      ensures this.fields == fields
    {
      this.fields := fields;
    }
  }

  // MasterConfigSpec, RegionConfigSpec and RestServerConfigSpec, whose code is the same.
  class RoleConfigSpec {
    var roleGroupConfig: Foreign?
    ghost var Repr: set<object>

    ghost predicate Valid()
      reads this, Repr
      ensures Valid() ==> this in Repr
    {
      && this in Repr
      && (roleGroupConfig != null ==> roleGroupConfig in Repr && roleGroupConfig.Repr <= Repr && roleGroupConfig.Valid())
    }

    ghost function View(): A.RoleConfigSpec
      requires Valid()
      reads this, Repr
    {
      A.RoleConfigSpec(if roleGroupConfig == null then None else Some(roleGroupConfig.View()))
    }

    constructor ()
      ensures Valid() && Repr == {this}
    {
      roleGroupConfig := null;
      Repr := {this};
    }

    method DeepCopyInto(out: RoleConfigSpec)
      requires Valid() && out !in Repr
      modifies out
      ensures out.Valid() && fresh(out.Repr - {out})
      ensures out.View() == old(View())
    {
      hide Foreign.Valid, Foreign.View;
      out.roleGroupConfig := roleGroupConfig;
      out.Repr := {out};
      if roleGroupConfig != null {
        out.roleGroupConfig := Foreign.DeepCopy(roleGroupConfig);
        out.Repr := out.Repr + out.roleGroupConfig.Repr;
      }
    }

    static method DeepCopy(src: RoleConfigSpec?) returns (copy: RoleConfigSpec?)
      requires src != null ==> src.Valid()
      ensures src == null <==> copy == null
      ensures copy != null ==> copy.Valid() && fresh(copy.Repr) && copy.View() == src.View()
    {
      if src == null {
        return null;
      }
      var out := new RoleConfigSpec();
      src.DeepCopyInto(out);
      return out;
    }
  }

  // MasterRoleGroupSpec, RegionServerRoleGroupSpec and RestServerRoleGroupSpec
  class RoleGroupSpec {
    var replicas: Int32?
    var config: RoleConfigSpec?
    var overrides: Foreign?
    ghost var Repr: set<object>

    ghost predicate Valid()
      reads this, Repr
      ensures Valid() ==> this in Repr
    {
      && this in Repr
      && (replicas != null ==> replicas in Repr)
      && (config != null ==> config in Repr && config.Repr <= Repr && config.Valid())
      && (overrides != null ==> overrides in Repr && overrides.Repr <= Repr && overrides.Valid())
    }

    ghost function View(): A.RoleGroupSpec
      requires Valid()
      reads this, Repr
    {
      A.RoleGroupSpec(if replicas == null then None else Some(replicas.value),
                      if config == null then None else Some(config.View()),
                      if overrides == null then None else Some(overrides.View()))
    }

    constructor ()
      ensures Valid() && Repr == {this}
    {
      replicas, config, overrides := null, null, null;
      Repr := {this};
    }

    // Go's *out = *in, which shares everything that src points to.
    method Assign(src: RoleGroupSpec)
      modifies this
      ensures replicas == src.replicas && config == src.config && overrides == src.overrides
    {
      replicas, config, overrides := src.replicas, src.config, src.overrides;
    }

    // Each of these replaces one part that is still shared by a copy of its own; nil stays nil.
    method UnaliasReplicas() returns (ghost part: set<object>)
      modifies this`replicas
      ensures fresh(part)
      ensures replicas == null <==> old(replicas) == null
      ensures replicas != null ==> replicas in part && replicas.value == old(replicas.value)
    {
      part := {};
      if replicas != null {
        var copy := new Int32();
        copy.value := replicas.value;
        replicas := copy;
        part := {copy};
      }
    }

    method UnaliasConfig() returns (ghost part: set<object>)
      requires config != null ==> config.Valid()
      modifies this`config
      ensures fresh(part)
      ensures config == null <==> old(config) == null
      ensures config != null ==>
                config in part && config.Repr <= part && config.Valid() && config.View() == old(config.View())
    {
      part := {};
      if config != null {
        config := RoleConfigSpec.DeepCopy(config);
        part := config.Repr;
      }
    }

    method UnaliasOverrides() returns (ghost part: set<object>)
      requires overrides != null ==> overrides.Valid()
      modifies this`overrides
      ensures fresh(part)
      ensures overrides == null <==> old(overrides) == null
      ensures overrides != null ==>
                overrides in part && overrides.Repr <= part && overrides.Valid() && overrides.View() == old(overrides.View())
    {
      part := {};
      if overrides != null {
        overrides := Foreign.DeepCopy(overrides);
        part := overrides.Repr;
      }
    }

    method DeepCopyInto(out: RoleGroupSpec)
      requires Valid() && out !in Repr
      modifies out
      ensures out.Valid() && fresh(out.Repr - {out})
      ensures out.View() == old(View())
    {
      hide RoleConfigSpec.Valid, RoleConfigSpec.View, Foreign.Valid, Foreign.View;
      out.Assign(this);
      ghost var replicasPart := out.UnaliasReplicas();
      ghost var configPart := out.UnaliasConfig();
      ghost var overridesPart := out.UnaliasOverrides();
      out.Repr := {out} + replicasPart + configPart + overridesPart;
    }

    static method DeepCopy(src: RoleGroupSpec?) returns (copy: RoleGroupSpec?)
      requires src != null ==> src.Valid()
      ensures src == null <==> copy == null
      ensures copy != null ==> copy.Valid() && fresh(copy.Repr) && copy.View() == src.View()
    {
      hide RoleGroupSpec.View;
      if src == null {
        return null;
      }
      var out := new RoleGroupSpec();
      src.DeepCopyInto(out);
      return out;
    }
  }

  // map[string]MasterRoleGroupSpec and its two likenesses; the values are structs held by the map.
  class RoleGroupMap {
    var entries: map<string, RoleGroupSpec>
    ghost var Repr: set<object>

    ghost predicate Valid()
      reads this, Repr
      ensures Valid() ==> this in Repr
    {
      && this in Repr
      && forall k :: k in entries ==> entries[k] in Repr && entries[k].Repr <= Repr && entries[k].Valid()
    }

    ghost function View(): map<string, A.RoleGroupSpec>
      requires Valid()
      reads this, Repr
    {
      map k | k in entries :: entries[k].View()
    }

    constructor ()
      ensures Valid() && Repr == {this} && entries == map[]
    {
      entries := map[];
      Repr := {this};
    }

    // A map with the given entries.
    constructor Of(entries: map<string, RoleGroupSpec>, ghost parts: set<object>)
      requires forall k :: k in entries ==> entries[k] in parts && entries[k].Repr <= parts && entries[k].Valid()
      ensures Valid() && Repr == {this} + parts && this.entries == entries
    {
      hide RoleGroupSpec.Valid;
      this.entries := entries;
      Repr := {this} + parts;
    }

    // make, and then a range over the map in any order.
    method CopyEntries() returns (built: map<string, RoleGroupSpec>, ghost parts: set<object>)
      requires Valid()
      ensures built.Keys == entries.Keys && fresh(parts)
      ensures forall k :: k in built ==> built[k] in parts && built[k].Repr <= parts && built[k].Valid()
      ensures forall k :: k in built ==> built[k].View() == entries[k].View()
    {
      hide RoleGroupSpec.Valid, RoleGroupSpec.View;
      var keys := entries.Keys;
      built, parts := map[], {};
      while keys != {}
        invariant keys <= entries.Keys && built.Keys == entries.Keys - keys
        invariant fresh(parts)
        invariant forall k :: k in built ==> built[k] in parts && built[k].Repr <= parts && built[k].Valid()
        invariant forall k :: k in built ==> built[k].View() == entries[k].View()
        decreases keys
      {
        var key :| key in keys;
        var val := RoleGroupSpec.DeepCopy(entries[key]);
        built := built[key := val];
        parts := parts + val.Repr;
        keys := keys - {key};
      }
    }

    method Copy() returns (copy: RoleGroupMap)
      requires Valid()
      ensures copy.Valid() && fresh(copy.Repr)
      ensures copy.View() == View()
    {
      hide RoleGroupSpec.Valid, RoleGroupSpec.View;
      var built, parts := CopyEntries();
      copy := new RoleGroupMap.Of(built, parts);
    }

    static method DeepCopy(src: RoleGroupMap?) returns (copy: RoleGroupMap?)
      requires src != null ==> src.Valid()
      ensures src == null <==> copy == null
      ensures copy != null ==> copy.Valid() && fresh(copy.Repr) && copy.View() == src.View()
    {
      hide RoleGroupMap.Valid, RoleGroupMap.View;
      if src == null {
        return null;
      }
      copy := src.Copy();
    }
  }

  // MasterSpec, RegionServerSpec and RestServerSpec
  class RoleSpec {
    var config: RoleConfigSpec?
    var roleGroups: RoleGroupMap?
    var roleConfig: Foreign?
    var overrides: Foreign?
    ghost var Repr: set<object>

    ghost predicate Valid()
      reads this, Repr
      ensures Valid() ==> this in Repr
    {
      && this in Repr
      && (config != null ==> config in Repr && config.Repr <= Repr && config.Valid())
      && (roleGroups != null ==> roleGroups in Repr && roleGroups.Repr <= Repr && roleGroups.Valid())
      && (roleConfig != null ==> roleConfig in Repr && roleConfig.Repr <= Repr && roleConfig.Valid())
      && (overrides != null ==> overrides in Repr && overrides.Repr <= Repr && overrides.Valid())
    }

    ghost function View(): A.RoleSpec
      requires Valid()
      reads this, Repr
    {
      A.RoleSpec(if config == null then None else Some(config.View()),
                 if roleGroups == null then None else Some(roleGroups.View()),
                 if roleConfig == null then None else Some(roleConfig.View()),
                 if overrides == null then None else Some(overrides.View()))
    }

    constructor ()
      ensures Valid() && Repr == {this}
    {
      config, roleGroups, roleConfig, overrides := null, null, null, null;
      Repr := {this};
    }

    // Go's *out = *in, which shares everything that src points to.
    method Assign(src: RoleSpec)
      modifies this
      ensures config == src.config && roleGroups == src.roleGroups && roleConfig == src.roleConfig
      ensures overrides == src.overrides
    {
      config, roleGroups, roleConfig := src.config, src.roleGroups, src.roleConfig;
      overrides := src.overrides;
    }

    // Each of these replaces one part that is still shared by a copy of its own; nil stays nil.
    method UnaliasConfig() returns (ghost part: set<object>)
      requires config != null ==> config.Valid()
      modifies this`config
      ensures fresh(part)
      ensures config == null <==> old(config) == null
      ensures config != null ==>
                config in part && config.Repr <= part && config.Valid() && config.View() == old(config.View())
    {
      part := {};
      if config != null {
        config := RoleConfigSpec.DeepCopy(config);
        part := config.Repr;
      }
    }

    method UnaliasRoleGroups() returns (ghost part: set<object>)
      requires roleGroups != null ==> roleGroups.Valid()
      modifies this`roleGroups
      ensures fresh(part)
      ensures roleGroups == null <==> old(roleGroups) == null
      ensures roleGroups != null ==>
                roleGroups in part && roleGroups.Repr <= part && roleGroups.Valid() && roleGroups.View() == old(roleGroups.View())
    {
      part := {};
      if roleGroups != null {
        roleGroups := RoleGroupMap.DeepCopy(roleGroups);
        part := roleGroups.Repr;
      }
    }

    method UnaliasRoleConfig() returns (ghost part: set<object>)
      requires roleConfig != null ==> roleConfig.Valid()
      modifies this`roleConfig
      ensures fresh(part)
      ensures roleConfig == null <==> old(roleConfig) == null
      ensures roleConfig != null ==>
                roleConfig in part && roleConfig.Repr <= part && roleConfig.Valid() && roleConfig.View() == old(roleConfig.View())
    {
      part := {};
      if roleConfig != null {
        roleConfig := Foreign.DeepCopy(roleConfig);
        part := roleConfig.Repr;
      }
    }

    method UnaliasOverrides() returns (ghost part: set<object>)
      requires overrides != null ==> overrides.Valid()
      modifies this`overrides
      ensures fresh(part)
      ensures overrides == null <==> old(overrides) == null
      ensures overrides != null ==>
                overrides in part && overrides.Repr <= part && overrides.Valid() && overrides.View() == old(overrides.View())
    {
      part := {};
      if overrides != null {
        overrides := Foreign.DeepCopy(overrides);
        part := overrides.Repr;
      }
    }

    method UnaliasGroup() returns (ghost part: set<object>)
      requires config != null ==> config.Valid() && this !in config.Repr
      requires roleGroups != null ==> roleGroups.Valid() && this !in roleGroups.Repr
      modifies this`config, this`roleGroups
      ensures fresh(part)
      ensures config == null <==> old(config) == null
      ensures config != null ==>
                config in part && config.Repr <= part && config.Valid() && config.View() == old(config.View())
      ensures roleGroups == null <==> old(roleGroups) == null
      ensures roleGroups != null ==>
                roleGroups in part && roleGroups.Repr <= part && roleGroups.Valid() && roleGroups.View() == old(roleGroups.View())
    {
      hide RoleConfigSpec.Valid, RoleConfigSpec.View, RoleGroupMap.Valid, RoleGroupMap.View;
      ghost var configPart := UnaliasConfig();
      ghost var roleGroupsPart := UnaliasRoleGroups();
      part := configPart + roleGroupsPart;
    }

    method UnaliasRole() returns (ghost part: set<object>)
      requires roleConfig != null ==> roleConfig.Valid() && this !in roleConfig.Repr
      requires overrides != null ==> overrides.Valid() && this !in overrides.Repr
      modifies this`roleConfig, this`overrides
      ensures fresh(part)
      ensures roleConfig == null <==> old(roleConfig) == null
      ensures roleConfig != null ==>
                roleConfig in part && roleConfig.Repr <= part && roleConfig.Valid() && roleConfig.View() == old(roleConfig.View())
      ensures overrides == null <==> old(overrides) == null
      ensures overrides != null ==>
                overrides in part && overrides.Repr <= part && overrides.Valid() && overrides.View() == old(overrides.View())
    {
      hide Foreign.Valid, Foreign.View;
      ghost var roleConfigPart := UnaliasRoleConfig();
      ghost var overridesPart := UnaliasOverrides();
      part := roleConfigPart + overridesPart;
    }

    method DeepCopyInto(out: RoleSpec)
      requires Valid() && out !in Repr
      modifies out
      ensures out.Valid() && fresh(out.Repr - {out})
      ensures out.View() == old(View())
    {
      hide RoleConfigSpec.Valid, RoleConfigSpec.View, RoleGroupMap.Valid, RoleGroupMap.View, Foreign.Valid, Foreign.View;
      out.Assign(this);
      ghost var groupParts := out.UnaliasGroup();
      ghost var roleParts := out.UnaliasRole();
      out.Repr := {out} + groupParts + roleParts;
    }

    static method DeepCopy(src: RoleSpec?) returns (copy: RoleSpec?)
      requires src != null ==> src.Valid()
      ensures src == null <==> copy == null
      ensures copy != null ==> copy.Valid() && fresh(copy.Repr) && copy.View() == src.View()
    {
      hide RoleSpec.View;
      if src == null {
        return null;
      }
      var out := new RoleSpec();
      src.DeepCopyInto(out);
      return out;
    }
  }

  class HbaseClusterSpec {
    var image: ImageSpec?
    var clusterConfig: ClusterConfigSpec?
    var clusterOperation: ClusterOperationSpec?
    var master: RoleSpec?
    var regionServer: RoleSpec?
    var restServer: RoleSpec?
    ghost var Repr: set<object>

    ghost predicate Valid()
      reads this, Repr
      ensures Valid() ==> this in Repr
    {
      && this in Repr
      && (image != null ==> image in Repr)
      && (clusterConfig != null ==> clusterConfig in Repr && clusterConfig.Repr <= Repr && clusterConfig.Valid())
      && (clusterOperation != null ==> clusterOperation in Repr)
      && (master != null ==> master in Repr && master.Repr <= Repr && master.Valid())
      && (regionServer != null ==> regionServer in Repr && regionServer.Repr <= Repr && regionServer.Valid())
      && (restServer != null ==> restServer in Repr && restServer.Repr <= Repr && restServer.Valid())
    }

    ghost function View(): A.HbaseClusterSpec
      requires Valid()
      reads this, Repr
    {
      A.HbaseClusterSpec(if image == null then None else Some(image.fields),
                         if clusterConfig == null then None else Some(clusterConfig.View()),
                         if clusterOperation == null then None else Some(clusterOperation.fields),
                         if master == null then None else Some(master.View()),
                         if regionServer == null then None else Some(regionServer.View()),
                         if restServer == null then None else Some(restServer.View()))
    }

    constructor ()
      ensures Valid() && Repr == {this}
    {
      image, clusterConfig, clusterOperation, master, regionServer, restServer := null, null, null, null, null, null;
      Repr := {this};
    }

    // Go's *out = *in, which shares everything that src points to.
    method Assign(src: HbaseClusterSpec)
      modifies this
      ensures image == src.image && clusterConfig == src.clusterConfig && clusterOperation == src.clusterOperation
      ensures master == src.master && regionServer == src.regionServer && restServer == src.restServer
    {
      image, clusterConfig, clusterOperation := src.image, src.clusterConfig, src.clusterOperation;
      master, regionServer, restServer := src.master, src.regionServer, src.restServer;
    }

    // Each of these replaces one part that is still shared by a copy of its own; nil stays nil.
    method UnaliasImage() returns (ghost part: set<object>)
      modifies this`image
      ensures fresh(part)
      ensures image == null <==> old(image) == null
      ensures image != null ==> image in part && image.fields == old(image.fields)
    {
      part := {};
      if image != null {
        image := new ImageSpec(image.fields);
        part := {image};
      }
    }

    method UnaliasClusterConfig() returns (ghost part: set<object>)
      requires clusterConfig != null ==> clusterConfig.Valid()
      modifies this`clusterConfig
      ensures fresh(part)
      ensures clusterConfig == null <==> old(clusterConfig) == null
      ensures clusterConfig != null ==>
                clusterConfig in part && clusterConfig.Repr <= part && clusterConfig.Valid() && clusterConfig.View() == old(clusterConfig.View())
    {
      part := {};
      if clusterConfig != null {
        clusterConfig := ClusterConfigSpec.DeepCopy(clusterConfig);
        part := clusterConfig.Repr;
      }
    }

    method UnaliasClusterOperation() returns (ghost part: set<object>)
      modifies this`clusterOperation
      ensures fresh(part)
      ensures clusterOperation == null <==> old(clusterOperation) == null
      ensures clusterOperation != null ==> clusterOperation in part && clusterOperation.fields == old(clusterOperation.fields)
    {
      part := {};
      if clusterOperation != null {
        clusterOperation := new ClusterOperationSpec(clusterOperation.fields);
        part := {clusterOperation};
      }
    }

    method UnaliasMaster() returns (ghost part: set<object>)
      requires master != null ==> master.Valid()
      modifies this`master
      ensures fresh(part)
      ensures master == null <==> old(master) == null
      ensures master != null ==>
                master in part && master.Repr <= part && master.Valid() && master.View() == old(master.View())
    {
      part := {};
      if master != null {
        master := RoleSpec.DeepCopy(master);
        part := master.Repr;
      }
    }

    method UnaliasRegionServer() returns (ghost part: set<object>)
      requires regionServer != null ==> regionServer.Valid()
      modifies this`regionServer
      ensures fresh(part)
      ensures regionServer == null <==> old(regionServer) == null
      ensures regionServer != null ==>
                regionServer in part && regionServer.Repr <= part && regionServer.Valid() && regionServer.View() == old(regionServer.View())
    {
      part := {};
      if regionServer != null {
        regionServer := RoleSpec.DeepCopy(regionServer);
        part := regionServer.Repr;
      }
    }

    method UnaliasRestServer() returns (ghost part: set<object>)
      requires restServer != null ==> restServer.Valid()
      modifies this`restServer
      ensures fresh(part)
      ensures restServer == null <==> old(restServer) == null
      ensures restServer != null ==>
                restServer in part && restServer.Repr <= part && restServer.Valid() && restServer.View() == old(restServer.View())
    {
      part := {};
      if restServer != null {
        restServer := RoleSpec.DeepCopy(restServer);
        part := restServer.Repr;
      }
    }

    method UnaliasSettings() returns (ghost part: set<object>)
      requires clusterConfig != null ==> clusterConfig.Valid() && this !in clusterConfig.Repr
      modifies this`image, this`clusterConfig, this`clusterOperation
      ensures fresh(part)
      ensures image == null <==> old(image) == null
      ensures image != null ==> image in part && image.fields == old(image.fields)
      ensures clusterConfig == null <==> old(clusterConfig) == null
      ensures clusterConfig != null ==>
                clusterConfig in part && clusterConfig.Repr <= part && clusterConfig.Valid() && clusterConfig.View() == old(clusterConfig.View())
      ensures clusterOperation == null <==> old(clusterOperation) == null
      ensures clusterOperation != null ==> clusterOperation in part && clusterOperation.fields == old(clusterOperation.fields)
    {
      hide ClusterConfigSpec.Valid, ClusterConfigSpec.View;
      ghost var imagePart := UnaliasImage();
      ghost var clusterConfigPart := UnaliasClusterConfig();
      ghost var clusterOperationPart := UnaliasClusterOperation();
      part := imagePart + clusterConfigPart + clusterOperationPart;
    }

    method UnaliasRoles() returns (ghost part: set<object>)
      requires master != null ==> master.Valid() && this !in master.Repr
      requires regionServer != null ==> regionServer.Valid() && this !in regionServer.Repr
      requires restServer != null ==> restServer.Valid() && this !in restServer.Repr
      modifies this`master, this`regionServer, this`restServer
      ensures fresh(part)
      ensures master == null <==> old(master) == null
      ensures master != null ==>
                master in part && master.Repr <= part && master.Valid() && master.View() == old(master.View())
      ensures regionServer == null <==> old(regionServer) == null
      ensures regionServer != null ==>
                regionServer in part && regionServer.Repr <= part && regionServer.Valid() && regionServer.View() == old(regionServer.View())
      ensures restServer == null <==> old(restServer) == null
      ensures restServer != null ==>
                restServer in part && restServer.Repr <= part && restServer.Valid() && restServer.View() == old(restServer.View())
    {
      hide RoleSpec.Valid, RoleSpec.View;
      ghost var masterPart := UnaliasMaster();
      ghost var regionServerPart := UnaliasRegionServer();
      ghost var restServerPart := UnaliasRestServer();
      part := masterPart + regionServerPart + restServerPart;
    }

    method DeepCopyInto(out: HbaseClusterSpec)
      requires Valid() && out !in Repr
      modifies out
      ensures out.Valid() && fresh(out.Repr - {out})
      ensures out.View() == old(View())
    {
      hide ClusterConfigSpec.Valid, ClusterConfigSpec.View, RoleSpec.Valid, RoleSpec.View;
      out.Assign(this);
      ghost var settingsParts := out.UnaliasSettings();
      ghost var rolesParts := out.UnaliasRoles();
      out.Repr := {out} + settingsParts + rolesParts;
    }

    static method DeepCopy(src: HbaseClusterSpec?) returns (copy: HbaseClusterSpec?)
      requires src != null ==> src.Valid()
      ensures src == null <==> copy == null
      ensures copy != null ==> copy.Valid() && fresh(copy.Repr) && copy.View() == src.View()
    {
      hide HbaseClusterSpec.View;
      if src == null {
        return null;
      }
      var out := new HbaseClusterSpec();
      src.DeepCopyInto(out);
      return out;
    }
  }

  class HbaseClusterStatus {
    var conditions: Option<seq<Foreign>>  // a slice, as its elements
    ghost var Repr: set<object>

    ghost predicate Valid()
      reads this, Repr
      ensures Valid() ==> this in Repr
    {
      && this in Repr
      && (conditions.Some? ==>
            forall i :: 0 <= i < |conditions.value| ==>
              var x := conditions.value[i];
              x in Repr && x.Repr <= Repr && x.Valid())
    }

    ghost function View(): A.HbaseClusterStatus
      requires Valid()
      reads this, Repr
    {
      A.HbaseClusterStatus(
        if conditions.None? then None
        else
          var c := conditions.value;
          Some(seq(|c|, i requires 0 <= i < |c| && Valid() && conditions == Some(c) reads this, Repr => c[i].View())))
    }

    constructor ()
      ensures Valid() && Repr == {this}
    {
      conditions := None;
      Repr := {this};
    }

    // make, and then a loop over the elements; each element is made when the loop comes to it.
    method CopyConditions(c: seq<Foreign>) returns (copy: seq<Foreign>, ghost parts: set<object>)
      requires Valid() && conditions == Some(c)
      ensures fresh(parts) && |copy| == |c|
      ensures forall i :: 0 <= i < |c| ==> copy[i] in parts && copy[i].Repr <= parts && copy[i].Valid()
      ensures forall i :: 0 <= i < |c| ==> copy[i].View() == c[i].View()
    {
      hide Foreign.Valid, Foreign.View;
      copy, parts := [], {};
      for n := 0 to |c|
        invariant fresh(parts) && |copy| == n
        invariant forall i :: 0 <= i < n ==> copy[i] in parts && copy[i].Repr <= parts && copy[i].Valid()
        invariant forall i :: 0 <= i < n ==> copy[i].View() == c[i].View()
      {
        var x := new Foreign();
        c[n].DeepCopyInto(x);
        copy := copy + [x];
        parts := parts + x.Repr;
      }
    }

    method DeepCopyInto(out: HbaseClusterStatus)
      requires Valid() && out !in Repr
      modifies out
      ensures out.Valid() && fresh(out.Repr - {out})
      ensures out.View() == old(View())
    {
      hide Foreign.Valid, Foreign.View;
      out.conditions := conditions;
      out.Repr := {out};
      if conditions.Some? {
        var copy, parts := CopyConditions(conditions.value);
        out.conditions := Some(copy);
        out.Repr := out.Repr + parts;
        assert forall i :: 0 <= i < |copy| ==> copy[i].View() == old(conditions.value[i].View());
        assert out.View().conditions.value == old(View()).conditions.value;
      }
    }
  }

  class HbaseCluster {
    var typeMeta: string
    const objectMeta: Foreign  // held by value: part of this struct
    const spec: HbaseClusterSpec
    const status: HbaseClusterStatus
    ghost var Repr: set<object>

    // The memory of the struct itself.
    ghost function Slots(): set<object> {
      {this, objectMeta, spec, status}
    }

    ghost predicate Valid()
      reads this, Repr
      ensures Valid() ==> Slots() <= Repr
    {
      && this in Repr
      && objectMeta in Repr && objectMeta.Repr <= Repr && objectMeta.Valid()
      && spec in Repr && spec.Repr <= Repr && spec.Valid()
      && status in Repr && status.Repr <= Repr && status.Valid()
    }

    ghost function View(): A.HbaseCluster
      requires Valid()
      reads this, Repr
    {
      A.HbaseCluster(typeMeta, objectMeta.View(), spec.View(), status.View())
    }

    constructor ()
      ensures Valid() && fresh(Repr) && Repr == Slots()
    {
      typeMeta := "";
      objectMeta := new Foreign();
      spec := new HbaseClusterSpec();
      status := new HbaseClusterStatus();
      new;
      Repr := Slots();
    }

    method DeepCopyInto(out: HbaseCluster)
      requires Valid() && out.Slots() !! Repr
      modifies out.Slots()
      ensures out.Valid() && fresh(out.Repr - out.Slots())
      ensures out.View() == old(View())
    {
      hide Foreign.Valid, Foreign.View, HbaseClusterSpec.Valid, HbaseClusterSpec.View;
      hide HbaseClusterStatus.Valid, HbaseClusterStatus.View;
      out.typeMeta := typeMeta;
      objectMeta.DeepCopyInto(out.objectMeta);
      spec.DeepCopyInto(out.spec);
      status.DeepCopyInto(out.status);
      out.Repr := {out} + out.objectMeta.Repr + out.spec.Repr + out.status.Repr;
    }

    static method DeepCopy(src: HbaseCluster?) returns (copy: HbaseCluster?)
      requires src != null ==> src.Valid()
      ensures src == null <==> copy == null
      ensures copy != null ==> copy.Valid() && fresh(copy.Repr) && copy.View() == src.View()
    {
      hide HbaseCluster.View;
      if src == null {
        return null;
      }
      var out := new HbaseCluster();
      src.DeepCopyInto(out);
      return out;
    }
  }

  class HbaseClusterList {
    var typeMeta: string
    const listMeta: Foreign
    var items: Option<seq<HbaseCluster>>
    ghost var Repr: set<object>

    ghost predicate Valid()
      reads this, Repr
      ensures Valid() ==> this in Repr && listMeta in Repr
    {
      && this in Repr
      && listMeta in Repr && listMeta.Repr <= Repr && listMeta.Valid()
      && (items.Some? ==>
            forall i :: 0 <= i < |items.value| ==>
              var x := items.value[i];
              x in Repr && x.Repr <= Repr && x.Valid())
    }

    ghost function View(): A.HbaseClusterList
      requires Valid()
      reads this, Repr
    {
      A.HbaseClusterList(
        typeMeta,
        listMeta.View(),
        if items.None? then None
        else
          var c := items.value;
          Some(seq(|c|, i requires 0 <= i < |c| && Valid() && items == Some(c) reads this, Repr => c[i].View())))
    }

    constructor ()
      ensures Valid() && fresh(Repr) && Repr == {this, listMeta}
    {
      typeMeta, items := "", None;
      listMeta := new Foreign();
      new;
      Repr := {this, listMeta};
    }

    // make, and then a loop over the elements; each element is made when the loop comes to it.
    static method CopyItems(c: seq<HbaseCluster>) returns (copy: seq<HbaseCluster>, ghost parts: set<object>)
      requires forall i :: 0 <= i < |c| ==> c[i].Valid()
      ensures fresh(parts) && |copy| == |c|
      ensures forall i :: 0 <= i < |c| ==> copy[i] in parts && copy[i].Repr <= parts && copy[i].Valid()
      ensures forall i :: 0 <= i < |c| ==> copy[i].View() == c[i].View()
    {
      hide HbaseCluster.Valid, HbaseCluster.View;
      copy, parts := [], {};
      for n := 0 to |c|
        invariant fresh(parts) && |copy| == n
        invariant forall i :: 0 <= i < n ==> copy[i] in parts && copy[i].Repr <= parts && copy[i].Valid()
        invariant forall i :: 0 <= i < n ==> copy[i].View() == c[i].View()
      {
        var x := new HbaseCluster();
        c[n].DeepCopyInto(x);
        copy := copy + [x];
        parts := parts + x.Repr;
      }
    }

    // Replaces the elements that are still shared by copies; nil stays nil.
    method UnaliasItems() returns (ghost part: set<object>)
      requires items.Some? ==> forall i :: 0 <= i < |items.value| ==> items.value[i].Valid()
      requires items.Some? ==> forall i :: 0 <= i < |items.value| ==> this !in items.value[i].Repr
      modifies this`items
      ensures fresh(part) && (items.Some? <==> old(items).Some?)
      ensures items.Some? ==>
                && |items.value| == |old(items).value|
                && (forall i :: 0 <= i < |items.value| ==>
                      items.value[i] in part && items.value[i].Repr <= part && items.value[i].Valid())
                && (forall i :: 0 <= i < |items.value| ==> items.value[i].View() == old(items.value[i].View()))
    {
      hide HbaseCluster.Valid, HbaseCluster.View;
      part := {};
      if items.Some? {
        var copy, parts := CopyItems(items.value);
        items := Some(copy);
        part := parts;
      }
    }

    method DeepCopyInto(out: HbaseClusterList)
      requires Valid() && out !in Repr && out.listMeta !in Repr
      modifies out, out.listMeta
      ensures out.Valid() && fresh(out.Repr - {out, out.listMeta})
      ensures out.View() == old(View())
    {
      hide Foreign.Valid, Foreign.View, HbaseCluster.Valid, HbaseCluster.View;
      out.typeMeta, out.items := typeMeta, items;
      listMeta.DeepCopyInto(out.listMeta);
      ghost var part := out.UnaliasItems();
      out.Repr := {out} + out.listMeta.Repr + part;
      assert items.Some? ==> out.View().items.value == old(View()).items.value;
    }

    /**
     The copy is structurally equal to the original, everything it can reach is new, and the original
     is as it was.
     */
    static method DeepCopy(src: HbaseClusterList?) returns (copy: HbaseClusterList?)
      requires src != null ==> src.Valid()
      ensures src == null <==> copy == null
      ensures copy != null ==> copy.Valid() && fresh(copy.Repr) && copy.View() == old(src.View())
      ensures copy != null ==> src.Valid() && src.View() == old(src.View()) && src.Repr !! copy.Repr
    {
      hide HbaseClusterList.View;
      if src == null {
        return null;
      }
      var out := new HbaseClusterList();
      src.DeepCopyInto(out);
      return out;
    }
  }

  // ----- views tell structs apart -----

  // The same pointer shape: both nil, or neither.
  ghost predicate BothNil(a: object?, b: object?) {
    a == null <==> b == null
  }

  ghost predicate SameSlice(a: array?<string>, b: array?<string>)
    reads a, b
  {
    BothNil(a, b) && (a != null ==> a[..] == b[..])
  }

  /** Equal views mean equal fields, in this and every lemma below: so a copy with an equal view has each
      field of the original in its place. */
  lemma ForeignFields(a: Foreign, b: Foreign)
    requires a.Valid() && b.Valid()
    ensures a.View() == b.View() <==> a.scalars == b.scalars && SameSlice(a.items, b.items)
  {
  }

  lemma OidcFields(a: OidcSpec, b: OidcSpec)
    requires a.Valid() && b.Valid()
    ensures a.View() == b.View() <==>
            a.clientCredentialsSecret == b.clientCredentialsSecret && SameSlice(a.extraScopes, b.extraScopes)
  {
  }

  lemma AuthenticationFields(a: AuthenticationSpec, b: AuthenticationSpec)
    requires a.Valid() && b.Valid()
    ensures a.View() == b.View() <==>
            && a.authenticationClass == b.authenticationClass
            && BothNil(a.oidc, b.oidc) && (a.oidc != null ==> a.oidc.View() == b.oidc.View())
            && a.kerberosSecretClass == b.kerberosSecretClass
            && a.tlsSecretClass == b.tlsSecretClass
  {
  }

  lemma ClusterConfigFields(a: ClusterConfigSpec, b: ClusterConfigSpec)
    requires a.Valid() && b.Valid()
    ensures a.View() == b.View() <==>
            && a.zookeeperConfigMapName == b.zookeeperConfigMapName
            && a.hdfsConfigMapName == b.hdfsConfigMapName
            && a.listenerClass == b.listenerClass
            && BothNil(a.authentication, b.authentication)
            && (a.authentication != null ==> a.authentication.View() == b.authentication.View())
            && a.vectorAggregatorConfigMapName == b.vectorAggregatorConfigMapName
  {
  }

  lemma RoleConfigFields(a: RoleConfigSpec, b: RoleConfigSpec)
    requires a.Valid() && b.Valid()
    ensures a.View() == b.View() <==>
            && BothNil(a.roleGroupConfig, b.roleGroupConfig)
            && (a.roleGroupConfig != null ==> a.roleGroupConfig.View() == b.roleGroupConfig.View())
  {
  }

  lemma RoleGroupFields(a: RoleGroupSpec, b: RoleGroupSpec)
    requires a.Valid() && b.Valid()
    ensures a.View() == b.View() <==>
            && BothNil(a.replicas, b.replicas) && (a.replicas != null ==> a.replicas.value == b.replicas.value)
            && BothNil(a.config, b.config) && (a.config != null ==> a.config.View() == b.config.View())
            && BothNil(a.overrides, b.overrides) && (a.overrides != null ==> a.overrides.View() == b.overrides.View())
  {
  }

  lemma RoleGroupMapFields(a: RoleGroupMap, b: RoleGroupMap)
    requires a.Valid() && b.Valid()
    ensures a.View() == b.View() <==>
            && a.entries.Keys == b.entries.Keys
            && forall k :: k in a.entries.Keys ==> a.entries[k].View() == b.entries[k].View()
  {
    hide RoleGroupSpec.View;
    assert a.View().Keys == a.entries.Keys && b.View().Keys == b.entries.Keys;
    if a.View() == b.View() {
      forall k | k in a.entries.Keys ensures a.entries[k].View() == b.entries[k].View() {
        assert a.View()[k] == b.View()[k];
      }
    }
  }

  lemma RoleFields(a: RoleSpec, b: RoleSpec)
    requires a.Valid() && b.Valid()
    ensures a.View() == b.View() <==>
            && BothNil(a.config, b.config) && (a.config != null ==> a.config.View() == b.config.View())
            && BothNil(a.roleGroups, b.roleGroups) && (a.roleGroups != null ==> a.roleGroups.View() == b.roleGroups.View())
            && BothNil(a.roleConfig, b.roleConfig) && (a.roleConfig != null ==> a.roleConfig.View() == b.roleConfig.View())
            && BothNil(a.overrides, b.overrides) && (a.overrides != null ==> a.overrides.View() == b.overrides.View())
  {
  }

  lemma ClusterSpecFields(a: HbaseClusterSpec, b: HbaseClusterSpec)
    requires a.Valid() && b.Valid()
    ensures a.View() == b.View() <==>
            && BothNil(a.image, b.image) && (a.image != null ==> a.image.fields == b.image.fields)
            && BothNil(a.clusterConfig, b.clusterConfig)
            && (a.clusterConfig != null ==> a.clusterConfig.View() == b.clusterConfig.View())
            && BothNil(a.clusterOperation, b.clusterOperation)
            && (a.clusterOperation != null ==> a.clusterOperation.fields == b.clusterOperation.fields)
            && BothNil(a.master, b.master) && (a.master != null ==> a.master.View() == b.master.View())
            && BothNil(a.regionServer, b.regionServer)
            && (a.regionServer != null ==> a.regionServer.View() == b.regionServer.View())
            && BothNil(a.restServer, b.restServer) && (a.restServer != null ==> a.restServer.View() == b.restServer.View())
  {
  }

  lemma StatusFields(a: HbaseClusterStatus, b: HbaseClusterStatus)
    requires a.Valid() && b.Valid()
    ensures a.View() == b.View() <==>
            && (a.conditions.Some? <==> b.conditions.Some?)
            && (a.conditions.Some? ==>
                  && |a.conditions.value| == |b.conditions.value|
                  && forall i :: 0 <= i < |a.conditions.value| ==>
                       a.conditions.value[i].View() == b.conditions.value[i].View())
  {
    hide Foreign.View;
    var (v, w) := (a.View().conditions, b.View().conditions);
    if a.conditions.Some? {
      assert |v.value| == |a.conditions.value|;
      assert forall i :: 0 <= i < |v.value| ==> v.value[i] == a.conditions.value[i].View();
    }
    if b.conditions.Some? {
      assert |w.value| == |b.conditions.value|;
      assert forall i :: 0 <= i < |w.value| ==> w.value[i] == b.conditions.value[i].View();
    }
    if a.conditions.Some? && b.conditions.Some? {
      assert v == w <==> v.value == w.value;
      if |v.value| == |w.value| {
        assert v.value == w.value <==> forall i :: 0 <= i < |v.value| ==> v.value[i] == w.value[i];
        if forall i :: 0 <= i < |a.conditions.value| ==> a.conditions.value[i].View() == b.conditions.value[i].View() {
          assert forall i :: 0 <= i < |v.value| ==> v.value[i] == w.value[i];
        } else {
          var i :| 0 <= i < |a.conditions.value| && a.conditions.value[i].View() != b.conditions.value[i].View();
          assert v.value[i] != w.value[i];
        }
      }
    }
  }

  lemma ClusterFields(a: HbaseCluster, b: HbaseCluster)
    requires a.Valid() && b.Valid()
    ensures a.View() == b.View() <==>
            && a.typeMeta == b.typeMeta && a.objectMeta.View() == b.objectMeta.View()
            && a.spec.View() == b.spec.View() && a.status.View() == b.status.View()
  {
  }

  lemma ClusterListFields(a: HbaseClusterList, b: HbaseClusterList)
    requires a.Valid() && b.Valid()
    ensures a.View() == b.View() <==>
            && a.typeMeta == b.typeMeta && a.listMeta.View() == b.listMeta.View()
            && (a.items.Some? <==> b.items.Some?)
            && (a.items.Some? ==>
                  && |a.items.value| == |b.items.value|
                  && forall i :: 0 <= i < |a.items.value| ==> a.items.value[i].View() == b.items.value[i].View())
  {
    hide Foreign.View, HbaseCluster.View;
    var (v, w) := (a.View().items, b.View().items);
    if a.items.Some? {
      assert |v.value| == |a.items.value|;
      assert forall i :: 0 <= i < |v.value| ==> v.value[i] == a.items.value[i].View();
    }
    if b.items.Some? {
      assert |w.value| == |b.items.value|;
      assert forall i :: 0 <= i < |w.value| ==> w.value[i] == b.items.value[i].View();
    }
    if a.items.Some? && b.items.Some? {
      assert v == w <==> v.value == w.value;
      if |v.value| == |w.value| {
        assert v.value == w.value <==> forall i :: 0 <= i < |v.value| ==> v.value[i] == w.value[i];
        if forall i :: 0 <= i < |a.items.value| ==> a.items.value[i].View() == b.items.value[i].View() {
          assert forall i :: 0 <= i < |v.value| ==> v.value[i] == w.value[i];
        } else {
          var i :| 0 <= i < |a.items.value| && a.items.value[i].View() != b.items.value[i].View();
          assert v.value[i] != w.value[i];
        }
      }
    }
  }

  /** Whatever is done later to what a copy can reach, or elsewhere, does not show in the original. */
  twostate lemma WritesToCopyDoNotShow(original: HbaseClusterList, copy: HbaseClusterList)
    requires old(original.Valid()) && old(copy.Valid()) && old(original.Repr) !! old(copy.Repr)
    requires forall o: object :: old(allocated(o)) && o !in old(copy.Repr) ==> unchanged(o)
    ensures original.Valid() && original.View() == old(original.View())
  {
    assert forall o: object :: o in old(original.Repr) ==> o !in old(copy.Repr);
  }
}
