/** Pod specifications as plain values, and the specification of the token injection. */
module Pods {
  import opened Basics

  datatype VolumeSource = EmptyDir | SecretVolume(secretName: string, optional: bool)

  datatype Volume = Volume(name: string, source: VolumeSource)

  datatype Mount = Mount(name: string, path: string, readOnly: bool)

  datatype EnvVar = EnvVar(name: string, value: string)

  datatype ContainerSpec = ContainerSpec(
    name: string, image: string, command: seq<string>, args: seq<string>,
    env: seq<EnvVar>, mounts: seq<Mount>)

  datatype Pod = Pod(
    volumes: seq<Volume>, containers: seq<ContainerSpec>, initContainers: seq<ContainerSpec>,
    pullSecrets: seq<string>)

  const VOLUME_KEY: Volume -> string := (v: Volume) => v.name
  const MOUNT_KEY: Mount -> string := (m: Mount) => m.name
  const ENV_KEY: EnvVar -> string := (e: EnvVar) => e.name

  const TOKEN_VOLUME := "kube-api-access"
  const TOKEN_MOUNT_PATH := "/var/run/secrets/kubernetes.io/serviceaccount"
  const HOST_VARIABLE := "KUBERNETES_SERVICE_HOST"
  const PORT_VARIABLE := "KUBERNETES_SERVICE_PORT"
  const TOKEN_MOUNT := Mount(TOKEN_VOLUME, TOKEN_MOUNT_PATH, true)

  function TokenVolume(secretName: string): Volume {
    Volume(TOKEN_VOLUME, SecretVolume(secretName, false))
  }

  /** What the token apply function makes of one container. */
  function InjectContainer(c: ContainerSpec, host: string, port: string): ContainerSpec {
    c.(mounts := Upsert(c.mounts, TOKEN_MOUNT, MOUNT_KEY),
       env := Upsert(Upsert(c.env, EnvVar(HOST_VARIABLE, host), ENV_KEY), EnvVar(PORT_VARIABLE, port), ENV_KEY))
  }

  function InjectContainers(cs: seq<ContainerSpec>, host: string, port: string): seq<ContainerSpec> {
    seq(|cs|, i requires 0 <= i < |cs| => InjectContainer(cs[i], host, port))
  }

  /** What the token apply function makes of a pod. */
  function Inject(p: Pod, secretName: string, host: string, port: string): Pod {
    p.(volumes := Upsert(p.volumes, TokenVolume(secretName), VOLUME_KEY),
       containers := InjectContainers(p.containers, host, port),
       initContainers := InjectContainers(p.initContainers, host, port))
  }

  /** All containers of a pod, init containers first. */
  function AllContainers(p: Pod): seq<ContainerSpec> {
    p.initContainers + p.containers
  }

  ghost predicate UniqueNames(c: ContainerSpec) {
    UniqueKeys(c.mounts, MOUNT_KEY) && UniqueKeys(c.env, ENV_KEY)
  }

  lemma InjectContainerTwice(c: ContainerSpec, host: string, port: string)
    ensures var d := InjectContainer(c, host, port); InjectContainer(d, host, port) == d
  {
    var h, p := EnvVar(HOST_VARIABLE, host), EnvVar(PORT_VARIABLE, port);
    UpsertTwice(c.mounts, TOKEN_MOUNT, MOUNT_KEY);
    var e := Upsert(c.env, h, ENV_KEY);
    UpsertTwice(c.env, h, ENV_KEY);
    UpsertPresentNoOp(e, h, p, ENV_KEY);
    UpsertTwice(e, p, ENV_KEY);
  }

  /** Injecting the token access twice is injecting it once, for every pod. */
  lemma InjectTwice(p: Pod, secretName: string, host: string, port: string)
    ensures var q := Inject(p, secretName, host, port); Inject(q, secretName, host, port) == q
  {
    UpsertTwice(p.volumes, TokenVolume(secretName), VOLUME_KEY);
    forall c: ContainerSpec {
      InjectContainerTwice(c, host, port);
    }
    var q := Inject(p, secretName, host, port);
    assert InjectContainers(q.containers, host, port) == q.containers;
    assert InjectContainers(q.initContainers, host, port) == q.initContainers;
  }

  /** On a container with unique names the injection is three dictionary updates and nothing else. */
  lemma InjectContainerIsMapUpdate(c: ContainerSpec, host: string, port: string)
    requires UniqueNames(c)
    ensures var d := InjectContainer(c, host, port);
            && UniqueNames(d)
            && d == c.(mounts := d.mounts, env := d.env)
            && View(d.mounts, MOUNT_KEY) == View(c.mounts, MOUNT_KEY)[TOKEN_VOLUME := TOKEN_MOUNT]
            && View(d.env, ENV_KEY) == View(c.env, ENV_KEY)[HOST_VARIABLE := EnvVar(HOST_VARIABLE, host)]
                                                         [PORT_VARIABLE := EnvVar(PORT_VARIABLE, port)]
            && Keys(c.mounts, MOUNT_KEY) <= Keys(d.mounts, MOUNT_KEY)
            && Keys(c.env, ENV_KEY) <= Keys(d.env, ENV_KEY)
  {
    var h, p := EnvVar(HOST_VARIABLE, host), EnvVar(PORT_VARIABLE, port);
    var e := Upsert(c.env, h, ENV_KEY);
    UpsertIsMapUpdate(c.mounts, TOKEN_MOUNT, MOUNT_KEY);
    UpsertKeepsUnique(c.mounts, TOKEN_MOUNT, MOUNT_KEY);
    UpsertKeepsOrder(c.mounts, TOKEN_MOUNT, MOUNT_KEY);
    UpsertIsMapUpdate(c.env, h, ENV_KEY);
    UpsertKeepsUnique(c.env, h, ENV_KEY);
    UpsertKeepsOrder(c.env, h, ENV_KEY);
    UpsertIsMapUpdate(e, p, ENV_KEY);
    UpsertKeepsUnique(e, p, ENV_KEY);
    UpsertKeepsOrder(e, p, ENV_KEY);
  }

  /** The same for a whole pod: every container and init container is updated, in place and in order. */
  lemma InjectIsMapUpdate(p: Pod, secretName: string, host: string, port: string)
    requires UniqueKeys(p.volumes, VOLUME_KEY)
    requires forall c :: c in AllContainers(p) ==> UniqueNames(c)
    ensures var q := Inject(p, secretName, host, port);
            && UniqueKeys(q.volumes, VOLUME_KEY)
            && View(q.volumes, VOLUME_KEY) == View(p.volumes, VOLUME_KEY)[TOKEN_VOLUME := TokenVolume(secretName)]
            && Keys(p.volumes, VOLUME_KEY) <= Keys(q.volumes, VOLUME_KEY)
            && q.pullSecrets == p.pullSecrets
            && |q.containers| == |p.containers| && |q.initContainers| == |p.initContainers|
            && forall i :: 0 <= i < |AllContainers(p)| ==>
                             var c, d := AllContainers(p)[i], AllContainers(q)[i];
                             && UniqueNames(d)
                             && d == c.(mounts := d.mounts, env := d.env)
                             && View(d.mounts, MOUNT_KEY) == View(c.mounts, MOUNT_KEY)[TOKEN_VOLUME := TOKEN_MOUNT]
                             && View(d.env, ENV_KEY) ==
                                View(c.env, ENV_KEY)[HOST_VARIABLE := EnvVar(HOST_VARIABLE, host)]
                                                   [PORT_VARIABLE := EnvVar(PORT_VARIABLE, port)]
  {
    UpsertIsMapUpdate(p.volumes, TokenVolume(secretName), VOLUME_KEY);
    UpsertKeepsUnique(p.volumes, TokenVolume(secretName), VOLUME_KEY);
    UpsertKeepsOrder(p.volumes, TokenVolume(secretName), VOLUME_KEY);
    var q := Inject(p, secretName, host, port);
    forall i | 0 <= i < |AllContainers(p)|
      ensures var c, d := AllContainers(p)[i], AllContainers(q)[i];
              && UniqueNames(d)
              && d == c.(mounts := d.mounts, env := d.env)
              && View(d.mounts, MOUNT_KEY) == View(c.mounts, MOUNT_KEY)[TOKEN_VOLUME := TOKEN_MOUNT]
              && View(d.env, ENV_KEY) ==
                 View(c.env, ENV_KEY)[HOST_VARIABLE := EnvVar(HOST_VARIABLE, host)]
                                    [PORT_VARIABLE := EnvVar(PORT_VARIABLE, port)]
    {
      var c := AllContainers(p)[i];
      assert AllContainers(q)[i] == InjectContainer(c, host, port);
      InjectContainerIsMapUpdate(c, host, port);
    }
  }
}

/** Pods under construction: the objects the source updates in place. */
module PodBuilding {
  import opened Basics
  import opened Pods

  class Container {
    const name: string
    const image: string
    const command: seq<string>
    const args: seq<string>
    var env: seq<EnvVar>
    var mounts: seq<Mount>

    function Snapshot(): ContainerSpec
      reads this
    {
      ContainerSpec(name, image, command, args, env, mounts)
    }

    constructor (spec: ContainerSpec)
      ensures Snapshot() == spec
    {
      name, image, command, args, env, mounts :=
        spec.name, spec.image, spec.command, spec.args, spec.env, spec.mounts;
    }

    method AddOrReplaceEnv(v: EnvVar)
      modifies this`env
      ensures env == Upsert(old(env), v, ENV_KEY)
    {
      for i := 0 to |env|
        invariant env == old(env)
        invariant forall j :: 0 <= j < i ==> env[j].name != v.name
      {
        if env[i].name == v.name {
          UpsertAt(env, v, ENV_KEY, i);
          env := env[i := v];
          return;
        }
      }
      UpsertAbsent(env, v, ENV_KEY);
      env := env + [v];
    }

    method AddOrReplaceVolumeMount(m: Mount)
      modifies this`mounts
      ensures mounts == Upsert(old(mounts), m, MOUNT_KEY)
    {
      for i := 0 to |mounts|
        invariant mounts == old(mounts)
        invariant forall j :: 0 <= j < i ==> mounts[j].name != m.name
      {
        if mounts[i].name == m.name {
          UpsertAt(mounts, m, MOUNT_KEY, i);
          mounts := mounts[i := m];
          return;
        }
      }
      UpsertAbsent(mounts, m, MOUNT_KEY);
      mounts := mounts + [m];
    }

    method ApplyToken(host: string, port: string)
      modifies this
      ensures Snapshot() == InjectContainer(old(Snapshot()), host, port)
    {
      AddOrReplaceVolumeMount(TOKEN_MOUNT);
      AddOrReplaceEnv(EnvVar(HOST_VARIABLE, host));
      AddOrReplaceEnv(EnvVar(PORT_VARIABLE, port));
    }
  }

  function Snapshots(cs: seq<Container>): seq<ContainerSpec>
    reads cs
  {
    seq(|cs|, i requires 0 <= i < |cs| reads cs => cs[i].Snapshot())
  }

  ghost predicate Distinct(cs: seq<Container>) {
    forall i, j :: 0 <= i < j < |cs| ==> cs[i] != cs[j]
  }

  method ApplyToAll(cs: seq<Container>, host: string, port: string)
    requires Distinct(cs)
    modifies cs
    ensures Snapshots(cs) == InjectContainers(old(Snapshots(cs)), host, port)
  {
    for i := 0 to |cs|
      invariant forall j :: 0 <= j < i ==> cs[j].Snapshot() == InjectContainer(old(cs[j].Snapshot()), host, port)
      invariant forall j :: i <= j < |cs| ==> cs[j].Snapshot() == old(cs[j].Snapshot())
    {
      cs[i].ApplyToken(host, port);
    }
  }

  class PodSpec {
    var volumes: seq<Volume>
    var containers: seq<Container>
    var initContainers: seq<Container>
    var pullSecrets: seq<string>

    /** No container object is shared between two places of the pod. */
    ghost predicate Valid()
      reads this
    {
      && Distinct(containers)
      && Distinct(initContainers)
      && forall c :: c in initContainers ==> c !in containers
    }

    function Snapshot(): Pod
      reads this, containers, initContainers
    {
      Pod(volumes, Snapshots(containers), Snapshots(initContainers), pullSecrets)
    }

    constructor (volumes: seq<Volume>, containers: seq<Container>, pullSecrets: seq<string>)
      requires Distinct(containers)
      ensures Valid()
      ensures this.volumes == volumes && this.containers == containers
      ensures this.initContainers == [] && this.pullSecrets == pullSecrets
    {
      this.volumes, this.containers, this.initContainers, this.pullSecrets := volumes, containers, [], pullSecrets;
    }

    method AddInitContainer(c: Container)
      requires Valid() && c !in initContainers && c !in containers
      modifies this`initContainers
      ensures Valid()
      ensures initContainers == old(initContainers) + [c]
    {
      initContainers := initContainers + [c];
    }

    method AddOrReplaceVolume(v: Volume)
      modifies this`volumes
      ensures volumes == Upsert(old(volumes), v, VOLUME_KEY)
    {
      for i := 0 to |volumes|
        invariant volumes == old(volumes)
        invariant forall j :: 0 <= j < i ==> volumes[j].name != v.name
      {
        if volumes[i].name == v.name {
          UpsertAt(volumes, v, VOLUME_KEY, i);
          volumes := volumes[i := v];
          return;
        }
      }
      UpsertAbsent(volumes, v, VOLUME_KEY);
      volumes := volumes + [v];
    }

    /** The function handed to the deployment: mounts the service account token into every container. */
    method ApplyToken(secretName: string, host: string, port: string)
      requires Valid()
      modifies this, containers, initContainers
      ensures Valid()
      ensures containers == old(containers) && initContainers == old(initContainers)
      ensures Snapshot() == Inject(old(Snapshot()), secretName, host, port)
    {
      hide InjectContainer, Upsert;
      ghost var initBefore := Snapshots(initContainers);
      AddOrReplaceVolume(TokenVolume(secretName));
      ApplyToAll(containers, host, port);
      forall i | 0 <= i < |initContainers|
        ensures initContainers[i].Snapshot() == initBefore[i]
      {
        assert initContainers[i] in initContainers;
      }
      ghost var after := Snapshots(containers);
      ApplyToAll(initContainers, host, port);
      forall i | 0 <= i < |containers|
        ensures containers[i].Snapshot() == after[i]
      {
        assert containers[i] in containers;
      }
    }
  }
}
