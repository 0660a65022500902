/** The pods of the two Velero deployments (pkg/deployment/deployment.go). */
module Deployments {
  import opened Basics
  import opened Pods
  import opened PodBuilding
  import Images

  function DigitOf(d: nat): char
    requires d < 10
  {
    ("0123456789")[d]
  }

  /** Decimal digits of a natural number. */
  function Decimal(n: nat): string {
    if n < 10 then [DigitOf(n)] else Decimal(n / 10) + [DigitOf(n % 10)]
  }

  predicate IsDigit(c: char) {
    '0' <= c <= '9'
  }

  /** The number that a string of decimal digits denotes. */
  function ReadDecimal(s: string): int
    requires forall i :: 0 <= i < |s| ==> IsDigit(s[i])
  {
    if s == [] then 0 else 10 * ReadDecimal(Front(s)) + (Last(s) as int - '0' as int)
  }

  lemma DigitDenotes(d: nat)
    requires d < 10
    ensures IsDigit(DigitOf(d)) && DigitOf(d) as int - '0' as int == d
  {
  }

  /** The digits denote the number, so different numbers have different digits. */
  lemma {:induction false} DecimalReadsBack(n: nat)
    ensures |Decimal(n)| > 0 && forall i :: 0 <= i < |Decimal(n)| ==> IsDigit(Decimal(n)[i])
    ensures ReadDecimal(Decimal(n)) == n
  {
    DigitDenotes(n % 10);
    if n >= 10 {
      DecimalReadsBack(n / 10);
      assert Front(Decimal(n)) == Decimal(n / 10) && Last(Decimal(n)) == DigitOf(n % 10);
    } else {
      assert Front(Decimal(n)) == [];
    }
  }

  lemma DecimalIsInjective(m: nat, n: nat)
    requires Decimal(m) == Decimal(n)
    ensures m == n
  {
    DecimalReadsBack(m);
    DecimalReadsBack(n);
  }

  /** Reading a missing key of the image map gives the empty string. */
  function ImageFor(images: map<string, string>, name: string): string {
    if name in images then images[name] else ""
  }

  function ServerContainer(images: map<string, string>, ns: string): ContainerSpec {
    ContainerSpec(
      Images.SERVER, ImageFor(images, Images.SERVER), ["/velero"], ["server"],
      [EnvVar("VELERO_SCRATCH_DIR", "/scratch"), EnvVar("VELERO_NAMESPACE", ns), EnvVar("LD_LIBRARY_PATH", "/plugins")],
      [Mount("plugins", "/plugins", false), Mount("scratch", "/scratch", false)])
  }

  function PluginContainer(images: map<string, string>, plugins: seq<Images.Request>, i: nat): ContainerSpec
    requires i < |plugins|
  {
    ContainerSpec(
      "plugin-" + Decimal(i), ImageFor(images, plugins[i].name), [], [], [], [Mount("plugins", "/target", false)])
  }

  function PluginContainers(images: map<string, string>, plugins: seq<Images.Request>, n: nat): seq<ContainerSpec>
    requires n <= |plugins|
  {
    seq(n, i requires 0 <= i < n => PluginContainer(images, plugins, i))
  }

  const VOLUMES := [Volume("plugins", EmptyDir), Volume("scratch", EmptyDir)]

  /** The server pod before the token access is injected. */
  function PlainPod(
    images: map<string, string>, plugins: seq<Images.Request>, pullSecrets: seq<string>, ns: string): Pod
  {
    Pod(VOLUMES, [ServerContainer(images, ns)], PluginContainers(images, plugins, |plugins|), pullSecrets)
  }

  function ServerPod(
    images: map<string, string>, plugins: seq<Images.Request>, pullSecrets: seq<string>, ns: string,
    secretName: string, host: string, port: string): Pod
  {
    Inject(PlainPod(images, plugins, pullSecrets, ns), secretName, host, port)
  }

  /** The pod of the deployment without replicas on the control plane. */
  function McpPod(images: map<string, string>): Pod {
    Pod([], [ContainerSpec(Images.SERVER, ImageFor(images, Images.SERVER), [], [], [], [])], [], [])
  }

  method BuildServerPod(
    images: map<string, string>, plugins: seq<Images.Request>, pullSecrets: seq<string>, ns: string,
    secretName: string, host: string, port: string) returns (pod: PodSpec)
    ensures fresh(pod) && fresh(pod.containers) && fresh(pod.initContainers)
    ensures pod.Snapshot() == ServerPod(images, plugins, pullSecrets, ns, secretName, host, port)
  {
    var server := new Container(ServerContainer(images, ns));
    pod := new PodSpec(VOLUMES, [server], pullSecrets);
    for i := 0 to |plugins|
      invariant fresh(pod) && fresh(pod.initContainers) && fresh(server)
      invariant pod.Valid() && pod.volumes == VOLUMES && pod.containers == [server] && pod.pullSecrets == pullSecrets
      invariant server.Snapshot() == ServerContainer(images, ns)
      invariant |pod.initContainers| == i
      invariant forall j :: 0 <= j < i ==> pod.initContainers[j].Snapshot() == PluginContainer(images, plugins, j)
    {
      var c := new Container(PluginContainer(images, plugins, i));
      pod.AddInitContainer(c);
    }
    assert pod.Snapshot() == PlainPod(images, plugins, pullSecrets, ns);
    pod.ApplyToken(secretName, host, port);
  }

  // ----- what the pod is -----

  lemma PlainPodNamesAreUnique(
    images: map<string, string>, plugins: seq<Images.Request>, pullSecrets: seq<string>, ns: string)
    ensures var p := PlainPod(images, plugins, pullSecrets, ns);
            && UniqueKeys(p.volumes, VOLUME_KEY)
            && forall c :: c in AllContainers(p) ==> UniqueNames(c)
  {
  }

  /** Container names in a pod do not repeat. */
  lemma ContainerNamesAreDistinct(
    images: map<string, string>, plugins: seq<Images.Request>, pullSecrets: seq<string>, ns: string,
    secretName: string, host: string, port: string, i: nat, j: nat)
    requires i < j <= |plugins|
    ensures var cs := AllContainers(ServerPod(images, plugins, pullSecrets, ns, secretName, host, port));
            |cs| == |plugins| + 1 && cs[i].name != cs[j].name
  {
    var cs := AllContainers(ServerPod(images, plugins, pullSecrets, ns, secretName, host, port));
    assert cs[i].name == "plugin-" + Decimal(i);
    if j < |plugins| {
      assert cs[j].name == "plugin-" + Decimal(j);
      if cs[i].name == cs[j].name {
        assert cs[i].name[7..] == Decimal(i) && cs[j].name[7..] == Decimal(j);
        DecimalIsInjective(i, j);
      }
    } else {
      assert cs[j].name == Images.SERVER;
      assert cs[i].name[0] == 'p';
    }
  }

  /**
   Token access end to end: every container of the server pod mounts the token volume and talks to
   the given host and port, and keeps all its own mounts and variables.
  */
  lemma EveryContainerHasAccess(
    images: map<string, string>, plugins: seq<Images.Request>, pullSecrets: seq<string>, ns: string,
    secretName: string, host: string, port: string, i: nat)
    requires i <= |plugins|
    ensures var plain := PlainPod(images, plugins, pullSecrets, ns);
            var pod := ServerPod(images, plugins, pullSecrets, ns, secretName, host, port);
            && |AllContainers(pod)| == |AllContainers(plain)| == |plugins| + 1
            && View(pod.volumes, VOLUME_KEY) == View(VOLUMES, VOLUME_KEY)[TOKEN_VOLUME := TokenVolume(secretName)]
            && var c, d := AllContainers(plain)[i], AllContainers(pod)[i];
               && d.name == c.name && d.image == c.image
               && View(d.mounts, MOUNT_KEY) == View(c.mounts, MOUNT_KEY)[TOKEN_VOLUME := TOKEN_MOUNT]
               && View(d.env, ENV_KEY) == View(c.env, ENV_KEY)[HOST_VARIABLE := EnvVar(HOST_VARIABLE, host)]
                                                            [PORT_VARIABLE := EnvVar(PORT_VARIABLE, port)]
  {
    PlainPodNamesAreUnique(images, plugins, pullSecrets, ns);
    InjectIsMapUpdate(PlainPod(images, plugins, pullSecrets, ns), secretName, host, port);
  }

  lemma ViewOfTwo<T>(s: seq<T>, key: T -> string)
    requires |s| == 2 && key(s[0]) != key(s[1])
    ensures View(s, key) == map[key(s[0]) := s[0], key(s[1]) := s[1]]
  {
    assert s[1..] == [s[1]] && View([s[1]], key) == map[key(s[1]) := s[1]];
  }

  lemma ViewOfThree<T>(s: seq<T>, key: T -> string)
    requires |s| == 3 && key(s[0]) != key(s[1]) && key(s[0]) != key(s[2]) && key(s[1]) != key(s[2])
    ensures View(s, key) == map[key(s[0]) := s[0], key(s[1]) := s[1], key(s[2]) := s[2]]
  {
    ViewOfTwo(s[1..], key);
  }

  /** The server pod spelled out: its volumes, its pull secrets, and the one container that runs the server. */
  lemma ServerPodSpelledOut(
    images: map<string, string>, plugins: seq<Images.Request>, pullSecrets: seq<string>, ns: string,
    secretName: string, host: string, port: string)
    ensures var pod := ServerPod(images, plugins, pullSecrets, ns, secretName, host, port);
            && pod.pullSecrets == pullSecrets
            && View(pod.volumes, VOLUME_KEY) ==
               map["plugins" := Volume("plugins", EmptyDir), "scratch" := Volume("scratch", EmptyDir),
                   "kube-api-access" := Volume("kube-api-access", SecretVolume(secretName, false))]
            && |pod.containers| == 1 && |pod.initContainers| == |plugins|
            && var c := pod.containers[0];
               && c.name == "velero" && c.command == ["/velero"] && c.args == ["server"]
               && ("velero" in images ==> c.image == images["velero"])
               && View(c.mounts, MOUNT_KEY) ==
                  map["plugins" := Mount("plugins", "/plugins", false),
                      "scratch" := Mount("scratch", "/scratch", false),
                      "kube-api-access" :=
                        Mount("kube-api-access", "/var/run/secrets/kubernetes.io/serviceaccount", true)]
               && View(c.env, ENV_KEY) ==
                  map["VELERO_SCRATCH_DIR" := EnvVar("VELERO_SCRATCH_DIR", "/scratch"),
                      "VELERO_NAMESPACE" := EnvVar("VELERO_NAMESPACE", ns),
                      "LD_LIBRARY_PATH" := EnvVar("LD_LIBRARY_PATH", "/plugins"),
                      "KUBERNETES_SERVICE_HOST" := EnvVar("KUBERNETES_SERVICE_HOST", host),
                      "KUBERNETES_SERVICE_PORT" := EnvVar("KUBERNETES_SERVICE_PORT", port)]
  {
    EveryContainerHasAccess(images, plugins, pullSecrets, ns, secretName, host, port, |plugins|);
    var c := ServerContainer(images, ns);
    ViewOfTwo(VOLUMES, VOLUME_KEY);
    ViewOfTwo(c.mounts, MOUNT_KEY);
    ViewOfThree(c.env, ENV_KEY);
  }

  /** Init container `i` spelled out: it copies plugin `i` to the volume the server reads plugins from. */
  lemma PluginContainerSpelledOut(
    images: map<string, string>, plugins: seq<Images.Request>, pullSecrets: seq<string>, ns: string,
    secretName: string, host: string, port: string, i: nat)
    requires i < |plugins|
    ensures var pod := ServerPod(images, plugins, pullSecrets, ns, secretName, host, port);
            && |pod.initContainers| == |plugins|
            && var c := pod.initContainers[i];
               && c.name == "plugin-" + Decimal(i) && c.command == [] && c.args == []
               && (plugins[i].name in images ==> c.image == images[plugins[i].name])
               && View(c.mounts, MOUNT_KEY) ==
                  map["plugins" := Mount("plugins", "/target", false),
                      "kube-api-access" :=
                        Mount("kube-api-access", "/var/run/secrets/kubernetes.io/serviceaccount", true)]
               && View(c.env, ENV_KEY) ==
                  map["KUBERNETES_SERVICE_HOST" := EnvVar("KUBERNETES_SERVICE_HOST", host),
                      "KUBERNETES_SERVICE_PORT" := EnvVar("KUBERNETES_SERVICE_PORT", port)]
  {
    EveryContainerHasAccess(images, plugins, pullSecrets, ns, secretName, host, port, i);
    var c := PluginContainer(images, plugins, i);
    assert View(c.mounts, MOUNT_KEY) == map["plugins" := c.mounts[0]] by {
      assert c.mounts[1..] == [];
    }
  }

  /** The pod on the control plane spelled out: one container, and nothing else. */
  lemma McpPodSpelledOut(images: map<string, string>)
    ensures var pod := McpPod(images);
            && |pod.containers| == 1 && pod.containers[0].name == "velero"
            && ("velero" in images ==> pod.containers[0].image == images["velero"])
            && pod.containers[0] ==
               ContainerSpec(pod.containers[0].name, pod.containers[0].image, [], [], [], [])
            && pod.initContainers == [] && pod.volumes == [] && pod.pullSecrets == []
  {
  }

  /** Init container `i` runs the image resolved for the last request under the name of plugin `i`. */
  lemma PluginImages(
    spec: Images.VeleroSpec, available: seq<Images.Available>, pullSecrets: seq<string>, ns: string,
    secretName: string, host: string, port: string, i: nat) returns (j: nat, a: Images.Available)
    requires Images.ImageMap(spec, available).Some? && i < |spec.plugins|
    ensures var images := Images.ImageMap(spec, available).value;
            var pod := ServerPod(images, spec.plugins, pullSecrets, ns, secretName, host, port);
            var reqs := Images.Requests(spec);
            && |pod.initContainers| == |spec.plugins|
            && Images.LastAt(reqs, |reqs|, j) && reqs[j].name == spec.plugins[i].name
            && a in available && Images.ListedAs(reqs[j], a, pod.initContainers[i].image)
  {
    j, a := Images.LastRequestWins(spec, available, i + 1);
  }

  /** The container for request `i`: the server first, then one init container per plugin. */
  function ContainerFor(pod: Pod, i: nat): ContainerSpec
    requires pod.containers != [] && i <= |pod.initContainers|
  {
    if i == 0 then pod.containers[0] else pod.initContainers[i - 1]
  }

  /**
   Which image a container runs, exactly: that of the last request `j` under the name of its own
   request `i`; it is the requested one just when both ask for the same version.
  */
  lemma RequestedImageExactly(
    spec: Images.VeleroSpec, available: seq<Images.Available>, pullSecrets: seq<string>, ns: string,
    secretName: string, host: string, port: string, i: nat, j: nat)
    requires Images.ImageMap(spec, available).Some?
    requires var reqs := Images.Requests(spec);
             i < |reqs| && Images.LastAt(reqs, |reqs|, j) && reqs[j].name == reqs[i].name
    ensures var images, reqs := Images.ImageMap(spec, available).value, Images.Requests(spec);
            var pod := ServerPod(images, spec.plugins, pullSecrets, ns, secretName, host, port);
            && |pod.containers| == 1 && |pod.initContainers| == |spec.plugins| == |reqs| - 1
            && (i == 0 ==> McpPod(images).containers[0].image == pod.containers[0].image)
            && var image := ContainerFor(pod, i).image;
               && image == Images.ImageOf(reqs[j], available)
               && (reqs[j].version == reqs[i].version ==> image == Images.ImageOf(reqs[i], available))
               && (Images.IsTag(reqs[i].version) && Images.IsTag(reqs[j].version)
                   && image == Images.ImageOf(reqs[i], available)
                   ==> reqs[j].version == reqs[i].version)
  {
    hide Images.ImageOf, Images.IsTag, Images.LastAt, Images.ImageMap;
    Images.OwnImageExactly(spec, available, i, j);
  }

  /** Every container runs the image its own request asks for. */
  ghost predicate AsRequested(pod: Pod, spec: Images.VeleroSpec, available: seq<Images.Available>) {
    && |pod.containers| == 1 && |pod.initContainers| == |spec.plugins|
    && forall i :: 0 <= i <= |spec.plugins| ==>
         ContainerFor(pod, i).image == Images.ImageOf(Images.Requests(spec)[i], available)
  }

  ghost predicate OneVersionPerName(reqs: seq<Images.Request>) {
    forall i, j :: 0 <= i < |reqs| && 0 <= j < |reqs| && reqs[i].name == reqs[j].name ==>
      reqs[i].version == reqs[j].version
  }

  /** The last request under the name of request `i` asks for the same version. */
  ghost predicate SameAsLast(reqs: seq<Images.Request>, i: int) {
    0 <= i < |reqs| && exists j :: Images.LastAt(reqs, |reqs|, j) && reqs[j] == reqs[i]
  }

  lemma LastVersionsAgree(reqs: seq<Images.Request>)
    requires forall i :: 0 <= i < |reqs| ==> SameAsLast(reqs, i)
    ensures OneVersionPerName(reqs)
  {
    forall i, j | 0 <= i < |reqs| && 0 <= j < |reqs| && reqs[i].name == reqs[j].name
      ensures reqs[i].version == reqs[j].version
    {
      assert SameAsLast(reqs, i) && SameAsLast(reqs, j);
    }
  }

  /** Every container runs what was asked for if and only if no name is requested in two versions. */
  lemma ImagesAreExact(
    spec: Images.VeleroSpec, available: seq<Images.Available>, pullSecrets: seq<string>, ns: string,
    secretName: string, host: string, port: string)
    requires Images.ImageMap(spec, available).Some?
    requires forall r :: r in Images.Requests(spec) ==> Images.IsTag(r.version)
    ensures var images := Images.ImageMap(spec, available).value;
            AsRequested(ServerPod(images, spec.plugins, pullSecrets, ns, secretName, host, port), spec, available)
            <==> OneVersionPerName(Images.Requests(spec))
  {
    hide ServerPod, Images.ImageMap;
    var images, reqs := Images.ImageMap(spec, available).value, Images.Requests(spec);
    var pod := ServerPod(images, spec.plugins, pullSecrets, ns, secretName, host, port);
    var last := Images.FindLast(reqs, 0);
    RequestedImageExactly(spec, available, pullSecrets, ns, secretName, host, port, 0, last);
    forall i | 0 <= i <= |spec.plugins|
      ensures OneVersionPerName(reqs) ==> ContainerFor(pod, i).image == Images.ImageOf(reqs[i], available)
      ensures ContainerFor(pod, i).image == Images.ImageOf(reqs[i], available) ==> SameAsLast(reqs, i)
    {
      var j := Images.FindLast(reqs, i);
      RequestedImageExactly(spec, available, pullSecrets, ns, secretName, host, port, i, j);
      assert reqs[i] in reqs && reqs[j] in reqs;
    }
    if AsRequested(pod, spec, available) {
      LastVersionsAgree(reqs);
    }
  }

  ghost predicate FromAvailable(image: string, available: seq<Images.Available>) {
    exists a, version :: a in available && version in a.versions && Images.IsReference(image, a.image, version)
  }

  /** Image soundness: whatever names are used or repeated, every container runs a listed image and version. */
  lemma EveryImageIsListed(
    spec: Images.VeleroSpec, available: seq<Images.Available>, pullSecrets: seq<string>, ns: string,
    secretName: string, host: string, port: string)
    requires Images.ImageMap(spec, available).Some?
    ensures var images := Images.ImageMap(spec, available).value;
            && (forall c ::
                  c in AllContainers(ServerPod(images, spec.plugins, pullSecrets, ns, secretName, host, port)) ==>
                  FromAvailable(c.image, available))
            && FromAvailable(McpPod(images).containers[0].image, available)
  {
    var images := Images.ImageMap(spec, available).value;
    var reqs := Images.Requests(spec);
    forall i | 0 <= i < |reqs|
      ensures FromAvailable(ImageFor(images, reqs[i].name), available)
    {
      var j, a := Images.LastRequestWins(spec, available, i);
      assert a in available && reqs[j].version in a.versions;
    }
    var cs := AllContainers(ServerPod(images, spec.plugins, pullSecrets, ns, secretName, host, port));
    forall c | c in cs
      ensures FromAvailable(c.image, available)
    {
      var k :| 0 <= k < |cs| && cs[k] == c;
      if k < |spec.plugins| {
        assert c.image == ImageFor(images, reqs[k + 1].name);
      } else {
        assert c.image == ImageFor(images, reqs[0].name);
      }
    }
    assert FromAvailable(ImageFor(images, reqs[0].name), available);
  }
}
