/**
 * The names, fixed texts, local paths and download URLs of kubev
 * (pkg/kubev/constants/constants.go). The user's home directory and the Go
 * runtime's GOOS and GOARCH are parameters.
 */
module Constants {

  import opened GoStrings

  /** The kubelet systemd unit installed on every node. */
  const KubeletService :=
    "\n"
    + "[Unit]\n"
    + "Description=kubelet: The Kubernetes Node Agent\n"
    + "Documentation=http://kubernetes.io/docs/\n"
    + "\n"
    + "[Service]\n"
    + "ExecStart=/usr/bin/kubelet\n"
    + "Restart=always\n"
    + "StartLimitInterval=0\n"
    + "RestartSec=10\n"
    + "\n"
    + "[Install]\n"
    + "WantedBy=multi-user.target\n"

  /** The kubeadm drop-in for the kubelet unit. */
  const KubeletSystemd :=
    "\n"
    + "# Note: This dropin only works with kubeadm "
    + "and kubelet v1.11+\n"
    + "[Service]\n"
    + "Environment=\"KUBELET_KUBECONFIG_ARGS="
    + "--bootstrap-kubeconfig="
    + "/etc/kubernetes/bootstrap-kubelet.conf "
    + "--kubeconfig=/etc/kubernetes/kubelet.conf\"\n"
    + "Environment=\"KUBELET_CONFIG_ARGS="
    + "--config=/var/lib/kubelet/config.yaml\"\n"
    + "# This is a file that \"kubeadm init\" and "
    + "\"kubeadm join\" generates at runtime, "
    + "populating the KUBELET_KUBEADM_ARGS variable "
    + "dynamically\n"
    + "EnvironmentFile="
    + "-/var/lib/kubelet/kubeadm-flags.env\n"
    + "# This is a file that the user can use for "
    + "overrides of the kubelet args as a last "
    + "resort. Preferably, the user should use\n"
    + "# the .NodeRegistration.KubeletExtraArgs "
    + "object in the configuration files instead. "
    + "KUBELET_EXTRA_ARGS should be sourced from "
    + "this file.\n"
    + "EnvironmentFile=-/etc/sysconfig/kubelet\n"
    + "ExecStart=\n"
    + "ExecStart=/usr/bin/kubelet "
    + "$KUBELET_KUBECONFIG_ARGS $KUBELET_CONFIG_ARGS "
    + "$KUBELET_KUBEADM_ARGS $KUBELET_EXTRA_ARGS\n"

  const DefaultPhotonVersion := "v2.0"
  const KubeAdmBinaryName := "kubeadm"
  const KubeCtlBinaryName := "kubectl"
  const DockerBinaryName := "docker"
  const CriCtlBinaryName := "crictl"
  const CNIKits := "cni.tgz"
  const GuestKubeCtlBinaryName := "kubectl.guest"
  const KubeletBinaryName := "kubelet"
  const PhotonOVAName := "photon.ova"
  const PhotonVMUsername := "root"
  const PhotonVMOriginalPassword := "changeme"
  const PhotonVMPassword := "kubernetes"
  const KubeletServiceFile := "/etc/systemd/system/kubelet.service"
  const KubeletSystemdConfFile := "/etc/systemd/system/kubelet.service.d/10-kubeadm.conf"
  const DefaultVMTemplateName := "kube-template"

  /** The release that the Aliyun mirror lacks, so it is fetched from Google instead. */
  const MirrorlessVersion := "v1.13.0"

  const PhotonOVAURL := "https://bintray.com/vmware/photon/download_file?file_path=2.0%2FGA%2Fova%2Fphoton-custom-hw11-2.0-304b817.ova"
  const CriCtlURL := "https://github.com/kubernetes-sigs/cri-tools/releases/download/v1.12.0/crictl-v1.12.0-linux-amd64.tar.gz"
  const CNIKitsURL := "https://github.com/containernetworking/plugins/releases/download/v0.7.4/cni-plugins-amd64-v0.7.4.tgz"
  const DockerURL := "https://download.docker.com/mac/static/stable/x86_64/docker-17.06.0-ce.tgz"
  const GoogleRelease := "https://storage.googleapis.com/kubernetes-release/release/"
  const AliyunRelease := "https://kubernetes.oss-cn-hangzhou.aliyuncs.com/kubernetes-release/release/"

  /** What the machine running kubev supplies: the home directory, GOOS and GOARCH. */
  datatype Host = Host(home: string, goos: string, goarch: string)

  function KubeVHomeFolder(h: Host): string
  {
    Join(h.home, ".kubev")
  }

  function K8sNodesConfigFilePath(h: Host): string
  {
    Join(KubeVHomeFolder(h), "config.json")
  }

  function LocalK8sKitPath(h: Host, binaryName: string, version: string): string
  {
    JoinAll([KubeVHomeFolder(h), "cache", binaryName, version])
  }

  function VMPrivateKeyPath(h: Host): string
  {
    Join(KubeVHomeFolder(h), "id_rsa")
  }

  function VMPublicKeyPath(h: Host): string
  {
    VMPrivateKeyPath(h) + ".pub"
  }

  /** Where a downloaded kit is kept; docker's archive unpacks one level deeper. */
  function LocalK8sKitFilePath(h: Host, binaryName: string, version: string): string
  {
    if binaryName == DockerBinaryName then
      JoinAll([KubeVHomeFolder(h), "cache", binaryName, version, binaryName, binaryName])
    else
      JoinAll([KubeVHomeFolder(h), "cache", binaryName, version, binaryName])
  }

  /** The names whose download URL does not depend on the version. */
  predicate FixedDownload(binaryName: string) {
    binaryName == PhotonOVAName || binaryName == CriCtlBinaryName ||
    binaryName == CNIKits || binaryName == DockerBinaryName
  }

  /** Where a kit is downloaded from: the branches are tried in this order. */
  function K8sKitReleaseURL(h: Host, binaryName: string, version: string): string
  {
    if binaryName == KubeCtlBinaryName then
      GoogleRelease + version + "/bin/" + h.goos + "/amd64/kubectl"
    else if binaryName == PhotonOVAName then PhotonOVAURL
    else if binaryName == CriCtlBinaryName then CriCtlURL
    else if binaryName == CNIKits then CNIKitsURL
    else if binaryName == DockerBinaryName then DockerURL
    else if version == MirrorlessVersion then
      var name := if binaryName == GuestKubeCtlBinaryName then KubeCtlBinaryName else binaryName;
      GoogleRelease + version + "/bin/linux/" + h.goarch + "/" + name
    else KubernetesReleaseURL(h, binaryName, version)
  }

  function KubernetesReleaseURL(h: Host, binaryName: string, version: string): string
  {
    AliyunRelease + version + "/bin/linux/" + h.goarch + "/" + binaryName
  }

  // ------------------------------------------------------------------ paths

  /** With a clean home directory, kubev keeps its files in `<home>/.kubev`. */
  lemma HomeFolderShape(h: Host)
    requires Directory(h.home)
    ensures KubeVHomeFolder(h) == h.home + "/.kubev"
    ensures Directory(KubeVHomeFolder(h))
  {
    JoinSegment(h.home, ".kubev");
  }

  /** The private key is `<home>/.kubev/id_rsa` and the public key sits beside it. */
  lemma KeyPaths(h: Host)
    requires Directory(h.home)
    ensures VMPrivateKeyPath(h) == h.home + "/.kubev/id_rsa"
    ensures VMPublicKeyPath(h) == h.home + "/.kubev/id_rsa.pub"
  {
    HomeFolderShape(h);
    JoinSegment(KubeVHomeFolder(h), "id_rsa");
  }

  /** The node inventory is `<home>/.kubev/config.json`. */
  lemma ConfigFileShape(h: Host)
    requires Directory(h.home)
    ensures K8sNodesConfigFilePath(h) == h.home + "/.kubev/config.json"
  {
    HomeFolderShape(h);
    JoinSegment(KubeVHomeFolder(h), "config.json");
  }

  /** The cache folder of a kit is `<home>/.kubev/cache/<name>/<version>`. */
  lemma KitPathShape(h: Host, binaryName: string, version: string)
    requires Directory(h.home) && Segment(binaryName) && Segment(version)
    ensures LocalK8sKitPath(h, binaryName, version) ==
      h.home + "/.kubev/cache/" + binaryName + "/" + version
    ensures Directory(LocalK8sKitPath(h, binaryName, version))
  {
    HomeFolderShape(h);
    JoinFourSegments(KubeVHomeFolder(h), "cache", binaryName, version);
    assert Segment("cache");
  }

  /** A kit other than docker is the file named after it inside its cache folder. */
  lemma KitFileBesideKit(h: Host, binaryName: string, version: string)
    requires binaryName != DockerBinaryName
    ensures LocalK8sKitFilePath(h, binaryName, version) ==
      Join(LocalK8sKitPath(h, binaryName, version), binaryName)
  {
    var parts := [KubeVHomeFolder(h), "cache", binaryName, version, binaryName];
    assert parts[..4] == [KubeVHomeFolder(h), "cache", binaryName, version];
  }

  /** Docker's binary is one level deeper: `<kit folder>/docker/docker`. */
  lemma DockerFileShape(h: Host, version: string)
    ensures LocalK8sKitFilePath(h, DockerBinaryName, version) ==
      Join(Join(LocalK8sKitPath(h, DockerBinaryName, version), "docker"), "docker")
  {
    var kit := [KubeVHomeFolder(h), "cache", DockerBinaryName, version];
    var parts := kit + [DockerBinaryName, DockerBinaryName];
    assert parts[..5] == kit + [DockerBinaryName];
    assert (kit + [DockerBinaryName])[..4] == kit;
    assert JoinAll(kit + [DockerBinaryName]) == Join(JoinAll(kit), DockerBinaryName);
    assert JoinAll(parts) == Join(JoinAll(kit + [DockerBinaryName]), DockerBinaryName);
    assert parts == [KubeVHomeFolder(h), "cache", DockerBinaryName, version, DockerBinaryName, DockerBinaryName];
  }

  /** With plain components, the docker binary path ends in `docker/<version>/docker/docker`. */
  lemma DockerFileEnding(h: Host, version: string)
    requires Directory(h.home) && Segment(version)
    ensures LocalK8sKitFilePath(h, DockerBinaryName, version) ==
      h.home + "/.kubev/cache/docker/" + version + "/docker/docker"
  {
    DockerFileShape(h, version);
    KitPathShape(h, DockerBinaryName, version);
    var kit := LocalK8sKitPath(h, DockerBinaryName, version);
    assert Segment("docker");
    JoinSegment(kit, "docker");
    assert Join(kit, "docker") == kit + "/docker";
    JoinSegment(kit + "/docker", "docker");
    assert Join(kit + "/docker", "docker") == kit + "/docker" + "/" + "docker";
    assert LocalK8sKitFilePath(h, DockerBinaryName, version) == kit + "/docker" + "/" + "docker";
    assert kit + "/docker" + "/" + "docker" ==
      h.home + "/.kubev/cache/docker/" + version + "/docker/docker";
  }

  // ------------------------------------------------------------------- URLs

  /** kubectl always comes from Google for the host's GOOS, even for v1.13.0. */
  lemma KubectlURL(h: Host, version: string)
    ensures K8sKitReleaseURL(h, KubeCtlBinaryName, version) ==
      "https://storage.googleapis.com/kubernetes-release/release/" + version + "/bin/" + h.goos + "/amd64/kubectl"
  {
  }

  /** The OVA, crictl, the CNI kit and docker have one URL whatever the version. */
  lemma FixedURLs(h: Host, binaryName: string, v1: string, v2: string)
    requires FixedDownload(binaryName)
    ensures K8sKitReleaseURL(h, binaryName, v1) == K8sKitReleaseURL(h, binaryName, v2)
    ensures K8sKitReleaseURL(h, binaryName, v1) in {PhotonOVAURL, CriCtlURL, CNIKitsURL, DockerURL}
  {
  }

  /**
   * For v1.13.0 every other name comes from Google for linux and GOARCH, with
   * the guest kubectl renamed to kubectl.
   */
  lemma MirrorlessURL(h: Host, binaryName: string)
    requires binaryName != KubeCtlBinaryName && !FixedDownload(binaryName)
    ensures K8sKitReleaseURL(h, binaryName, MirrorlessVersion) ==
      GoogleRelease + "v1.13.0/bin/linux/" + h.goarch + "/" +
      (if binaryName == GuestKubeCtlBinaryName then "kubectl" else binaryName)
  {
    var name := if binaryName == GuestKubeCtlBinaryName then KubeCtlBinaryName else binaryName;
    assert MirrorlessVersion + "/bin/linux/" == "v1.13.0/bin/linux/";
    assert K8sKitReleaseURL(h, binaryName, MirrorlessVersion) ==
      GoogleRelease + (MirrorlessVersion + "/bin/linux/") + h.goarch + "/" + name;
  }

  /** Every other name and version falls through to the Aliyun mirror, name unchanged. */
  lemma MirrorURL(h: Host, binaryName: string, version: string)
    requires binaryName != KubeCtlBinaryName && !FixedDownload(binaryName)
    requires version != MirrorlessVersion
    ensures K8sKitReleaseURL(h, binaryName, version) ==
      "https://kubernetes.oss-cn-hangzhou.aliyuncs.com/kubernetes-release/release/" +
      version + "/bin/linux/" + h.goarch + "/" + binaryName
  {
  }
}
