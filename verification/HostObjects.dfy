/** The seven objects the controller makes in the host cluster for one tenant. */
module HostObjects {
  import opened Wrappers
  import opened Certificates
  import K = Kubeconfigs
  import opened Tenants

  // ---------- Object data ----------

  datatype Content = PemFile(pem: Pem) | ConfigFile(config: K.Kubeconfig)

  /** A command-line argument: the program, a flag with its value, or one that names a file of a directory. */
  datatype Arg =
    | Program(name: string)
    | ValueArg(flag: string, value: string)
    | FileArg(flag: string, directory: string, file: string)

  datatype VolumeMount = VolumeMount(volume: string, mountPath: string)
  datatype Volume = Volume(name: string, secretName: string)

  datatype DeploymentSpec = DeploymentSpec(
    replicas: int,
    labels: map<string, string>,
    command: seq<Arg>,
    mounts: seq<VolumeMount>,
    volumes: seq<Volume>)

  datatype HostObject =
    | Namespace(owners: seq<OwnerReference>)
    | Secret(owners: seq<OwnerReference>, kind: string, data: map<string, Content>)
    | Deployment(owners: seq<OwnerReference>, spec: DeploymentSpec, replicas: int, readyReplicas: int)
    | Service(owners: seq<OwnerReference>, selector: map<string, string>, port: int)

  // ---------- Names ----------

  /** The seven objects, in the order the controller makes them. */
  datatype Part =
    | HostNamespace
    | ServerCert
    | AdminConfig
    | ManagerConfig
    | Apiserver
    | ApiserverService
    | Manager

  const PARTS: set<Part> :=
    {HostNamespace, ServerCert, AdminConfig, ManagerConfig, Apiserver, ApiserverService, Manager}

  function Position(p: Part): nat {
    match p
    case HostNamespace => 0
    case ServerCert => 1
    case AdminConfig => 2
    case ManagerConfig => 3
    case Apiserver => 4
    case ApiserverService => 5
    case Manager => 6
  }

  datatype Kind = NamespaceKind | SecretKind | DeploymentKind | ServiceKind

  datatype Key = Key(kind: Kind, namespace: string, name: string)

  function KeyOf(p: Part, tenant: string): Key {
    var ns := ClusterNamespaceInHost(tenant);
    match p
    case HostNamespace => Key(NamespaceKind, "", ns)
    case ServerCert => Key(SecretKind, ns, "server-cert")
    case AdminConfig => Key(SecretKind, ns, "kubeconfig-admin")
    case ManagerConfig => Key(SecretKind, ns, "kubeconfig-controller-manager")
    case Apiserver => Key(DeploymentKind, ns, "kube-apiserver")
    case ApiserverService => Key(ServiceKind, ns, "kube-apiserver")
    case Manager => Key(DeploymentKind, ns, "kube-controller-manager")
  }

  /** Two tenants never share a key, and no two objects of a tenant do. */
  lemma KeysAreDistinct(p: Part, q: Part, a: string, b: string)
    ensures KeyOf(p, a) == KeyOf(q, b) ==> p == q && a == b
  {
    NamespacesAreDistinct(a, b);
  }

  // ---------- What each object holds ----------

  /** What the controller is started with, and the tenant it works for. */
  datatype Setup = Setup(name: string, etcdSecret: map<string, Pem>, etcdServers: string)

  const ETCD_FILES := {"etcd-ca.crt", "apiserver-etcd-client.crt", "apiserver-etcd-client.key"}

  const PKI := "/etc/kubernetes/pki"
  const KUBECONFIG_DIR := "/etc/kubernetes/kubeconfig"

  function ApiserverConfig(tenant: string): CertConfig {
    CertConfig("kube-apiserver", [], [K.ApiserverName(tenant), "localhost"], ["127.0.0.1"], [ServerAuth])
  }

  const KUBELET_CLIENT_CONFIG := CertConfig("kube-apiserver-kubelet-client", ["system:masters"], [], [], [ClientAuth])
  const FRONT_CA_CONFIG := EMPTY_CONFIG.(dnsNames := ["front-proxy-ca"])
  const FRONT_CLIENT_CONFIG := CertConfig("front-proxy-client", [], [], [], [ClientAuth])
  const ADMIN_CONFIG := CertConfig("kubernetes-admin", ["system:masters"], [], [], [ClientAuth])
  const MANAGER_CONFIG := CertConfig("system:kube-controller-manager", [], [], [], [ClientAuth])

  /** The twelve generated files of server-cert, in the order they are written. */
  datatype Pki = Pki(
    ca: Certificate, caKey: KeyId,
    apiserver: Certificate, apiserverKey: KeyId,
    kubelet: Certificate, kubeletKey: KeyId,
    frontCA: Certificate, frontCAKey: KeyId,
    front: Certificate, frontKey: KeyId,
    saKey: KeyId)

  function NewPki(tenant: string, entropy: Entropy): Result<Pki> {
    if entropy.Exhausted? then Err
    else
      var (ca, caKey) := NewCA(None, entropy.k0);
      var apiserver := NewCertAndKey(ca, caKey, ApiserverConfig(tenant), entropy.k1);
      var kubelet := NewCertAndKey(ca, caKey, KUBELET_CLIENT_CONFIG, entropy.k2);
      var (frontCA, frontCAKey) := NewCA(Some(FRONT_CA_CONFIG), entropy.k3);
      var front := NewCertAndKey(frontCA, frontCAKey, FRONT_CLIENT_CONFIG, entropy.k4);
      if apiserver.Err? || kubelet.Err? || front.Err? then Err
      else Ok(Pki(ca, caKey, apiserver.value.0, apiserver.value.1, kubelet.value.0, kubelet.value.1,
                  frontCA, frontCAKey, front.value.0, front.value.1, entropy.k5))
  }

  const PKI_FILES := {
    "ca.crt", "ca.key", "apiserver.crt", "apiserver.key", "apiserver-kubelet-client.crt",
    "apiserver-kubelet-client.key",
    "front-proxy-ca.crt", "front-proxy-ca.key", "front-proxy-client.crt", "front-proxy-client.key", "sa.pub", "sa.key"
  }

  /** The generated files, which win over files of the same name that come with the etcd secret. */
  function GeneratedFiles(pki: Pki): map<string, Content> {
    map[
      "ca.crt" := PemFile(CertPem(pki.ca)),
      "ca.key" := PemFile(PrivatePem(pki.caKey)),
      "apiserver.crt" := PemFile(CertPem(pki.apiserver)),
      "apiserver.key" := PemFile(PrivatePem(pki.apiserverKey)),
      "apiserver-kubelet-client.crt" := PemFile(CertPem(pki.kubelet)),
      "apiserver-kubelet-client.key" := PemFile(PrivatePem(pki.kubeletKey)),
      "front-proxy-ca.crt" := PemFile(CertPem(pki.frontCA)),
      "front-proxy-ca.key" := PemFile(PrivatePem(pki.frontCAKey)),
      "front-proxy-client.crt" := PemFile(CertPem(pki.front)),
      "front-proxy-client.key" := PemFile(PrivatePem(pki.frontKey)),
      "sa.pub" := PemFile(PublicPem(pki.saKey)),
      "sa.key" := PemFile(PrivatePem(pki.saKey))
    ]
  }

  function ServerCertData(etcdSecret: map<string, Pem>, pki: Pki): map<string, Content> {
    (map k | k in etcdSecret :: PemFile(etcdSecret[k])) + GeneratedFiles(pki)
  }

  /** Every etcd file is there as it came, but for those whose name a generated file takes. */
  lemma EtcdFilesKept(etcdSecret: map<string, Pem>, pki: Pki)
    ensures var data := ServerCertData(etcdSecret, pki);
            data.Keys == etcdSecret.Keys + PKI_FILES &&
            forall k | k in etcdSecret && k !in PKI_FILES :: data[k] == PemFile(etcdSecret[k])
  {
    assert GeneratedFiles(pki).Keys == PKI_FILES;
  }

  /** Assigning the generated files in turn gives the union in which they win. */
  lemma AssignedInTurn(m: map<string, Content>, pki: Pki)
    ensures m["ca.crt" := PemFile(CertPem(pki.ca))]
             ["ca.key" := PemFile(PrivatePem(pki.caKey))]
             ["apiserver.crt" := PemFile(CertPem(pki.apiserver))]
             ["apiserver.key" := PemFile(PrivatePem(pki.apiserverKey))]
             ["apiserver-kubelet-client.crt" := PemFile(CertPem(pki.kubelet))]
             ["apiserver-kubelet-client.key" := PemFile(PrivatePem(pki.kubeletKey))]
             ["front-proxy-ca.crt" := PemFile(CertPem(pki.frontCA))]
             ["front-proxy-ca.key" := PemFile(PrivatePem(pki.frontCAKey))]
             ["front-proxy-client.crt" := PemFile(CertPem(pki.front))]
             ["front-proxy-client.key" := PemFile(PrivatePem(pki.frontKey))]
             ["sa.pub" := PemFile(PublicPem(pki.saKey))]
             ["sa.key" := PemFile(PrivatePem(pki.saKey))]
            == m + GeneratedFiles(pki)
  {
  }

  /** The loop that copies the etcd files and the assignments that follow it. */
  method FillServerCertData(etcdSecret: map<string, Pem>, pki: Pki) returns (result: map<string, Content>)
    ensures result == ServerCertData(etcdSecret, pki)
    ensures result.Keys == etcdSecret.Keys + PKI_FILES
    ensures forall k | k in etcdSecret && k !in PKI_FILES :: result[k] == PemFile(etcdSecret[k])
  {
    hide GeneratedFiles;
    result := map[];
    var todo := etcdSecret.Keys;
    while todo != {}
      invariant todo <= etcdSecret.Keys
      invariant result == map k | k in etcdSecret && k !in todo :: PemFile(etcdSecret[k])
      decreases todo
    {
      var k :| k in todo;
      result := result[k := PemFile(etcdSecret[k])];
      todo := todo - {k};
    }
    assert result == map k | k in etcdSecret :: PemFile(etcdSecret[k]);
    ghost var etcdFiles := result;
    result := result["ca.crt" := PemFile(CertPem(pki.ca))];
    result := result["ca.key" := PemFile(PrivatePem(pki.caKey))];
    result := result["apiserver.crt" := PemFile(CertPem(pki.apiserver))];
    result := result["apiserver.key" := PemFile(PrivatePem(pki.apiserverKey))];
    result := result["apiserver-kubelet-client.crt" := PemFile(CertPem(pki.kubelet))];
    result := result["apiserver-kubelet-client.key" := PemFile(PrivatePem(pki.kubeletKey))];
    result := result["front-proxy-ca.crt" := PemFile(CertPem(pki.frontCA))];
    result := result["front-proxy-ca.key" := PemFile(PrivatePem(pki.frontCAKey))];
    result := result["front-proxy-client.crt" := PemFile(CertPem(pki.front))];
    result := result["front-proxy-client.key" := PemFile(PrivatePem(pki.frontKey))];
    result := result["sa.pub" := PemFile(PublicPem(pki.saKey))];
    result := result["sa.key" := PemFile(PrivatePem(pki.saKey))];
    AssignedInTurn(etcdFiles, pki);
    EtcdFilesKept(etcdSecret, pki);
  }

  // ---------- The two deployments ----------

  function Labels(app: string, tenant: string): map<string, string> { map["app" := app, "tenant" := tenant] }

  function ApiserverSpec(setup: Setup): DeploymentSpec {
    DeploymentSpec(
      1,
      Labels("kube-apiserver", setup.name),
      [ Program("kube-apiserver"),
        FileArg("--client-ca-file", PKI, "ca.crt"),
        FileArg("--etcd-cafile", PKI, "etcd-ca.crt"),
        FileArg("--etcd-certfile", PKI, "apiserver-etcd-client.crt"),
        FileArg("--etcd-keyfile", PKI, "apiserver-etcd-client.key"),
        ValueArg("--etcd-servers", setup.etcdServers),
        ValueArg("--etcd-prefix", "/" + setup.name + "/registry"),
        FileArg("--kubelet-client-certificate", PKI, "apiserver-kubelet-client.crt"),
        FileArg("--kubelet-client-key", PKI, "apiserver-kubelet-client.key"),
        FileArg("--proxy-client-cert-file", PKI, "front-proxy-client.crt"),
        FileArg("--proxy-client-key-file", PKI, "front-proxy-client.key"),
        ValueArg("--requestheader-allowed-names", "front-proxy-client"),
        FileArg("--requestheader-client-ca-file", PKI, "front-proxy-ca.crt"),
        ValueArg("--secure-port", "6443"),
        FileArg("--service-account-key-file", PKI, "sa.pub"),
        FileArg("--service-account-signing-key-file", PKI, "sa.key"),
        FileArg("--tls-cert-file", PKI, "apiserver.crt"),
        FileArg("--tls-private-key-file", PKI, "apiserver.key") ],
      [VolumeMount("server-cert", PKI)],
      [Volume("server-cert", "server-cert")])
  }

  function ManagerSpec(setup: Setup): DeploymentSpec {
    DeploymentSpec(
      1,
      Labels("kube-controller-manager", setup.name),
      [ Program("kube-controller-manager"),
        FileArg("--authentication-kubeconfig", KUBECONFIG_DIR, "controller-manager.conf"),
        FileArg("--authorization-kubeconfig", KUBECONFIG_DIR, "controller-manager.conf"),
        FileArg("--client-ca-file", PKI, "ca.crt"),
        FileArg("--cluster-signing-cert-file", PKI, "ca.crt"),
        FileArg("--cluster-signing-key-file", PKI, "ca.key"),
        FileArg("--kubeconfig", KUBECONFIG_DIR, "controller-manager.conf"),
        FileArg("--requestheader-client-ca-file", PKI, "front-proxy-ca.crt"),
        FileArg("--root-ca-file", PKI, "ca.crt"),
        FileArg("--service-account-private-key-file", PKI, "sa.key") ],
      [VolumeMount("server-cert", PKI), VolumeMount("kubeconfig", KUBECONFIG_DIR)],
      [Volume("server-cert", "server-cert"), Volume("kubeconfig", "kubeconfig-controller-manager")])
  }

  // ---------- Filling an object in ----------

  predicate IsKubeconfig(p: Part) { p.AdminConfig? || p.ManagerConfig? }

  /** The CA certificate and key in the server-cert secret; an error if either is missing or unreadable. */
  function ParseCASecret(o: HostObject): Result<(Certificate, KeyId)> {
    if !o.Secret? || "ca.crt" !in o.data || !o.data["ca.crt"].PemFile? then Err
    else
      match DecodeCertPEM(o.data["ca.crt"].pem)
      case Err => Err
      case Ok(ca) =>
        if "ca.key" !in o.data || !o.data["ca.key"].PemFile? then Err
        else
          match DecodePrivateKeyPEM(o.data["ca.key"].pem)
          case Err => Err
          case Ok(key) => Ok((ca, key))
  }

  function ConfigFileName(p: Part): string {
    if p.AdminConfig? then "admin.conf" else "controller-manager.conf"
  }

  function UserConfig(p: Part): CertConfig {
    if p.AdminConfig? then ADMIN_CONFIG else MANAGER_CONFIG
  }

  /** A kubeconfig secret, made from the CA read back from the server-cert secret. */
  function DraftKubeconfig(setup: Setup, p: Part, owner: OwnerReference, serverCert: HostObject, entropy: Entropy)
    : Result<HostObject>
  {
    match ParseCASecret(serverCert)
    case Err => Err
    case Ok((ca, caKey)) =>
      if entropy.Exhausted? then Err
      else
        match K.NewWithSecret(setup.name, K.Endpoint(setup.name), ca, caKey, UserConfig(p), entropy.k0)
        case Err => Err
        case Ok(config) => Ok(Secret([owner], "kcp/kubeconfig", map[ConfigFileName(p) := ConfigFile(config)]))
  }

  /** Any other object, which depends on nothing already stored. */
  function Draft(setup: Setup, p: Part, owner: OwnerReference, entropy: Entropy): Result<HostObject> {
    match p
    case HostNamespace => Ok(Namespace([owner]))
    case ServerCert =>
      (match NewPki(setup.name, entropy)
       case Err => Err
       case Ok(pki) => Ok(Secret([owner], "kcp/kube-secret", ServerCertData(setup.etcdSecret, pki))))
    case Apiserver => Ok(Deployment([owner], ApiserverSpec(setup), 0, 0))
    case ApiserverService => Ok(Service([owner], Labels("kube-apiserver", setup.name), 6443))
    case Manager => Ok(Deployment([owner], ManagerSpec(setup), 0, 0))
    case _ => Err
  }

  /** What the callback for server-cert does, key by key and file by file. */
  method MakeServerCert(setup: Setup, owner: OwnerReference, entropy: Entropy) returns (r: Result<HostObject>)
    ensures r == Draft(setup, ServerCert, owner, entropy)
  {
    if entropy.Exhausted? {
      return Err;
    }
    var ca := MakeCA(null, entropy.k0);
    var apiserver := NewCertAndKey(ca, entropy.k0, ApiserverConfig(setup.name), entropy.k1);
    if apiserver.Err? {
      return Err;
    }
    var kubelet := NewCertAndKey(ca, entropy.k0, KUBELET_CLIENT_CONFIG, entropy.k2);
    if kubelet.Err? {
      return Err;
    }
    var frontConfig := new Config(FRONT_CA_CONFIG);
    var frontCA := MakeCA(frontConfig, entropy.k3);
    var front := NewCertAndKey(frontCA, entropy.k3, FRONT_CLIENT_CONFIG, entropy.k4);
    if front.Err? {
      return Err;
    }
    var pki := Pki(ca, entropy.k0, apiserver.value.0, apiserver.value.1, kubelet.value.0, kubelet.value.1,
                   frontCA, entropy.k3, front.value.0, front.value.1, entropy.k5);
    var result := FillServerCertData(setup.etcdSecret, pki);
    return Ok(Secret([owner], "kcp/kube-secret", result));
  }
}
