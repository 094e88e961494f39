/**
 What the stored secrets and deployments of a tenant say about one another, in every state a
 run can reach: the credential chain, and the files the deployments name.
 */
module Credentials {
  import opened Wrappers
  import opened Certificates
  import opened Tenants
  import opened HostObjects
  import opened Protocol
  import opened Invariants
  import K = Kubeconfigs

  // ---------- Files of the server-cert secret ----------

  /** Names of equal length differ in one character. */
  lemma FileNamesDiffer()
    ensures "ca.crt" != "ca.key" && "ca.crt" != "sa.pub" && "ca.crt" != "sa.key"
    ensures "ca.key" != "sa.pub" && "ca.key" != "sa.key" && "sa.pub" != "sa.key"
    ensures "apiserver.crt" != "apiserver.key"
    ensures "front-proxy-ca.crt" != "front-proxy-ca.key"
    ensures "front-proxy-client.crt" != "front-proxy-client.key"
  {
  }

  function PemOf(o: HostObject, file: string): Option<Pem> {
    if o.Secret? && file in o.data && o.data[file].PemFile? then Some(o.data[file].pem) else None
  }

  function CertOf(o: HostObject, file: string): Option<Certificate> {
    match PemOf(o, file) case Some(CertPem(cert)) => Some(cert) case _ => None
  }

  function KeyOfFile(o: HostObject, file: string): Option<KeyId> {
    match PemOf(o, file) case Some(PrivatePem(key)) => Some(key) case _ => None
  }

  lemma GeneratedFileNames(pki: Pki)
    ensures GeneratedFiles(pki).Keys == PKI_FILES
  {
  }

  lemma GeneratedFilesByName(pki: Pki)
    ensures var g := GeneratedFiles(pki);
            && g.Keys == PKI_FILES
            && g["ca.crt"] == PemFile(CertPem(pki.ca)) && g["ca.key"] == PemFile(PrivatePem(pki.caKey))
            && g["front-proxy-ca.crt"] == PemFile(CertPem(pki.frontCA))
            && g["front-proxy-ca.key"] == PemFile(PrivatePem(pki.frontCAKey))
            && g["apiserver.crt"] == PemFile(CertPem(pki.apiserver))
            && g["apiserver.key"] == PemFile(PrivatePem(pki.apiserverKey))
            && g["apiserver-kubelet-client.crt"] == PemFile(CertPem(pki.kubelet))
            && g["apiserver-kubelet-client.key"] == PemFile(PrivatePem(pki.kubeletKey))
            && g["front-proxy-client.crt"] == PemFile(CertPem(pki.front))
            && g["front-proxy-client.key"] == PemFile(PrivatePem(pki.frontKey))
            && g["sa.pub"] == PemFile(PublicPem(pki.saKey)) && g["sa.key"] == PemFile(PrivatePem(pki.saKey))
  {
    FileNamesDiffer();
    GeneratedFileNames(pki);
  }

  /** Generated files win over etcd files of the same name. */
  lemma GeneratedFilesWin(etcdSecret: map<string, Pem>, pki: Pki, file: string)
    ensures ServerCertData(etcdSecret, pki).Keys == PKI_FILES + etcdSecret.Keys
    ensures file in PKI_FILES ==> ServerCertData(etcdSecret, pki)[file] == GeneratedFiles(pki)[file]
    ensures file in etcdSecret && file !in PKI_FILES ==>
              ServerCertData(etcdSecret, pki)[file] == PemFile(etcdSecret[file])
  {
    GeneratedFilesByName(pki);
  }

  lemma NewPkiChains(tenant: string, entropy: Entropy)
    requires entropy.Keys?
    ensures var pki := NewPki(tenant, entropy);
            && pki.Ok?
            && pki.value.ca == CACert(EMPTY_CONFIG, entropy.k0) && pki.value.caKey == entropy.k0
            && Verifies(pki.value.apiserver, pki.value.ca) && Verifies(pki.value.kubelet, pki.value.ca)
            && pki.value.apiserver.dnsNames == [K.ApiserverName(tenant), "localhost"]
            && pki.value.frontCA == CACert(FRONT_CA_CONFIG, entropy.k3)
            && Verifies(pki.value.front, pki.value.frontCA)
  {
  }

  lemma DraftTakesKeys(setup: Setup, owner: OwnerReference, e: Entropy)
    requires Draft(setup, ServerCert, owner, e).Ok?
    ensures e.Keys?
  {
  }

  /** Every file of the etcd secret is there as it came, but for those whose name a generated file takes. */
  ghost predicate HoldsEtcdFiles(setup: Setup, o: HostObject) {
    o.Secret? && forall k | k in setup.etcdSecret && k !in PKI_FILES :: PemOf(o, k) == Some(setup.etcdSecret[k])
  }

  lemma DraftHolds(setup: Setup, owner: OwnerReference, entropy: Entropy)
    requires Draft(setup, ServerCert, owner, entropy).Ok?
    ensures var o := Draft(setup, ServerCert, owner, entropy).value;
            && o.Secret? && o.owners == [owner] && o.kind == "kcp/kube-secret"
            && o.data.Keys == PKI_FILES + setup.etcdSecret.Keys
            && HoldsEtcdFiles(setup, o)
  {
    hide GeneratedFiles, NewPki, ServerCertData;
    var pki, o := NewPki(setup.name, entropy).value, Draft(setup, ServerCert, owner, entropy).value;
    GeneratedFilesWin(setup.etcdSecret, pki, "ca.crt");
    forall k | k in setup.etcdSecret && k !in PKI_FILES ensures PemOf(o, k) == Some(setup.etcdSecret[k]) {
      GeneratedFilesWin(setup.etcdSecret, pki, k);
    }
  }

  lemma PemOfGenerated(setup: Setup, owner: OwnerReference, entropy: Entropy, file: string)
    requires entropy.Keys? && file in PKI_FILES
    ensures NewPki(setup.name, entropy).Ok? && Draft(setup, ServerCert, owner, entropy).Ok?
    ensures var content := GeneratedFiles(NewPki(setup.name, entropy).value)[file];
            PemOf(Draft(setup, ServerCert, owner, entropy).value, file) ==
            if content.PemFile? then Some(content.pem) else None
  {
    NewPkiChains(setup.name, entropy);
    GeneratedFilesWin(setup.etcdSecret, NewPki(setup.name, entropy).value, file);
  }

  /** Whatever files come with etcd, the secret holds the generated ones, and any other only from etcd. */
  lemma ServerCertFiles(setup: Setup, owner: OwnerReference, entropy: Entropy)
    requires Draft(setup, ServerCert, owner, entropy).Ok?
    ensures var o := Draft(setup, ServerCert, owner, entropy).value;
            && o.Secret? && o.owners == [owner] && o.data.Keys == PKI_FILES + setup.etcdSecret.Keys
            && HoldsEtcdFiles(setup, o)
            && CertOf(o, "ca.crt") == Some(CACert(EMPTY_CONFIG, entropy.k0))
            && KeyOfFile(o, "ca.key") == Some(entropy.k0)
            && CertOf(o, "apiserver.crt").Some?
            && Verifies(CertOf(o, "apiserver.crt").value, CACert(EMPTY_CONFIG, entropy.k0))
            && CertOf(o, "apiserver.crt").value.dnsNames == [K.ApiserverName(setup.name), "localhost"]
            && CertOf(o, "apiserver.crt").value.usages == [ServerAuth]
            && CertOf(o, "front-proxy-ca.crt") == Some(CACert(FRONT_CA_CONFIG, entropy.k3))
            && CertOf(o, "front-proxy-client.crt").Some?
            && Verifies(CertOf(o, "front-proxy-client.crt").value, CACert(FRONT_CA_CONFIG, entropy.k3))
  {
    hide Draft, GeneratedFiles;
    DraftTakesKeys(setup, owner, entropy);
    NewPkiChains(setup.name, entropy);
    GeneratedFilesByName(NewPki(setup.name, entropy).value);
    DraftHolds(setup, owner, entropy);
    PemOfGenerated(setup, owner, entropy, "ca.crt");
    PemOfGenerated(setup, owner, entropy, "ca.key");
    PemOfGenerated(setup, owner, entropy, "apiserver.crt");
    PemOfGenerated(setup, owner, entropy, "front-proxy-ca.crt");
    PemOfGenerated(setup, owner, entropy, "front-proxy-client.crt");
  }

  /** The CA can be read back from any server-cert secret the controller made. */
  lemma ServerCertParses(setup: Setup, owner: OwnerReference, entropy: Entropy)
    requires Draft(setup, ServerCert, owner, entropy).Ok?
    ensures ParseCASecret(Draft(setup, ServerCert, owner, entropy).value) ==
            Ok((CACert(EMPTY_CONFIG, entropy.k0), entropy.k0))
  {
    ServerCertFiles(setup, owner, entropy);
  }

  /** The certificate, no CA's own, and the key form a pair, issued by the CA to a subject for one use. */
  predicate Pair(cert: Option<Certificate>, key: Option<KeyId>, ca: Certificate, subject: Subject, usage: Usage) {
    cert.Some? && key == Some(cert.value.publicKey) && Verifies(cert.value, ca) && !cert.value.isCA &&
    cert.value.subject == subject && cert.value.usages == [usage]
  }

  predicate Issued(
      o: HostObject, certFile: string, keyFile: string, ca: Certificate, subject: Subject, usage: Usage)
  {
    Pair(CertOf(o, certFile), KeyOfFile(o, keyFile), ca, subject, usage)
  }

  const CA_SUBJECT := Subject("ca", ["kcp"])
  const APISERVER_SUBJECT := Subject("kube-apiserver", [])
  const KUBELET_CLIENT_SUBJECT := Subject("kube-apiserver-kubelet-client", ["system:masters"])
  const FRONT_CLIENT_SUBJECT := Subject("front-proxy-client", [])

  /** Every certificate in the secret is paired with its key and verifies under the CA it is meant for. */
  ghost predicate Consistent(o: HostObject) {
    var ca, frontCA := CertOf(o, "ca.crt"), CertOf(o, "front-proxy-ca.crt");
    && ca.Some? && ca.value.isCA && ca.value.subject == CA_SUBJECT
    && KeyOfFile(o, "ca.key") == Some(ca.value.publicKey)
    && frontCA.Some? && frontCA.value.isCA && frontCA.value.subject == CA_SUBJECT
    && frontCA.value.dnsNames == ["front-proxy-ca"]
    && KeyOfFile(o, "front-proxy-ca.key") == Some(frontCA.value.publicKey)
    && Issued(o, "apiserver.crt", "apiserver.key", ca.value, APISERVER_SUBJECT, ServerAuth)
    && CertOf(o, "apiserver.crt").value.ips == ["127.0.0.1"]
    && Issued(o, "apiserver-kubelet-client.crt", "apiserver-kubelet-client.key", ca.value, KUBELET_CLIENT_SUBJECT,
       ClientAuth)
    && Issued(o, "front-proxy-client.crt", "front-proxy-client.key", frontCA.value, FRONT_CLIENT_SUBJECT, ClientAuth)
    && exists sa :: PemOf(o, "sa.pub") == Some(PublicPem(sa)) && PemOf(o, "sa.key") == Some(PrivatePem(sa))
  }

  lemma DraftIsConsistent(setup: Setup, owner: OwnerReference, entropy: Entropy)
    requires entropy.Keys?
    ensures Draft(setup, ServerCert, owner, entropy).Ok? && Consistent(Draft(setup, ServerCert, owner, entropy).value)
  {
    hide Draft, GeneratedFiles;
    PemOfGenerated(setup, owner, entropy, "ca.crt");
    PemOfGenerated(setup, owner, entropy, "ca.key");
    PemOfGenerated(setup, owner, entropy, "front-proxy-ca.crt");
    PemOfGenerated(setup, owner, entropy, "front-proxy-ca.key");
    PemOfGenerated(setup, owner, entropy, "apiserver.crt");
    PemOfGenerated(setup, owner, entropy, "apiserver.key");
    PemOfGenerated(setup, owner, entropy, "apiserver-kubelet-client.crt");
    PemOfGenerated(setup, owner, entropy, "apiserver-kubelet-client.key");
    PemOfGenerated(setup, owner, entropy, "front-proxy-client.crt");
    PemOfGenerated(setup, owner, entropy, "front-proxy-client.key");
    PemOfGenerated(setup, owner, entropy, "sa.pub");
    PemOfGenerated(setup, owner, entropy, "sa.key");
    GeneratedFilesByName(NewPki(setup.name, entropy).value);
  }

  /** In every reachable state the server-cert secret of a live tenant holds the etcd files as they came. */
  lemma EtcdFilesAreStored(setup: Setup, c: Cell)
    requires Reachable(setup, c) && c.tenant.Some? && ServerCert in c.host
    ensures HoldsEtcdFiles(setup, c.host[ServerCert])
  {
    hide Draft, HoldsEtcdFiles;
    ReachableInv(setup, c);
    var owner := c.tenant.value.AsOwner();
    assert ObjectOk(setup, owner, c.host, ServerCert);
    var e :| Draft(setup, ServerCert, owner, e) == Ok(c.host[ServerCert]);
    DraftHolds(setup, owner, e);
  }

  /** In every reachable state the server-cert secret of a live tenant is consistent. */
  lemma StoredPkiIsConsistent(setup: Setup, c: Cell)
    requires Reachable(setup, c) && c.tenant.Some? && ServerCert in c.host
    ensures Consistent(c.host[ServerCert])
  {
    hide Consistent;
    ReachableInv(setup, c);
    var owner := c.tenant.value.AsOwner();
    assert ObjectOk(setup, owner, c.host, ServerCert);
    var e :| Draft(setup, ServerCert, owner, e) == Ok(c.host[ServerCert]);
    DraftIsConsistent(setup, owner, e);
  }

  // ---------- The credential chain ----------

  /** Whom the API server takes the bearer of a kubeconfig file for. */
  function UserOf(file: string): Subject {
    if file == "admin.conf" then Subject("kubernetes-admin", ["system:masters"])
    else Subject("system:kube-controller-manager", [])
  }

  /**
   A client that follows the kubeconfig trusts exactly the stored CA certificate, presents a
   client certificate for the key it holds and the user it is meant to be, signed by the stored CA
   key, and dials a host the stored apiserver certificate, verifying under the same CA, is valid for.
   */
  ghost predicate CredentialChain(serverCert: HostObject, kubeconfig: HostObject, file: string) {
    && kubeconfig.Secret? && kubeconfig.kind == "kcp/kubeconfig" && file in kubeconfig.data &&
       kubeconfig.data[file].ConfigFile?
    && var connection := K.Resolve(kubeconfig.data[file].config);
       var ca, caKey := CertOf(serverCert, "ca.crt"), KeyOfFile(serverCert, "ca.key");
       var apiserver := CertOf(serverCert, "apiserver.crt");
    && connection.Some? && ca.Some? && caKey.Some? && apiserver.Some?
    && Some(connection.value.ca) == PemOf(serverCert, "ca.crt")
    && connection.value.clientCertificate.CertPem?
    && var client := connection.value.clientCertificate.cert;
    && connection.value.clientKey == PrivatePem(client.publicKey)
    && client.signedBy == caKey.value && Verifies(client, ca.value)
    && client.subject == UserOf(file) && client.usages == [ClientAuth] && !client.isCA
    && Verifies(apiserver.value, ca.value) && apiserver.value.usages == [ServerAuth]
    && var host := K.HostOf(connection.value.server);
    && host.Some? && host.value in apiserver.value.dnsNames
  }

  lemma KubeconfigChains(setup: Setup, p: Part, owner: OwnerReference, e: Entropy, entropy: Entropy)
    requires K.PlainName(setup.name) && IsKubeconfig(p) && Draft(setup, ServerCert, owner, e).Ok?
    requires DraftKubeconfig(setup, p, owner, Draft(setup, ServerCert, owner, e).value, entropy).Ok?
    ensures CredentialChain(Draft(setup, ServerCert, owner, e).value,
                            DraftKubeconfig(setup, p, owner, Draft(setup, ServerCert, owner, e).value, entropy).value,
                            ConfigFileName(p))
  {
    ServerCertFiles(setup, owner, e);
    ServerCertParses(setup, owner, e);
    K.NewWithSecretResolves(setup.name, K.Endpoint(setup.name), CACert(EMPTY_CONFIG, e.k0), e.k0, UserConfig(p),
        entropy.k0);
    K.EndpointHost(setup.name);
  }

  /** In every reachable state each stored kubeconfig of a live tenant chains to its server-cert secret. */
  lemma StoredKubeconfigsChain(setup: Setup, c: Cell, p: Part)
    requires Reachable(setup, c) && K.PlainName(setup.name)
    requires c.tenant.Some? && IsKubeconfig(p) && p in c.host
    ensures ServerCert in c.host && CredentialChain(c.host[ServerCert], c.host[p], ConfigFileName(p))
  {
    ReachableInv(setup, c);
    var owner := c.tenant.value.AsOwner();
    assert ObjectOk(setup, owner, c.host, p) && ObjectOk(setup, owner, c.host, ServerCert);
    var entropy :| DraftKubeconfig(setup, p, owner, c.host[ServerCert], entropy) == Ok(c.host[p]);
    var e :| Draft(setup, ServerCert, owner, e) == Ok(c.host[ServerCert]);
    KubeconfigChains(setup, p, owner, e, entropy);
  }

  // ---------- What the endpoint names ----------

  /** The cluster DNS name of the service made for a tenant. */
  function ServiceName(tenant: string): string {
    KeyOf(ApiserverService, tenant).name + "." + KeyOf(ApiserverService, tenant).namespace + ".svc"
  }

  lemma ServiceNameText(tenant: string)
    ensures ServiceName(tenant) == "kube-apiserver." + ClusterNamespaceInHost(tenant) + ".svc"
  {
    assert "kube-apiserver" + "." == "kube-apiserver.";
  }

  lemma ApiserverNameInjective(a: string, b: string)
    ensures "kube-apiserver." + a + ".svc" == "kube-apiserver." + b + ".svc" ==> a == b
  {
    var x, y := "kube-apiserver." + a + ".svc", "kube-apiserver." + b + ".svc";
    assert |"kube-apiserver."| == 15;
    assert x[15..|x| - 4] == a && y[15..|y| - 4] == b;
  }

  /**
   The endpoint of one tenant names the service of another exactly when the first is called what
   the second's namespace is called; so it never names the service of its own tenant, and the
   certificate is not valid for that service either.
   */
  lemma EndpointNamesService(a: string, b: string)
    requires K.PlainName(a)
    ensures K.HostOf(K.Endpoint(a)) == Some(ServiceName(b)) <==> a == ClusterNamespaceInHost(b)
    ensures K.HostOf(K.Endpoint(a)) != Some(ServiceName(a))
    ensures ServiceName(a) !in ApiserverConfig(a).dnsNames
  {
    ServiceNameText(a);
    ServiceNameText(b);
    K.EndpointHost(a);
    ApiserverNameInjective(a, ClusterNamespaceInHost(b));
    ApiserverNameInjective(a, ClusterNamespaceInHost(a));
    assert |ClusterNamespaceInHost(a)| == |a| + 7;
    assert |ServiceName(a)| > |"localhost"|;
  }

  // ---------- The files the deployments name ----------

  /** The secret of a tenant that has the given name. */
  function SecretNamed(host: map<Part, HostObject>, tenant: string, name: string): Option<HostObject> {
    if ServerCert in host && KeyOf(ServerCert, tenant).name == name then Some(host[ServerCert])
    else if AdminConfig in host && KeyOf(AdminConfig, tenant).name == name then Some(host[AdminConfig])
    else if ManagerConfig in host && KeyOf(ManagerConfig, tenant).name == name then Some(host[ManagerConfig])
    else None
  }

  ghost predicate Serves(host: map<Part, HostObject>, tenant: string, mount: VolumeMount, volume: Volume, arg: Arg)
    requires arg.FileArg?
  {
    var secret := SecretNamed(host, tenant, volume.secretName);
    mount.mountPath == arg.directory && volume.name == mount.volume &&
    secret.Some? && secret.value.Secret? && arg.file in secret.value.data
  }

  /** Every mounted secret exists, and every file the command names is in the secret mounted there. */
  ghost predicate MountsClosed(host: map<Part, HostObject>, tenant: string, spec: DeploymentSpec) {
    && (forall v | v in spec.volumes :: SecretNamed(host, tenant, v.secretName).Some?)
    && (forall arg | arg in spec.command && arg.FileArg? ::
          exists m, v :: m in spec.mounts && v in spec.volumes && Serves(host, tenant, m, v, arg))
  }

  lemma EtcdFilesAreNotGenerated()
    ensures ETCD_FILES !! PKI_FILES
  {
  }

  lemma ServerCertKeys(setup: Setup, owner: OwnerReference, host: map<Part, HostObject>)
    requires HostOk(setup, owner, host) && ServerCert in host
    ensures host[ServerCert].Secret? && host[ServerCert].data.Keys == PKI_FILES + setup.etcdSecret.Keys
  {
    assert ObjectOk(setup, owner, host, ServerCert);
    var e :| Draft(setup, ServerCert, owner, e) == Ok(host[ServerCert]);
    ServerCertFiles(setup, owner, e);
  }

  /** The apiserver's command names the three etcd files and only generated files besides. */
  lemma ApiserverFiles(setup: Setup, arg: Arg)
    requires arg in ApiserverSpec(setup).command && arg.FileArg?
    ensures arg.directory == PKI && arg.file in PKI_FILES + ETCD_FILES
  {
  }

  lemma EtcdFileArg(setup: Setup, file: string) returns (arg: Arg)
    requires file in ETCD_FILES
    ensures arg in ApiserverSpec(setup).command && arg.FileArg? && arg.file == file
  {
    var command := ApiserverSpec(setup).command;
    assert command[2].file == "etcd-ca.crt" && command[3].file == "apiserver-etcd-client.crt";
    arg := if file == "etcd-ca.crt" then command[2]
           else if file == "apiserver-etcd-client.crt" then command[3] else command[4];
  }

  lemma ManagerFiles(setup: Setup, arg: Arg)
    requires arg in ManagerSpec(setup).command && arg.FileArg?
    ensures (arg.directory == PKI && arg.file in PKI_FILES) ||
            (arg.directory == KUBECONFIG_DIR && arg.file == ConfigFileName(ManagerConfig))
  {
  }

  lemma ApiserverClosedIff(setup: Setup, host: map<Part, HostObject>)
    requires ServerCert in host && host[ServerCert].Secret?
    requires host[ServerCert].data.Keys == PKI_FILES + setup.etcdSecret.Keys
    ensures MountsClosed(host, setup.name, ApiserverSpec(setup)) <==> ETCD_FILES <= setup.etcdSecret.Keys
  {
    var spec := ApiserverSpec(setup);
    var mount, volume := VolumeMount("server-cert", PKI), Volume("server-cert", "server-cert");
    assert spec.mounts == [mount] && spec.volumes == [volume];
    assert SecretNamed(host, setup.name, "server-cert") == Some(host[ServerCert]);
    if ETCD_FILES <= setup.etcdSecret.Keys {
      forall arg | arg in spec.command && arg.FileArg?
        ensures exists m, v :: m in spec.mounts && v in spec.volumes && Serves(host, setup.name, m, v, arg)
      {
        ApiserverFiles(setup, arg);
        assert mount in spec.mounts && volume in spec.volumes && Serves(host, setup.name, mount, volume, arg);
      }
    }
    if MountsClosed(host, setup.name, spec) {
      EtcdFilesAreNotGenerated();
      forall file | file in ETCD_FILES ensures file in setup.etcdSecret {
        var arg := EtcdFileArg(setup, file);
        var m, v :| m in spec.mounts && v in spec.volumes && Serves(host, setup.name, m, v, arg);
        assert v == volume;
      }
    }
  }

  lemma ManagerClosed(setup: Setup, host: map<Part, HostObject>)
    requires ServerCert in host && host[ServerCert].Secret? && PKI_FILES <= host[ServerCert].data.Keys
    requires ManagerConfig in host && host[ManagerConfig].Secret?
    requires ConfigFileName(ManagerConfig) in host[ManagerConfig].data
    ensures MountsClosed(host, setup.name, ManagerSpec(setup))
  {
    var name, spec := setup.name, ManagerSpec(setup);
    assert SecretNamed(host, name, "server-cert") == Some(host[ServerCert]);
    assert SecretNamed(host, name, "kubeconfig-controller-manager") == Some(host[ManagerConfig]);
    var mounts := [VolumeMount("server-cert", PKI), VolumeMount("kubeconfig", KUBECONFIG_DIR)];
    var volumes := [Volume("server-cert", "server-cert"), Volume("kubeconfig", "kubeconfig-controller-manager")];
    assert spec.mounts == mounts && spec.volumes == volumes;
    forall arg | arg in spec.command && arg.FileArg?
      ensures exists m, v :: m in spec.mounts && v in spec.volumes && Serves(host, name, m, v, arg)
    {
      ManagerFiles(setup, arg);
      if arg.directory == PKI && arg.file in PKI_FILES {
        assert mounts[0] in spec.mounts && volumes[0] in spec.volumes && Serves(host, name, mounts[0], volumes[0], arg);
      } else {
        assert mounts[1] in spec.mounts && volumes[1] in spec.volumes && Serves(host, name, mounts[1], volumes[1], arg);
      }
    }
  }

  /**
   In every reachable state the apiserver deployment finds all it mounts and names exactly if the
   etcd secret the controller was started with supplies the three etcd files.
   */
  lemma ApiserverMountsClosed(setup: Setup, c: Cell)
    requires Reachable(setup, c) && c.tenant.Some? && Apiserver in c.host
    ensures c.host[Apiserver].Deployment?
    ensures MountsClosed(c.host, setup.name, c.host[Apiserver].spec) <==> ETCD_FILES <= setup.etcdSecret.Keys
  {
    ReachableInv(setup, c);
    var owner := c.tenant.value.AsOwner();
    assert ObjectOk(setup, owner, c.host, Apiserver);
    assert Position(ServerCert) < Position(Apiserver) && Before(Apiserver, c.host);
    ServerCertKeys(setup, owner, c.host);
    ApiserverClosedIff(setup, c.host);
  }

  lemma ManagerConfigHolds(setup: Setup, owner: OwnerReference, host: map<Part, HostObject>)
    requires HostOk(setup, owner, host) && ManagerConfig in host
    ensures host[ManagerConfig].Secret? && ConfigFileName(ManagerConfig) in host[ManagerConfig].data
  {
    hide ParseCASecret;
    assert ObjectOk(setup, owner, host, ManagerConfig);
  }

  lemma ManagerClosedByInv(setup: Setup, owner: OwnerReference, host: map<Part, HostObject>)
    requires HostOk(setup, owner, host) && Manager in host
    ensures host[Manager].Deployment? && MountsClosed(host, setup.name, host[Manager].spec)
  {
    hide ManagerSpec, MountsClosed, Draft, DraftKubeconfig;
    assert ObjectOk(setup, owner, host, Manager);
    assert Before(Manager, host) && Position(ServerCert) < Position(Manager) &&
           Position(ManagerConfig) < Position(Manager);
    ServerCertKeys(setup, owner, host);
    ManagerConfigHolds(setup, owner, host);
    ManagerClosed(setup, host);
  }

  /** In every reachable state the controller manager's deployment finds all it mounts and names. */
  lemma ManagerMountsClosed(setup: Setup, c: Cell)
    requires Reachable(setup, c) && c.tenant.Some? && Manager in c.host
    ensures c.host[Manager].Deployment? && MountsClosed(c.host, setup.name, c.host[Manager].spec)
  {
    hide HostOk, MountsClosed;
    ReachableInv(setup, c);
    ManagerClosedByInv(setup, c.tenant.value.AsOwner(), c.host);
  }
}
