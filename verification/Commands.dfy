/** What the commands of the two deployments come to: the credentials behind each flag, and the places they name. */
module Commands {
  import opened Wrappers
  import opened Certificates
  import opened Tenants
  import opened HostObjects
  import opened Protocol
  import opened Invariants
  import opened Credentials
  import K = Kubeconfigs

  // ---------- Flags ----------

  function FlagOf(a: Arg): Option<string> { if a.Program? then None else Some(a.flag) }

  /** The argument a flag has: where it is repeated, the last one counts. */
  function Named(command: seq<Arg>, flag: string): Option<Arg> {
    if command == [] then None
    else
      var last := command[|command| - 1];
      if FlagOf(last) == Some(flag) then Some(last) else Named(command[..|command| - 1], flag)
  }

  lemma {:induction false} NamedLast(command: seq<Arg>, flag: string, i: nat)
    requires i < |command| && FlagOf(command[i]) == Some(flag)
    requires forall j | i < j < |command| :: FlagOf(command[j]) != Some(flag)
    ensures Named(command, flag) == Some(command[i])
  {
    if i < |command| - 1 {
      NamedLast(command[..|command| - 1], flag, i);
    }
  }

  predicate FileOf(command: seq<Arg>, flag: string, directory: string, file: string) {
    Named(command, flag) == Some(FileArg(flag, directory, file))
  }

  lemma ApiserverServing(setup: Setup)
    ensures var command := ApiserverSpec(setup).command;
            && FileOf(command, "--client-ca-file", PKI, "ca.crt")
            && FileOf(command, "--service-account-key-file", PKI, "sa.pub")
            && FileOf(command, "--service-account-signing-key-file", PKI, "sa.key")
            && FileOf(command, "--tls-cert-file", PKI, "apiserver.crt")
            && FileOf(command, "--tls-private-key-file", PKI, "apiserver.key")
  {
    var command := ApiserverSpec(setup).command;
    NamedLast(command, "--client-ca-file", 1);
    NamedLast(command, "--service-account-key-file", 14);
    NamedLast(command, "--service-account-signing-key-file", 15);
    NamedLast(command, "--tls-cert-file", 16);
    NamedLast(command, "--tls-private-key-file", 17);
  }

  lemma ApiserverToKubelets(setup: Setup)
    ensures var command := ApiserverSpec(setup).command;
            && FileOf(command, "--kubelet-client-certificate", PKI, "apiserver-kubelet-client.crt")
            && FileOf(command, "--kubelet-client-key", PKI, "apiserver-kubelet-client.key")
  {
    var command := ApiserverSpec(setup).command;
    NamedLast(command, "--kubelet-client-certificate", 7);
    NamedLast(command, "--kubelet-client-key", 8);
  }

  lemma ApiserverToAggregated(setup: Setup)
    ensures var command := ApiserverSpec(setup).command;
            && FileOf(command, "--proxy-client-cert-file", PKI, "front-proxy-client.crt")
            && FileOf(command, "--proxy-client-key-file", PKI, "front-proxy-client.key")
            && FileOf(command, "--requestheader-client-ca-file", PKI, "front-proxy-ca.crt")
  {
    var command := ApiserverSpec(setup).command;
    NamedLast(command, "--proxy-client-cert-file", 9);
    NamedLast(command, "--proxy-client-key-file", 10);
    NamedLast(command, "--requestheader-client-ca-file", 12);
  }

  lemma ApiserverEtcdCA(setup: Setup)
    ensures FileOf(ApiserverSpec(setup).command, "--etcd-cafile", PKI, "etcd-ca.crt")
  {
    NamedLast(ApiserverSpec(setup).command, "--etcd-cafile", 2);
  }

  lemma ApiserverEtcdClient(setup: Setup)
    ensures var command := ApiserverSpec(setup).command;
            && FileOf(command, "--etcd-certfile", PKI, "apiserver-etcd-client.crt")
            && FileOf(command, "--etcd-keyfile", PKI, "apiserver-etcd-client.key")
  {
    var command := ApiserverSpec(setup).command;
    NamedLast(command, "--etcd-certfile", 3);
    NamedLast(command, "--etcd-keyfile", 4);
  }

  lemma ManagerConfigs(setup: Setup)
    ensures var command := ManagerSpec(setup).command;
            && FileOf(command, "--authentication-kubeconfig", KUBECONFIG_DIR, "controller-manager.conf")
            && FileOf(command, "--authorization-kubeconfig", KUBECONFIG_DIR, "controller-manager.conf")
            && FileOf(command, "--kubeconfig", KUBECONFIG_DIR, "controller-manager.conf")
  {
    var command := ManagerSpec(setup).command;
    NamedLast(command, "--authentication-kubeconfig", 1);
    NamedLast(command, "--authorization-kubeconfig", 2);
    NamedLast(command, "--kubeconfig", 6);
  }

  lemma ManagerPki(setup: Setup)
    ensures var command := ManagerSpec(setup).command;
            && FileOf(command, "--client-ca-file", PKI, "ca.crt")
            && FileOf(command, "--cluster-signing-cert-file", PKI, "ca.crt")
            && FileOf(command, "--cluster-signing-key-file", PKI, "ca.key")
            && FileOf(command, "--requestheader-client-ca-file", PKI, "front-proxy-ca.crt")
            && FileOf(command, "--root-ca-file", PKI, "ca.crt")
            && FileOf(command, "--service-account-private-key-file", PKI, "sa.key")
  {
    var command := ManagerSpec(setup).command;
    NamedLast(command, "--client-ca-file", 3);
    NamedLast(command, "--cluster-signing-cert-file", 4);
    NamedLast(command, "--cluster-signing-key-file", 5);
    NamedLast(command, "--requestheader-client-ca-file", 7);
    NamedLast(command, "--root-ca-file", 8);
    NamedLast(command, "--service-account-private-key-file", 9);
  }

  // ---------- The files behind the flags ----------

  function MountAt(mounts: seq<VolumeMount>, directory: string): Option<VolumeMount> {
    if mounts == [] then None
    else if mounts[0].mountPath == directory then Some(mounts[0])
    else MountAt(mounts[1..], directory)
  }

  function VolumeNamed(volumes: seq<Volume>, name: string): Option<Volume> {
    if volumes == [] then None
    else if volumes[0].name == name then Some(volumes[0])
    else VolumeNamed(volumes[1..], name)
  }

  /** The secret a directory of the container shows. */
  function SecretAt(
      host: map<Part, HostObject>, tenant: string, spec: DeploymentSpec, directory: string)
    : Option<HostObject>
  {
    match MountAt(spec.mounts, directory)
    case None => None
    case Some(mount) =>
      match VolumeNamed(spec.volumes, mount.volume)
      case None => None
      case Some(volume) => SecretNamed(host, tenant, volume.secretName)
  }

  /** What a process reads from the file that a flag of its command names. */
  function Behind(host: map<Part, HostObject>, tenant: string, spec: DeploymentSpec, flag: string): Option<Content> {
    match Named(spec.command, flag)
    case Some(FileArg(_, directory, file)) =>
      (match SecretAt(host, tenant, spec, directory)
       case Some(Secret(_, _, data)) => if file in data then Some(data[file]) else None
       case _ => None)
    case _ => None
  }

  function CertIn(content: Option<Content>): Option<Certificate> {
    match content case Some(PemFile(CertPem(cert))) => Some(cert) case _ => None
  }

  function KeyIn(content: Option<Content>): Option<KeyId> {
    match content case Some(PemFile(PrivatePem(key))) => Some(key) case _ => None
  }

  /** The apiserver finds server-cert where its command looks for it. */
  lemma ApiserverMount(setup: Setup, host: map<Part, HostObject>)
    requires ServerCert in host
    ensures SecretAt(host, setup.name, ApiserverSpec(setup), PKI) == Some(host[ServerCert])
  {
  }

  /** The controller manager finds server-cert and its kubeconfig where its command looks for them. */
  lemma ManagerMounts(setup: Setup, host: map<Part, HostObject>)
    requires ServerCert in host && ManagerConfig in host
    ensures SecretAt(host, setup.name, ManagerSpec(setup), PKI) == Some(host[ServerCert])
    ensures SecretAt(host, setup.name, ManagerSpec(setup), KUBECONFIG_DIR) == Some(host[ManagerConfig])
  {
    var mounts, volumes := ManagerSpec(setup).mounts, ManagerSpec(setup).volumes;
    assert |PKI| != |KUBECONFIG_DIR| && |"server-cert"| == 11 && |"kubeconfig"| == 10;
    assert MountAt(mounts, KUBECONFIG_DIR) == Some(mounts[1]) by {
      assert MountAt(mounts[1..], KUBECONFIG_DIR) == Some(mounts[1]);
    }
    assert VolumeNamed(volumes, "kubeconfig") == Some(volumes[1]) by {
      assert VolumeNamed(volumes[1..], "kubeconfig") == Some(volumes[1]);
    }
    assert |"kubeconfig-controller-manager"| == 29 && |"kubeconfig-admin"| == 16;
  }

  // ---------- The apiserver ----------

  /**
   A client that trusts the apiserver's client CA can talk to it: it serves a certificate of that CA
   for server use, with its key, and names the host; and its own certificates towards kubelets and
   aggregated servers are paired with their keys and good for the CAs it publishes.
   */
  ghost predicate ApiserverWired(setup: Setup, host: map<Part, HostObject>, spec: DeploymentSpec) {
    var ca, frontCA := CertIn(Behind(host, setup.name, spec, "--client-ca-file")),
                       CertIn(Behind(host, setup.name, spec, "--requestheader-client-ca-file"));
    var served := CertIn(Behind(host, setup.name, spec, "--tls-cert-file"));
    && ca.Some? && frontCA.Some? && served.Some?
    && Pair(served, KeyIn(Behind(host, setup.name, spec, "--tls-private-key-file")),
            ca.value, APISERVER_SUBJECT, ServerAuth)
    && served.value.dnsNames == [K.ApiserverName(setup.name), "localhost"] && served.value.ips == ["127.0.0.1"]
    && Pair(CertIn(Behind(host, setup.name, spec, "--kubelet-client-certificate")),
            KeyIn(Behind(host, setup.name, spec, "--kubelet-client-key")),
            ca.value, KUBELET_CLIENT_SUBJECT, ClientAuth)
    && Pair(CertIn(Behind(host, setup.name, spec, "--proxy-client-cert-file")),
            KeyIn(Behind(host, setup.name, spec, "--proxy-client-key-file")),
            frontCA.value, FRONT_CLIENT_SUBJECT, ClientAuth)
    && Named(spec.command, "--requestheader-allowed-names") ==
       Some(ValueArg("--requestheader-allowed-names", FRONT_CLIENT_SUBJECT.commonName))
    && exists sa ::
         Behind(host, setup.name, spec, "--service-account-key-file") == Some(PemFile(PublicPem(sa))) &&
         Behind(host, setup.name, spec, "--service-account-signing-key-file") == Some(PemFile(PrivatePem(sa)))
  }

  /** The three etcd flags name the files of their role, as they came with the etcd secret. */
  ghost predicate EtcdWired(setup: Setup, host: map<Part, HostObject>, spec: DeploymentSpec) {
    var etcd := setup.etcdSecret;
    && ("etcd-ca.crt" in etcd ==>
          Behind(host, setup.name, spec, "--etcd-cafile") == Some(PemFile(etcd["etcd-ca.crt"])))
    && ("apiserver-etcd-client.crt" in etcd ==>
          Behind(host, setup.name, spec, "--etcd-certfile") == Some(PemFile(etcd["apiserver-etcd-client.crt"])))
    && ("apiserver-etcd-client.key" in etcd ==>
          Behind(host, setup.name, spec, "--etcd-keyfile") == Some(PemFile(etcd["apiserver-etcd-client.key"])))
    && Named(spec.command, "--etcd-servers") == Some(ValueArg("--etcd-servers", setup.etcdServers))
    && Named(spec.command, "--etcd-prefix") == Some(ValueArg("--etcd-prefix", EtcdPrefix(setup.name)))
  }

  function EtcdPrefix(tenant: string): string { "/" + tenant + "/registry" }

  lemma ApiserverValues(setup: Setup)
    ensures var command := ApiserverSpec(setup).command;
            && command[0] == Program("kube-apiserver")
            && Named(command, "--etcd-servers") == Some(ValueArg("--etcd-servers", setup.etcdServers))
            && Named(command, "--etcd-prefix") == Some(ValueArg("--etcd-prefix", EtcdPrefix(setup.name)))
            && Named(command, "--requestheader-allowed-names") ==
               Some(ValueArg("--requestheader-allowed-names", "front-proxy-client"))
            && Named(command, "--secure-port") == Some(ValueArg("--secure-port", "6443"))
  {
    var command := ApiserverSpec(setup).command;
    NamedLast(command, "--etcd-servers", 5);
    NamedLast(command, "--etcd-prefix", 6);
    NamedLast(command, "--requestheader-allowed-names", 11);
    NamedLast(command, "--secure-port", 13);
  }

  /** What lies behind a flag that names a file of server-cert. */
  lemma PkiBehind(setup: Setup, host: map<Part, HostObject>, spec: DeploymentSpec, flag: string, file: string)
    requires ServerCert in host && host[ServerCert].Secret? && FileOf(spec.command, flag, PKI, file)
    requires SecretAt(host, setup.name, spec, PKI) == Some(host[ServerCert])
    ensures CertIn(Behind(host, setup.name, spec, flag)) == CertOf(host[ServerCert], file)
    ensures KeyIn(Behind(host, setup.name, spec, flag)) == KeyOfFile(host[ServerCert], file)
    ensures PemOf(host[ServerCert], file).Some? ==>
              Behind(host, setup.name, spec, flag) == Some(PemFile(PemOf(host[ServerCert], file).value))
  {
  }

  lemma ApiserverIsWired(setup: Setup, host: map<Part, HostObject>)
    requires ServerCert in host && host[ServerCert].Secret? && Consistent(host[ServerCert])
    requires CertOf(host[ServerCert], "apiserver.crt").Some? &&
             CertOf(host[ServerCert], "apiserver.crt").value.dnsNames == [K.ApiserverName(setup.name), "localhost"]
    ensures ApiserverWired(setup, host, ApiserverSpec(setup))
  {
    hide ApiserverSpec, Named, Behind, SecretAt, CertOf, KeyOfFile, PemOf;
    var spec := ApiserverSpec(setup);
    ApiserverMount(setup, host);
    ApiserverServing(setup);
    ApiserverToKubelets(setup);
    ApiserverToAggregated(setup);
    ApiserverValues(setup);
    PkiBehind(setup, host, spec, "--client-ca-file", "ca.crt");
    PkiBehind(setup, host, spec, "--requestheader-client-ca-file", "front-proxy-ca.crt");
    PkiBehind(setup, host, spec, "--tls-cert-file", "apiserver.crt");
    PkiBehind(setup, host, spec, "--tls-private-key-file", "apiserver.key");
    PkiBehind(setup, host, spec, "--kubelet-client-certificate", "apiserver-kubelet-client.crt");
    PkiBehind(setup, host, spec, "--kubelet-client-key", "apiserver-kubelet-client.key");
    PkiBehind(setup, host, spec, "--proxy-client-cert-file", "front-proxy-client.crt");
    PkiBehind(setup, host, spec, "--proxy-client-key-file", "front-proxy-client.key");
    PkiBehind(setup, host, spec, "--service-account-key-file", "sa.pub");
    PkiBehind(setup, host, spec, "--service-account-signing-key-file", "sa.key");
  }

  lemma EtcdIsWired(setup: Setup, host: map<Part, HostObject>)
    requires ServerCert in host && host[ServerCert].Secret? && HoldsEtcdFiles(setup, host[ServerCert])
    ensures EtcdWired(setup, host, ApiserverSpec(setup))
  {
    hide ApiserverSpec, Named, Behind, SecretAt, CertOf, KeyOfFile, PemOf, EtcdPrefix;
    var spec := ApiserverSpec(setup);
    ApiserverMount(setup, host);
    ApiserverEtcdCA(setup);
    ApiserverEtcdClient(setup);
    ApiserverValues(setup);
    EtcdFilesAreNotGenerated();
    assert "etcd-ca.crt" in ETCD_FILES && "apiserver-etcd-client.crt" in ETCD_FILES &&
           "apiserver-etcd-client.key" in ETCD_FILES;
    PkiBehind(setup, host, spec, "--etcd-cafile", "etcd-ca.crt");
    PkiBehind(setup, host, spec, "--etcd-certfile", "apiserver-etcd-client.crt");
    PkiBehind(setup, host, spec, "--etcd-keyfile", "apiserver-etcd-client.key");
  }

  // ---------- The controller manager ----------

  /**
   The manager signs with the CA that the apiserver takes clients from, trusts the apiserver's
   serving certificate, and signs service-account tokens with the private half of the key the
   apiserver checks them with; and it calls the apiserver as itself.
   */
  ghost predicate ManagerWired(
      setup: Setup, host: map<Part, HostObject>, spec: DeploymentSpec, server: DeploymentSpec)
  {
    var n := setup.name;
    var clientCA := Behind(host, n, server, "--client-ca-file");
    var ca, root := CertIn(clientCA), CertIn(Behind(host, n, spec, "--root-ca-file"));
    var served := CertIn(Behind(host, n, server, "--tls-cert-file"));
    && ca.Some? && root.Some? && served.Some? && Verifies(served.value, root.value)
    && Behind(host, n, spec, "--cluster-signing-cert-file") == clientCA
    && KeyIn(Behind(host, n, spec, "--cluster-signing-key-file")) == Some(ca.value.publicKey)
    && Behind(host, n, spec, "--client-ca-file") == clientCA
    && Behind(host, n, spec, "--requestheader-client-ca-file") ==
       Behind(host, n, server, "--requestheader-client-ca-file")
    && (exists sa ::
          Behind(host, n, server, "--service-account-key-file") == Some(PemFile(PublicPem(sa))) &&
          Behind(host, n, spec, "--service-account-private-key-file") == Some(PemFile(PrivatePem(sa))))
    && CallsAs(Behind(host, n, spec, "--kubeconfig"), ca.value, UserOf("controller-manager.conf"))
    && Behind(host, n, spec, "--authentication-kubeconfig") == Behind(host, n, spec, "--kubeconfig")
    && Behind(host, n, spec, "--authorization-kubeconfig") == Behind(host, n, spec, "--kubeconfig")
  }

  /** The file is a kubeconfig that trusts the CA and presents a certificate of it for the subject. */
  predicate CallsAs(content: Option<Content>, ca: Certificate, subject: Subject) {
    content.Some? && content.value.ConfigFile? &&
    var connection := K.Resolve(content.value.config);
    connection.Some? && connection.value.ca == CertPem(ca) && connection.value.clientCertificate.CertPem? &&
    var client := connection.value.clientCertificate.cert;
    client.subject == subject && client.usages == [ClientAuth] && Verifies(client, ca) &&
    connection.value.clientKey == PrivatePem(client.publicKey)
  }

  lemma ManagerProgram(setup: Setup)
    ensures ManagerSpec(setup).command[0] == Program("kube-controller-manager")
  {
  }

  lemma ConfigBehind(setup: Setup, host: map<Part, HostObject>, spec: DeploymentSpec, flag: string, file: string)
    requires ManagerConfig in host && host[ManagerConfig].Secret? && file in host[ManagerConfig].data
    requires FileOf(spec.command, flag, KUBECONFIG_DIR, file)
    requires SecretAt(host, setup.name, spec, KUBECONFIG_DIR) == Some(host[ManagerConfig])
    ensures Behind(host, setup.name, spec, flag) == Some(host[ManagerConfig].data[file])
  {
  }

  /** The manager's kubeconfig and the apiserver's command agree, since both come from one server-cert secret. */
  lemma ManagerIsWired(setup: Setup, host: map<Part, HostObject>)
    requires ServerCert in host && host[ServerCert].Secret? && Consistent(host[ServerCert])
    requires ManagerConfig in host && host[ManagerConfig].Secret?
    requires "controller-manager.conf" in host[ManagerConfig].data
    requires var ca := CertOf(host[ServerCert], "ca.crt");
             ca.Some? && CallsAs(Some(host[ManagerConfig].data["controller-manager.conf"]), ca.value,
                                 UserOf("controller-manager.conf"))
    ensures ManagerWired(setup, host, ManagerSpec(setup), ApiserverSpec(setup))
  {
    hide ApiserverSpec, ManagerSpec, Named, Behind, SecretAt, CertOf, KeyOfFile, CallsAs;
    var spec, server := ManagerSpec(setup), ApiserverSpec(setup);
    ApiserverMount(setup, host);
    ManagerMounts(setup, host);
    ApiserverServing(setup);
    ApiserverToAggregated(setup);
    ManagerConfigs(setup);
    ManagerPki(setup);
    CertIsPem(host[ServerCert], "ca.crt");
    CertIsPem(host[ServerCert], "front-proxy-ca.crt");
    PkiBehind(setup, host, server, "--client-ca-file", "ca.crt");
    PkiBehind(setup, host, server, "--requestheader-client-ca-file", "front-proxy-ca.crt");
    PkiBehind(setup, host, server, "--tls-cert-file", "apiserver.crt");
    PkiBehind(setup, host, server, "--service-account-key-file", "sa.pub");
    PkiBehind(setup, host, spec, "--client-ca-file", "ca.crt");
    PkiBehind(setup, host, spec, "--root-ca-file", "ca.crt");
    PkiBehind(setup, host, spec, "--cluster-signing-cert-file", "ca.crt");
    PkiBehind(setup, host, spec, "--cluster-signing-key-file", "ca.key");
    PkiBehind(setup, host, spec, "--requestheader-client-ca-file", "front-proxy-ca.crt");
    PkiBehind(setup, host, spec, "--service-account-private-key-file", "sa.key");
    ConfigBehind(setup, host, spec, "--kubeconfig", "controller-manager.conf");
    ConfigBehind(setup, host, spec, "--authentication-kubeconfig", "controller-manager.conf");
    ConfigBehind(setup, host, spec, "--authorization-kubeconfig", "controller-manager.conf");
  }

  lemma CertIsPem(o: HostObject, file: string)
    ensures CertOf(o, file).Some? ==> PemOf(o, file) == Some(CertPem(CertOf(o, file).value))
  {
  }

  // ---------- In every reachable state ----------

  /** In every reachable state the apiserver's command finds behind its flags what they are for. */
  lemma StoredApiserverIsWired(setup: Setup, c: Cell)
    requires Reachable(setup, c) && c.tenant.Some? && Apiserver in c.host
    ensures c.host[Apiserver].Deployment? && ServerCert in c.host
    ensures var spec := c.host[Apiserver].spec;
            && spec.replicas == 1 && |spec.command| > 0 && spec.command[0] == Program("kube-apiserver")
            && ApiserverWired(setup, c.host, spec) && EtcdWired(setup, c.host, spec)
  {
    hide Run, Draft, ApiserverWired, EtcdWired, Consistent, HoldsEtcdFiles;
    ReachableInv(setup, c);
    StoredApiserverIs(setup, c);
    StoredPkiIsConsistent(setup, c);
    EtcdFilesAreStored(setup, c);
    var owner := c.tenant.value.AsOwner();
    assert ObjectOk(setup, owner, c.host, ServerCert);
    var e :| Draft(setup, ServerCert, owner, e) == Ok(c.host[ServerCert]);
    ServerCertFiles(setup, owner, e);
    ApiserverValues(setup);
    ApiserverIsWired(setup, c.host);
    EtcdIsWired(setup, c.host);
  }

  lemma StoredApiserverIs(setup: Setup, c: Cell)
    requires Inv(setup, c) && c.tenant.Some? && Apiserver in c.host
    ensures c.host[Apiserver].Deployment? && c.host[Apiserver].spec == ApiserverSpec(setup) && ServerCert in c.host
  {
    hide Draft, DraftKubeconfig, ApiserverSpec, ManagerSpec;
    assert ObjectOk(setup, c.tenant.value.AsOwner(), c.host, Apiserver);
    assert Before(Apiserver, c.host) && Position(ServerCert) < Position(Apiserver);
  }

  lemma StoredManagerIs(setup: Setup, c: Cell)
    requires Inv(setup, c) && c.tenant.Some? && Manager in c.host
    ensures c.host[Manager].Deployment? && c.host[Manager].spec == ManagerSpec(setup)
    ensures forall p: Part :: p in c.host
  {
    hide Draft, DraftKubeconfig, ApiserverSpec, ManagerSpec;
    assert ObjectOk(setup, c.tenant.value.AsOwner(), c.host, Manager);
    assert Before(Manager, c.host);
    forall p: Part ensures p in c.host {
      assert p != Manager ==> Position(p) < Position(Manager);
    }
  }

  /** A kubeconfig made from the CA in a server-cert secret calls with a certificate of that CA. */
  lemma DraftedConfigCalls(setup: Setup, p: Part, owner: OwnerReference, e: Entropy, entropy: Entropy)
    requires IsKubeconfig(p) && Draft(setup, ServerCert, owner, e).Ok?
    requires DraftKubeconfig(setup, p, owner, Draft(setup, ServerCert, owner, e).value, entropy).Ok?
    ensures var serverCert := Draft(setup, ServerCert, owner, e).value;
            var o, ca := DraftKubeconfig(setup, p, owner, serverCert, entropy).value, CertOf(serverCert, "ca.crt");
            && o.Secret? && ConfigFileName(p) in o.data && ca.Some?
            && CallsAs(Some(o.data[ConfigFileName(p)]), ca.value, UserOf(ConfigFileName(p)))
            && Dials(o.data[ConfigFileName(p)], "https://kube-apiserver." + setup.name + ".svc:6443")
  {
    hide Draft;
    DraftTakesKeys(setup, owner, e);
    ServerCertFiles(setup, owner, e);
    ServerCertParses(setup, owner, e);
    var ca, config := CACert(EMPTY_CONFIG, e.k0), UserConfig(p);
    K.NewWithSecretResolves(setup.name, K.Endpoint(setup.name), ca, e.k0, config, entropy.k0);
    K.EndpointText(setup.name);
  }

  predicate Dials(content: Content, url: string) {
    content.ConfigFile? && K.Resolve(content.config).Some? && K.Resolve(content.config).value.server == url
  }

  lemma StoredConfigCalls(setup: Setup, c: Cell, p: Part)
    requires Inv(setup, c) && c.tenant.Some? && IsKubeconfig(p) && p in c.host
    ensures ServerCert in c.host && c.host[ServerCert].Secret? && c.host[p].Secret?
    ensures ConfigFileName(p) in c.host[p].data
    ensures var content, ca := c.host[p].data[ConfigFileName(p)], CertOf(c.host[ServerCert], "ca.crt");
            && ca.Some? && CallsAs(Some(content), ca.value, UserOf(ConfigFileName(p)))
            && Dials(content, "https://kube-apiserver." + setup.name + ".svc:6443")
  {
    hide Draft, DraftKubeconfig, CallsAs, Dials;
    var owner := c.tenant.value.AsOwner();
    assert ObjectOk(setup, owner, c.host, p) && ObjectOk(setup, owner, c.host, ServerCert);
    var entropy :| DraftKubeconfig(setup, p, owner, c.host[ServerCert], entropy) == Ok(c.host[p]);
    var e :| Draft(setup, ServerCert, owner, e) == Ok(c.host[ServerCert]);
    ServerCertFiles(setup, owner, e);
    DraftedConfigCalls(setup, p, owner, e, entropy);
  }

  /** In every reachable state the two commands agree with each other and with the manager's kubeconfig. */
  lemma StoredManagerIsWired(setup: Setup, c: Cell)
    requires Reachable(setup, c) && c.tenant.Some? && Manager in c.host
    ensures Apiserver in c.host && c.host[Apiserver].Deployment? && c.host[Manager].Deployment?
    ensures var spec := c.host[Manager].spec;
            && spec.replicas == 1 && |spec.command| > 0 && spec.command[0] == Program("kube-controller-manager")
            && ManagerWired(setup, c.host, spec, c.host[Apiserver].spec)
  {
    hide Run, Draft, ManagerWired, Consistent, CallsAs, Dials;
    ReachableInv(setup, c);
    StoredManagerIs(setup, c);
    StoredApiserverIs(setup, c);
    StoredPkiIsConsistent(setup, c);
    StoredConfigCalls(setup, c, ManagerConfig);
    ManagerProgram(setup);
    ManagerIsWired(setup, c.host);
  }

  /**
   In every reachable state a client that follows a stored kubeconfig trusts what the apiserver's
   command serves, is trusted by the CA it names for clients, and dials a host its certificate covers.
   */
  lemma ServedKubeconfigs(setup: Setup, c: Cell, p: Part)
    requires Reachable(setup, c) && K.PlainName(setup.name)
    requires c.tenant.Some? && Apiserver in c.host && IsKubeconfig(p)
    ensures p in c.host && c.host[p].Secret? && ConfigFileName(p) in c.host[p].data && c.host[Apiserver].Deployment?
    ensures var n, spec, content := setup.name, c.host[Apiserver].spec, c.host[p].data[ConfigFileName(p)];
            var ca := CertIn(Behind(c.host, n, spec, "--client-ca-file"));
            var served := CertIn(Behind(c.host, n, spec, "--tls-cert-file"));
            var host := K.HostOf(K.Endpoint(n));
            && ca.Some? && served.Some? && CallsAs(Some(content), ca.value, UserOf(ConfigFileName(p)))
            && Verifies(served.value, ca.value) && served.value.usages == [ServerAuth]
            && Dials(content, K.Endpoint(n)) && host.Some? && host.value in served.value.dnsNames
  {
    hide Run, Draft, DraftKubeconfig, CallsAs, Behind, Named, CertOf;
    StoredApiserverIsWired(setup, c);
    ReachableInv(setup, c);
    StoredApiserverIs(setup, c);
    assert Before(Apiserver, c.host) && Position(p) < Position(Apiserver);
    StoredConfigCalls(setup, c, p);
    K.EndpointText(setup.name);
    K.EndpointHost(setup.name);
    ApiserverMount(setup, c.host);
    ApiserverServing(setup);
    PkiBehind(setup, c.host, ApiserverSpec(setup), "--client-ca-file", "ca.crt");
  }

  lemma PodsDiffer(setup: Setup)
    ensures ApiserverSpec(setup).labels == Labels("kube-apiserver", setup.name) != ManagerSpec(setup).labels
  {
    assert |"kube-apiserver"| != |"kube-controller-manager"|;
    assert ManagerSpec(setup).labels["app"] != Labels("kube-apiserver", setup.name)["app"];
  }

  /** In every reachable state the service picks the apiserver's pods and no others, at the port that it serves. */
  lemma ServiceReachesApiserver(setup: Setup, c: Cell)
    requires Reachable(setup, c) && c.tenant.Some? && ApiserverService in c.host
    ensures Apiserver in c.host && c.host[Apiserver].Deployment? && c.host[ApiserverService].Service?
    ensures var service, spec := c.host[ApiserverService], c.host[Apiserver].spec;
            && service.selector == spec.labels
            && service.port == 6443
            && Named(spec.command, "--secure-port") == Some(ValueArg("--secure-port", "6443"))
    ensures Manager in c.host ==>
              c.host[Manager].Deployment? && c.host[Manager].spec.labels != c.host[ApiserverService].selector
  {
    hide Run, Draft, DraftKubeconfig, Named, ApiserverSpec, ManagerSpec, Labels;
    ReachableInv(setup, c);
    assert ObjectOk(setup, c.tenant.value.AsOwner(), c.host, ApiserverService);
    assert Before(ApiserverService, c.host) && Position(Apiserver) < Position(ApiserverService);
    StoredApiserverIs(setup, c);
    ApiserverValues(setup);
    PodsDiffer(setup);
    if Manager in c.host {
      StoredManagerIs(setup, c);
    }
  }

  /** No key that one tenant's apiserver stores in etcd is one that another's does. */
  lemma EtcdKeysAreApart(a: string, b: string, x: string, y: string)
    requires K.PlainName(a) && K.PlainName(b)
    ensures EtcdPrefix(a) + "/" + x == EtcdPrefix(b) + "/" + y ==> a == b
  {
    var p, q := EtcdPrefix(a) + "/" + x, EtcdPrefix(b) + "/" + y;
    if p == q {
      assert p[|a| + 1] == '/' && q[|b| + 1] == '/';
      assert forall i | 0 <= i < |a| :: p[i + 1] == a[i] && a[i] in a;
      assert forall i | 0 <= i < |b| :: q[i + 1] == b[i] && b[i] in b;
      assert |a| == |b|;
      assert a == b;
    }
  }
}
