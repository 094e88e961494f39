/** The client configuration file for a tenant's API server. */
module Kubeconfigs {
  import opened Wrappers
  import opened Certificates

  datatype Cluster = Cluster(server: string, certificateAuthority: Pem)
  datatype Context = Context(cluster: string, authInfo: string)
  datatype AuthInfo = AuthInfo(clientKey: Pem, clientCertificate: Pem)

  datatype Kubeconfig = Kubeconfig(
    clusters: map<string, Cluster>,
    contexts: map<string, Context>,
    authInfos: map<string, AuthInfo>,
    currentContext: string)

  function NewWithSecret(
      clusterName: string, endpoint: string, ca: Certificate, caKey: KeyId, config: CertConfig, key: KeyId)
    : Result<Kubeconfig>
  {
    match NewCertAndKey(ca, caKey, config, key)
    case Err => Err
    case Ok((cert, certKey)) =>
      var userName := clusterName + "-" + config.commonName;
      var contextName := userName + "@" + clusterName;
      Ok(Kubeconfig(
        map[clusterName := Cluster(endpoint, CertPem(ca))],
        map[contextName := Context(clusterName, userName)],
        map[userName := AuthInfo(PrivatePem(certKey), CertPem(cert))],
        contextName))
  }

  /** What a client ends up with: it follows the current context to a cluster and a user. */
  datatype Connection = Connection(server: string, ca: Pem, clientKey: Pem, clientCertificate: Pem)

  function Resolve(kc: Kubeconfig): Option<Connection> {
    if kc.currentContext !in kc.contexts then None
    else
      var context := kc.contexts[kc.currentContext];
      if context.cluster !in kc.clusters || context.authInfo !in kc.authInfos then None
      else
        var cluster, user := kc.clusters[context.cluster], kc.authInfos[context.authInfo];
        Some(Connection(cluster.server, cluster.certificateAuthority, user.clientKey, user.clientCertificate))
  }

  /**
   A configuration is made exactly when the CA certificate and key match; it then resolves, and
   the client certificate inside chains to that CA and certifies the client key beside it.
   */
  lemma NewWithSecretResolves(
      clusterName: string, endpoint: string, ca: Certificate, caKey: KeyId, config: CertConfig, key: KeyId)
    ensures var r := NewWithSecret(clusterName, endpoint, ca, caKey, config, key);
            && (r.Ok? <==> ca.publicKey == caKey)
            && (r.Ok? ==>
                  var c := Resolve(r.value);
                  && c.Some? && c.value.server == endpoint && c.value.ca == CertPem(ca)
                  && c.value.clientKey == PrivatePem(key)
                  && c.value.clientCertificate.CertPem? && c.value.clientCertificate.cert.publicKey == key
                  && c.value.clientCertificate.cert.signedBy == caKey
                  && c.value.clientCertificate.cert.subject == Subject(config.commonName, config.organization)
                  && c.value.clientCertificate.cert.usages == config.usages && !c.value.clientCertificate.cert.isCA
                  && (ca.isCA ==> Verifies(c.value.clientCertificate.cert, ca)))
  {
  }

  // ---------- Endpoints ----------

  /** The text up to the first colon or slash. */
  function UpToDelimiter(s: string): string {
    if s == [] || s[0] == ':' || s[0] == '/' then [] else [s[0]] + UpToDelimiter(s[1..])
  }

  /** The host a client dials for an https URL. */
  function HostOf(url: string): Option<string> {
    if "https://" <= url then Some(UpToDelimiter(url[8..])) else None
  }

  /** The DNS name the apiserver certificate is issued for. */
  function ApiserverName(tenant: string): string { "kube-apiserver." + tenant + ".svc" }

  /** The endpoint written into every kubeconfig. */
  function Endpoint(tenant: string): string { "https://" + ApiserverName(tenant) + ":6443" }

  /** Object names are lower-case alphanumerics, dashes and dots: never a colon or a slash. */
  predicate PlainName(name: string) { ':' !in name && '/' !in name }

  lemma {:induction false} UpToDelimiterStops(a: string, b: string)
    requires PlainName(a)
    ensures UpToDelimiter(a + ":" + b) == a
  {
    if a == [] {
      assert ([] + ":" + b)[0] == ':';
    } else {
      assert (a + ":" + b)[1..] == a[1..] + ":" + b;
      assert a == [a[0]] + a[1..];
      UpToDelimiterStops(a[1..], b);
    }
  }

  lemma EndpointText(tenant: string)
    ensures Endpoint(tenant) == "https://kube-apiserver." + tenant + ".svc:6443"
  {
    assert "https://kube-apiserver." == "https://" + "kube-apiserver.";
    assert ".svc:6443" == ".svc" + ":6443";
  }

  lemma EndpointHost(tenant: string)
    requires PlainName(tenant)
    ensures HostOf(Endpoint(tenant)) == Some(ApiserverName(tenant))
  {
    var url, name := Endpoint(tenant), ApiserverName(tenant);
    assert url[8..] == name + ":" + "6443";
    assert ':' !in "kube-apiserver." && '/' !in "kube-apiserver." && ':' !in ".svc" && '/' !in ".svc";
    UpToDelimiterStops(name, "6443");
  }
}
