/** Credentials of one tenant are worth nothing to another, as long as no key is generated twice. */
module Isolation {
  import opened Wrappers
  import opened Certificates
  import opened Tenants
  import opened HostObjects
  import opened Protocol
  import opened Invariants
  import opened Credentials
  import opened Provenance
  import opened Worlds
  import K = Kubeconfigs

  // ---------- Isolation ----------

  /** The client certificate in a kubeconfig file of a secret. */
  function ClientOf(o: HostObject, file: string): Option<Certificate> {
    if !o.Secret? || file !in o.data || !o.data[file].ConfigFile? then None
    else
      match K.Resolve(o.data[file].config)
      case Some(Connection(_, _, _, CertPem(cert))) => Some(cert)
      case _ => None
  }

  /** What matters here of a secret made from some keys: whose key signed what in it. */
  ghost predicate Rooted(o: HostObject, root: KeyId, frontRoot: KeyId) {
    var ca, front := CertOf(o, "ca.crt"), CertOf(o, "front-proxy-client.crt");
    ca == Some(CACert(EMPTY_CONFIG, root)) && front.Some? && front.value.signedBy == frontRoot
  }

  lemma MadeIsRooted(setup: Setup, o: HostObject, entropy: Entropy)
    requires MadeWith(setup, ServerCert, o, entropy)
    ensures entropy.Keys? && Rooted(o, entropy.k0, entropy.k3)
  {
    hide Draft;
    var owner :| Draft(setup, ServerCert, owner, entropy) == Ok(o);
    DraftTakesKeys(setup, owner, entropy);
    ServerCertFiles(setup, owner, entropy);
  }

  /** The move after which the keys of a tenant's stored secret were drawn. */
  lemma SecretIsRooted(site: Site, xs: seq<Move>, n: string) returns (k: nat)
    requires var c := Project(RunWorld(site, NOTHING, xs), n); ServerCert in c.host
    ensures k < |xs| && xs[k].tenant == n && xs[k].event.Perform? && xs[k].event.call.entropy.Keys?
    ensures Rooted(Project(RunWorld(site, NOTHING, xs), n).host[ServerCert],
                   xs[k].event.call.entropy.k0, xs[k].event.call.entropy.k3)
  {
    hide Project, RunWorld, Run, Rooted, MadeWith;
    var i := StoredWasMade(site, xs, n, ServerCert);
    k := MoveOf(xs, n, i);
    var o := Project(RunWorld(site, NOTHING, xs), n).host[ServerCert];
    MadeIsRooted(SetupFor(site, n), o, EventsOf(xs, n)[i].call.entropy);
  }

  /** The client certificate of a stored kubeconfig is signed by the key of the stored CA. */
  lemma ClientIsRooted(setup: Setup, c: Cell, p: Part)
    requires Reachable(setup, c) && c.tenant.Some? && IsKubeconfig(p) && p in c.host
    ensures ServerCert in c.host
    ensures var client, ca := ClientOf(c.host[p], ConfigFileName(p)), CertOf(c.host[ServerCert], "ca.crt");
            client.Some? && ca.Some? && Verifies(client.value, ca.value)
  {
    hide Draft, DraftKubeconfig, CertOf;
    ReachableInv(setup, c);
    var owner := c.tenant.value.AsOwner();
    assert ObjectOk(setup, owner, c.host, p) && ObjectOk(setup, owner, c.host, ServerCert);
    var entropy :| DraftKubeconfig(setup, p, owner, c.host[ServerCert], entropy) == Ok(c.host[p]);
    var e :| Draft(setup, ServerCert, owner, e) == Ok(c.host[ServerCert]);
    DraftedClient(setup, p, owner, e, entropy);
  }

  lemma DraftedClient(setup: Setup, p: Part, owner: OwnerReference, e: Entropy, entropy: Entropy)
    requires IsKubeconfig(p) && Draft(setup, ServerCert, owner, e).Ok?
    requires DraftKubeconfig(setup, p, owner, Draft(setup, ServerCert, owner, e).value, entropy).Ok?
    ensures var serverCert := Draft(setup, ServerCert, owner, e).value;
            var client := ClientOf(DraftKubeconfig(setup, p, owner, serverCert, entropy).value, ConfigFileName(p));
            var ca := CertOf(serverCert, "ca.crt");
            client.Some? && ca.Some? && Verifies(client.value, ca.value)
  {
    hide Draft;
    DraftTakesKeys(setup, owner, e);
    ServerCertFiles(setup, owner, e);
    ServerCertParses(setup, owner, e);
    K.NewWithSecretResolves(setup.name, K.Endpoint(setup.name), CACert(EMPTY_CONFIG, e.k0), e.k0, UserConfig(p),
        entropy.k0);
  }

  /**
   In any world of any tenants, reached through any faults with no key drawn twice: the client
   certificate in a stored kubeconfig is good for the CA of its own tenant and for no other, and a
   front proxy's certificate, although the two kinds of CA share their subject, is good for none.
   */
  lemma CredentialsAreIsolated(site: Site, xs: seq<Move>, a: string, b: string, p: Part)
    requires FreshKeys(xs) && IsKubeconfig(p)
    requires var w := RunWorld(site, NOTHING, xs);
             Project(w, a).tenant.Some? && p in Project(w, a).host && ServerCert in Project(w, b).host
    ensures var w := RunWorld(site, NOTHING, xs);
            && ServerCert in Project(w, a).host
            && var client := ClientOf(Project(w, a).host[p], ConfigFileName(p));
               var front := CertOf(Project(w, a).host[ServerCert], "front-proxy-client.crt");
               var ca := CertOf(Project(w, b).host[ServerCert], "ca.crt");
            && client.Some? && front.Some? && ca.Some?
            && (Verifies(client.value, ca.value) <==> a == b)
            && !Verifies(front.value, ca.value)
  {
    hide Project, RunWorld, CertOf, ClientOf;
    EveryTenantIsReachable(site, xs, a);
    ClientIsRooted(SetupFor(site, a), Project(RunWorld(site, NOTHING, xs), a), p);
    var i := SecretIsRooted(site, xs, a);
    var j := SecretIsRooted(site, xs, b);
    assert KeysAfter(xs[i])[0] == xs[i].event.call.entropy.k0 && KeysAfter(xs[j])[0] == xs[j].event.call.entropy.k0;
    assert KeysAfter(xs[i])[3] == xs[i].event.call.entropy.k3;
  }
}
