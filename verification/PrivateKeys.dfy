/** Every private key the controller hands out is one of its own, as long as no key is generated twice. */
module PrivateKeys {
  import opened Wrappers
  import opened Certificates
  import opened Tenants
  import opened HostObjects
  import opened Protocol
  import opened Credentials
  import opened Provenance
  import opened Worlds
  import K = Kubeconfigs

  /** The eight places where the secrets of a tenant hold a private key. */
  datatype Slot = CAKey | ApiserverKey | KubeletKey | FrontCAKey | FrontKey | ServiceAccountKey | AdminKey | ManagerKey

  function PartOf(s: Slot): Part {
    match s case AdminKey => AdminConfig case ManagerKey => ManagerConfig case _ => ServerCert
  }

  function FileOf(s: Slot): string {
    match s
    case CAKey => "ca.key"
    case ApiserverKey => "apiserver.key"
    case KubeletKey => "apiserver-kubelet-client.key"
    case FrontCAKey => "front-proxy-ca.key"
    case FrontKey => "front-proxy-client.key"
    case ServiceAccountKey => "sa.key"
    case AdminKey => "admin.conf"
    case ManagerKey => "controller-manager.conf"
  }

  /** Which of the keys drawn goes there. */
  function Turn(s: Slot): nat {
    match s
    case CAKey => 0
    case ApiserverKey => 1
    case KubeletKey => 2
    case FrontCAKey => 3
    case FrontKey => 4
    case ServiceAccountKey => 5
    case _ => 0
  }

  /** The client key in a kubeconfig file of a secret. */
  function ClientKeyOf(o: HostObject, file: string): Option<KeyId> {
    if !o.Secret? || file !in o.data || !o.data[file].ConfigFile? then None
    else
      match K.Resolve(o.data[file].config)
      case Some(Connection(_, _, PrivatePem(key), _)) => Some(key)
      case _ => None
  }

  /** The private key that a secret holds in a place. */
  function PrivateKey(o: HostObject, s: Slot): Option<KeyId> {
    if PartOf(s).ServerCert? then KeyOfFile(o, FileOf(s)) else ClientKeyOf(o, FileOf(s))
  }

  lemma PkiKeyIsDrawn(setup: Setup, owner: OwnerReference, entropy: Entropy, s: Slot)
    requires PartOf(s).ServerCert? && Draft(setup, ServerCert, owner, entropy).Ok?
    ensures entropy.Keys?
    ensures KeyOfFile(Draft(setup, ServerCert, owner, entropy).value, FileOf(s)) == Some(KeysIn(entropy)[Turn(s)])
  {
    hide Draft, GeneratedFiles;
    DraftTakesKeys(setup, owner, entropy);
    NewPkiChains(setup.name, entropy);
    PkiKeys(setup.name, entropy);
    PemOfGenerated(setup, owner, entropy, FileOf(s));
    GeneratedFilesByName(NewPki(setup.name, entropy).value);
  }

  lemma PkiKeys(tenant: string, entropy: Entropy)
    requires entropy.Keys?
    ensures var pki := NewPki(tenant, entropy);
            && pki.Ok? && pki.value.caKey == entropy.k0 && pki.value.apiserverKey == entropy.k1
            && pki.value.kubeletKey == entropy.k2 && pki.value.frontCAKey == entropy.k3
            && pki.value.frontKey == entropy.k4 && pki.value.saKey == entropy.k5
  {
  }

  lemma ConfigKeyIsDrawn(
      setup: Setup, p: Part, owner: OwnerReference, serverCert: HostObject, entropy: Entropy, s: Slot)
    requires IsKubeconfig(p) && PartOf(s) == p && DraftKubeconfig(setup, p, owner, serverCert, entropy).Ok?
    ensures entropy.Keys?
    ensures ClientKeyOf(DraftKubeconfig(setup, p, owner, serverCert, entropy).value, FileOf(s)) == Some(entropy.k0)
  {
    var (ca, caKey) := ParseCASecret(serverCert).value;
    K.NewWithSecretResolves(setup.name, K.Endpoint(setup.name), ca, caKey, UserConfig(p), entropy.k0);
  }

  /** A secret holds the key drawn for each of its places. */
  lemma MadeHoldsDrawn(setup: Setup, o: HostObject, entropy: Entropy, s: Slot)
    requires MadeWith(setup, PartOf(s), o, entropy)
    ensures entropy.Keys? && PrivateKey(o, s) == Some(KeysIn(entropy)[Turn(s)])
  {
    hide Draft, DraftKubeconfig, ClientKeyOf, KeyOfFile;
    if PartOf(s).ServerCert? {
      var owner :| Draft(setup, ServerCert, owner, entropy) == Ok(o);
      PkiKeyIsDrawn(setup, owner, entropy, s);
    } else {
      var owner, serverCert :| DraftKubeconfig(setup, PartOf(s), owner, serverCert, entropy) == Ok(o);
      ConfigKeyIsDrawn(setup, PartOf(s), owner, serverCert, entropy, s);
    }
  }

  /** The private key stored for a tenant in a place. */
  function KeyAt(site: Site, xs: seq<Move>, n: string, s: Slot): Option<KeyId> {
    var host := Project(RunWorld(site, NOTHING, xs), n).host;
    if PartOf(s) in host then PrivateKey(host[PartOf(s)], s) else None
  }

  /** Where a stored key comes from: a move of its tenant, after which a secret of that part was ready to create. */
  lemma KeyWasDrawn(site: Site, xs: seq<Move>, n: string, s: Slot) returns (i: nat)
    requires PartOf(s) in Project(RunWorld(site, NOTHING, xs), n).host
    ensures i < |EventsOf(xs, n)|
    ensures var next := Run(SetupFor(site, n), EMPTY, EventsOf(xs, n)[..i + 1]).proc;
            next.Creating? && next.part == PartOf(s)
    ensures var keys := KeysAfter(xs[MoveOf(xs, n, i)]);
            Turn(s) < |keys| && KeyAt(site, xs, n, s) == Some(keys[Turn(s)])
  {
    hide Project, RunWorld, Run, PrivateKey, MadeWith;
    i := StoredWasMade(site, xs, n, PartOf(s));
    var o := Project(RunWorld(site, NOTHING, xs), n).host[PartOf(s)];
    MadeHoldsDrawn(SetupFor(site, n), o, EventsOf(xs, n)[i].call.entropy, s);
  }

  /**
   In any world of any tenants, reached through any faults and retries with no key drawn twice, no two
   places hold the same private key: not two files of one secret, not a kubeconfig and the CA that
   signed for it, not two kubeconfigs, and not two tenants.
   */
  lemma PrivateKeysAreDistinct(site: Site, xs: seq<Move>, a: string, s: Slot, b: string, t: Slot)
    requires FreshKeys(xs)
    requires PartOf(s) in Project(RunWorld(site, NOTHING, xs), a).host
    requires PartOf(t) in Project(RunWorld(site, NOTHING, xs), b).host
    ensures KeyAt(site, xs, a, s).Some? && KeyAt(site, xs, b, t).Some?
    ensures KeyAt(site, xs, a, s) == KeyAt(site, xs, b, t) <==> a == b && s == t
  {
    hide Project, RunWorld, Run, KeyAt, KeysAfter, MoveOf;
    var i := KeyWasDrawn(site, xs, a, s);
    var j := KeyWasDrawn(site, xs, b, t);
    if KeyAt(site, xs, a, s) == KeyAt(site, xs, b, t) {
      SameDraw(xs, MoveOf(xs, a, i), Turn(s), MoveOf(xs, b, j), Turn(t));
      SameMove(xs, a, i, b, j);
      assert PartOf(s) == PartOf(t) && s == t;
    }
  }

  lemma SameDraw(xs: seq<Move>, k: nat, p: nat, l: nat, q: nat)
    requires FreshKeys(xs) && k < |xs| && l < |xs| && p < |KeysAfter(xs[k])| && q < |KeysAfter(xs[l])|
    requires KeysAfter(xs[k])[p] == KeysAfter(xs[l])[q]
    ensures k == l && p == q
  {
  }

  lemma SameMove(xs: seq<Move>, a: string, i: nat, b: string, j: nat)
    requires i < |EventsOf(xs, a)| && j < |EventsOf(xs, b)| && MoveOf(xs, a, i) == MoveOf(xs, b, j)
    ensures a == b && i == j
  {
    assert xs[MoveOf(xs, a, i)].tenant == a && xs[MoveOf(xs, b, j)].tenant == b;
    if i < j { MovesAreInOrder(xs, a, i, j); }
    if j < i { MovesAreInOrder(xs, a, j, i); }
  }
}
