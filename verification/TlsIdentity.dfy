/** The mesh identity inside a certificate: issuing it, reading it back, and deciding on a peer. */
module TlsIdentity {
  import opened Wrappers
  import opened Text
  import opened Base32
  import opened Identity
  import opened Records
  import opened StoreOps

  const METADATA_VERSION := 1
  const METADATA_OID: seq<nat> := [1, 3, 6, 1, 4, 1, 55555, 1, 1]
  const CERTIFICATE_TTL := 30 * 24 * 3600
  const CLOCK_SKEW := 5 * 60
  const ED25519_PRIVATE_KEY_SIZE := 64

  datatype Metadata = Metadata(
    version: int, nodeId: NodeId, networkId: NetworkId, role: Role, publicKeys: KeySet, createdAt: Time)

  /** What an extension's bytes decode to. */
  datatype ExtensionValue = Empty | Undecodable | Decoded(metadata: Metadata)
  datatype Extension = Extension(oid: seq<nat>, value: ExtensionValue)

  datatype CertificateKey = Ed25519Key(bytes: seq<Byte>) | OtherKey
  datatype Certificate = Certificate(
    publicKey: CertificateKey, extensions: seq<Extension>, notBefore: Time, notAfter: Time)

  /** CertificateMetadata.Validate: the first check that fails. */
  function CheckMetadata(p: Primitives, m: Metadata): Option<Error> {
    if m.version != METADATA_VERSION then Some(InvalidCertificate)
    else if Blank(m.nodeId) then Some(InvalidNodeId)
    else if Blank(m.networkId) then Some(InvalidNetworkId)
    else if !ValidRole(m.role) then Some(InvalidRole)
    else if !ValidKeys(m.publicKeys) then Some(InvalidKey)
    else if m.createdAt == 0 then Some(InvalidCertificate)
    else if DeriveNodeId(p, m.publicKeys) != Ok(m.nodeId) then Some(InvalidCertificate)
    else None
  }

  function FirstMetadata(extensions: seq<Extension>): (r: ExtensionValue)
    ensures r != Empty ==>
              exists i :: 0 <= i < |extensions| && extensions[i].oid == METADATA_OID && extensions[i].value == r
  {
    if extensions == [] then Empty
    else if extensions[0].oid == METADATA_OID then extensions[0].value
    else FirstMetadata(extensions[1..])
  }

  function MetadataOf(p: Primitives, c: Certificate): Result<Metadata, Error> {
    match FirstMetadata(c.extensions)
    case Empty => Err(MissingMetadata)
    case Undecodable => Err(InvalidCertificate)
    case Decoded(m) =>
      match CheckMetadata(p, m)
      case Some(e) => Err(e)
      case None => if c.publicKey == Ed25519Key(m.publicKeys.signing.bytes) then Ok(m) else Err(InvalidCertificate)
  }

  /** MetadataFromCertificate: the extensions are searched in order up to the first with the mesh identifier. */
  method MetadataFromCertificate(p: Primitives, c: Certificate) returns (r: Result<Metadata, Error>)
    ensures r == MetadataOf(p, c)
  {
    var metadata := Empty;
    var i := 0;
    while i < |c.extensions|
      invariant 0 <= i <= |c.extensions|
      invariant metadata == Empty
      invariant FirstMetadata(c.extensions) == FirstMetadata(c.extensions[i..])
    {
      if c.extensions[i].oid == METADATA_OID {
        metadata := c.extensions[i].value;
        break;
      }
      i := i + 1;
    }
    match metadata {
      case Empty => return Err(MissingMetadata);
      case Undecodable => return Err(InvalidCertificate);
      case Decoded(m) =>
        var failed := CheckMetadata(p, m);
        if failed.Some? {
          return Err(failed.value);
        }
        if c.publicKey != Ed25519Key(m.publicKeys.signing.bytes) {
          return Err(InvalidCertificate);
        }
        return Ok(m);
    }
  }

  function MetadataFor(local: Identity, now: Time): Metadata {
    Metadata(METADATA_VERSION, local.nodeId, local.networkId, local.role, local.publicKeys, now)
  }

  /** NewCertificate; `now` is the normalised issuing time. An Ed25519 private key ends with its public key. */
  function NewCertificate(p: Primitives, local: Identity, now: Time): Result<Certificate, Error> {
    if !ValidIdentity(local) then Err(InvalidRecord)
    else if |local.privateKeys.signing.bytes| != ED25519_PRIVATE_KEY_SIZE then Err(InvalidKey)
    else if local.privateKeys.signing.bytes[32..] != local.publicKeys.signing.bytes then Err(InvalidCertificate)
    else match CheckMetadata(p, MetadataFor(local, now))
      case Some(e) => Err(e)
      case None =>
        Ok(Certificate(Ed25519Key(local.publicKeys.signing.bytes),
                       [Extension(METADATA_OID, Decoded(MetadataFor(local, now)))],
                       now - CLOCK_SKEW, now + CERTIFICATE_TTL))
  }

  datatype VerifyOptions = VerifyOptions(networkId: NetworkId, expectedRole: Option<Role>)

  /** The part of VerifyCertificate that reads no store. */
  function CheckCertificate(p: Primitives, o: VerifyOptions, c: Certificate, now: Time): Result<Metadata, Error> {
    if Blank(o.networkId) then Err(InvalidNetworkId)
    else if o.expectedRole.Some? && !ValidRole(o.expectedRole.value) then Err(InvalidRole)
    else
      var m :- MetadataOf(p, c);
      if now < c.notBefore || c.notAfter < now then Err(InvalidCertificate)
      else if m.networkId != o.networkId then Err(WrongNetwork)
      else if o.expectedRole.Some? && m.role != o.expectedRole.value then Err(WrongRole)
      else Ok(m)
  }

  /** The checks on the stored peer, in the order VerifyCertificate makes them. */
  function CheckStoredPeer(o: VerifyOptions, m: Metadata, peers: Peers): Option<Error> {
    match GetPeer(peers, m.nodeId)
    case Err(PeerNotFound) => Some(UnknownPeer)
    case Err(e) => Some(e)
    case Ok(r) =>
      if !r.IsActive() then Some(RevokedPeer)
      else if r.networkId != o.networkId || r.networkId != m.networkId then Some(WrongNetwork)
      else if r.role != m.role then Some(WrongRole)
      else if r.publicKeys != m.publicKeys then Some(PublicKeyMismatch)
      else None
  }

  /** VerifyCertificate over the contents its two store reads returned. */
  function VerifyCertificate(p: Primitives, o: VerifyOptions, c: Certificate, now: Time,
                             peers: Peers, revs: Revocations): Result<Metadata, Error>
  {
    var m :- CheckCertificate(p, o, c, now);
    match CheckStoredPeer(o, m, peers)
    case Some(e) => Err(e)
    case None => if IsRevokedIn(revs, m.nodeId) then Err(RevokedPeer) else Ok(m)
  }

  /**
   * What acceptance means for any certificate at all: it carries the metadata and its own signing key,
   * the id belongs to the keys, the clock is inside the window, and the stores know exactly this
   * node, active and unrevoked. Nothing less is accepted and nothing more is asked.
   */
  lemma AcceptedIff(p: Primitives, o: VerifyOptions, c: Certificate, now: Time, peers: Peers, revs: Revocations,
                    m: Metadata)
    requires !Blank(o.networkId) && (o.expectedRole.Some? ==> ValidRole(o.expectedRole.value))
    ensures VerifyCertificate(p, o, c, now, peers, revs) == Ok(m)
            <==>
            && FirstMetadata(c.extensions) == Decoded(m) && m.version == METADATA_VERSION && m.createdAt != 0
            && !Blank(m.nodeId) && !Blank(m.networkId) && ValidRole(m.role)
            && DeriveNodeId(p, m.publicKeys) == Ok(m.nodeId)
            && c.publicKey == Ed25519Key(m.publicKeys.signing.bytes)
            && c.notBefore <= now <= c.notAfter
            && m.networkId == o.networkId && (o.expectedRole.Some? ==> o.expectedRole.value == m.role)
            && (exists j :: FindPeer(peers, m.nodeId) == Some(j) && peers[j].IsActive()
                            && SamePeer(peers[j], PublicPeer(m.nodeId, m.networkId, m.role, m.publicKeys)))
            && !IsRevokedIn(revs, m.nodeId)
  {
    hide NodeIdOfDigest, Material, Blank, FindPeer, FirstMetadata;
  }

  /**
   * Exactly when the holder of `x`'s identity gets in with a certificate it issued: the clock is inside
   * the window, network and role fit, the stored peer is active and agrees, and no revocation is on file.
   */
  lemma IssuedCertificateAcceptedIff(p: Primitives, o: VerifyOptions, local: Identity, issued: Time, now: Time,
                                     peers: Peers, revs: Revocations)
    requires NewCertificate(p, local, issued).Ok?
    requires o.expectedRole.Some? ==> ValidRole(o.expectedRole.value)
    ensures var c := NewCertificate(p, local, issued).value;
            VerifyCertificate(p, o, c, now, peers, revs) == Ok(MetadataFor(local, issued))
            <==>
            && issued - CLOCK_SKEW <= now <= issued + CERTIFICATE_TTL
            && o.networkId == local.networkId
            && (o.expectedRole.Some? ==> o.expectedRole.value == local.role)
            && (exists r :: FindPeer(peers, local.nodeId) == Some(r) && peers[r].IsActive()
                            && SamePeer(peers[r], PublicPeer(local.nodeId, local.networkId, local.role,
                                                             local.publicKeys)))
            && !IsRevokedIn(revs, local.nodeId)
  {
    hide VerifyCertificate, DeriveNodeId, ValidKeys, FindPeer, FirstMetadata, IsRevokedIn, Blank;
    IssuedByValid(p, local, issued);
    if !Blank(o.networkId) {
      AcceptedIff(p, o, NewCertificate(p, local, issued).value, now, peers, revs, MetadataFor(local, issued));
    } else {
      BlankNetworkRefused(p, o, NewCertificate(p, local, issued).value, now, peers, revs);
    }
  }

  /** Exactly when a node can issue a certificate, and that it speaks of this node and nobody else. */
  lemma NewCertificateIff(p: Primitives, local: Identity, now: Time, c: Certificate)
    ensures NewCertificate(p, local, now) == Ok(c)
            <==>
            && ValidIdentity(local) && now != 0 && DeriveNodeId(p, local.publicKeys) == Ok(local.nodeId)
            && |local.privateKeys.signing.bytes| == 64
            && local.privateKeys.signing.bytes[32..] == local.publicKeys.signing.bytes
            && c == Certificate(Ed25519Key(local.publicKeys.signing.bytes),
                                [Extension([1, 3, 6, 1, 4, 1, 55555, 1, 1],
                                           Decoded(Metadata(1, local.nodeId, local.networkId, local.role,
                                                            local.publicKeys, now)))],
                                now - 300, now + 2592000)
  {
    hide DeriveNodeId, Blank, ValidKeys;
  }

  // ---------- verification in its parts ----------

  /** What a certificate has to be like for a verifier that has not looked at its stores yet. */
  predicate Presents(p: Primitives, o: VerifyOptions, c: Certificate, now: Time, m: Metadata) {
    && !Blank(o.networkId) && (o.expectedRole == None || o.expectedRole == Some(m.role))
    && FirstMetadata(c.extensions) == Decoded(m) && m.version == 1 && m.createdAt != 0
    && !Blank(m.nodeId) && m.networkId == o.networkId && (m.role == Master || m.role == Worker)
    && DeriveNodeId(p, m.publicKeys) == Ok(m.nodeId)
    && c.publicKey == Ed25519Key(m.publicKeys.signing.bytes)
    && c.notBefore <= now <= c.notAfter
  }

  lemma CertificateIff(p: Primitives, o: VerifyOptions, c: Certificate, now: Time, m: Metadata)
    ensures CheckCertificate(p, o, c, now) == Ok(m) <==> Presents(p, o, c, now, m)
  {
    hide NodeIdOfDigest, Material, Blank, FirstMetadata;
  }

  /** The stored peer that a certificate's metadata has to meet. */
  predicate KnownAs(peers: Peers, m: Metadata) {
    exists j :: 0 <= j < |peers| && peers[j].nodeId == m.nodeId
      && (forall k :: 0 <= k < j ==> peers[k].nodeId != m.nodeId)
      && peers[j].status == Active && peers[j].revokedAt == None
      && peers[j].networkId == m.networkId && peers[j].role == m.role && peers[j].publicKeys == m.publicKeys
  }

  lemma StoredPeerIff(o: VerifyOptions, m: Metadata, peers: Peers)
    requires !Blank(m.nodeId) && m.networkId == o.networkId
    ensures CheckStoredPeer(o, m, peers).None? <==> KnownAs(peers, m)
  {
    hide Blank;
  }

  predicate NotRevoked(revs: Revocations, node: NodeId) {
    forall k :: 0 <= k < |revs| ==> revs[k].nodeId != node
  }

  lemma NotRevokedIff(revs: Revocations, node: NodeId)
    ensures !IsRevokedIn(revs, node) <==> NotRevoked(revs, node)
  {
  }

  /** Which refusal comes first once a certificate is well made: time, network, role, and then the store's. */
  lemma VerificationRefusals(p: Primitives, o: VerifyOptions, c: Certificate, now: Time, peers: Peers,
                             revs: Revocations,
                             m: Metadata)
    requires !Blank(o.networkId) && (o.expectedRole.Some? ==> ValidRole(o.expectedRole.value))
    requires MetadataOf(p, c) == Ok(m)
    ensures var answer := VerifyCertificate(p, o, c, now, peers, revs);
            if !(c.notBefore <= now <= c.notAfter) then answer == Err(InvalidCertificate)
            else if m.networkId != o.networkId then answer == Err(WrongNetwork)
            else if o.expectedRole.Some? && o.expectedRole.value != m.role then answer == Err(WrongRole)
            else match FindPeer(peers, m.nodeId)
              case None => answer == Err(UnknownPeer)
              case Some(j) =>
                if peers[j].status != Active || peers[j].revokedAt != None then answer == Err(RevokedPeer)
                else if peers[j].networkId != o.networkId then answer == Err(WrongNetwork)
                else if peers[j].role != m.role then answer == Err(WrongRole)
                else if peers[j].publicKeys != m.publicKeys then answer == Err(PublicKeyMismatch)
                else if !NotRevoked(revs, m.nodeId) then answer == Err(RevokedPeer)
                else answer == Ok(m)
  {
    hide NodeIdOfDigest, Material, Blank, FindPeer, FirstMetadata, NotRevoked, IsRevokedIn;
    NotRevokedIff(revs, m.nodeId);
    MetadataHasId(p, c);
  }

  lemma MetadataHasId(p: Primitives, c: Certificate)
    requires MetadataOf(p, c).Ok?
    ensures !Blank(MetadataOf(p, c).value.nodeId)
  {
    hide DeriveNodeId, Blank, ValidKeys, FirstMetadata;
  }

  lemma IssuedByValid(p: Primitives, local: Identity, now: Time)
    requires NewCertificate(p, local, now).Ok?
    ensures var c := NewCertificate(p, local, now).value;
            && FirstMetadata(c.extensions) == Decoded(MetadataFor(local, now))
            && c.notBefore == now - CLOCK_SKEW && c.notAfter == now + CERTIFICATE_TTL
            && c.publicKey == Ed25519Key(local.publicKeys.signing.bytes)
            && CheckMetadata(p, MetadataFor(local, now)).None?
  {
  }

  lemma BlankNetworkRefused(p: Primitives, o: VerifyOptions, c: Certificate, now: Time, peers: Peers, revs: Revocations)
    requires Blank(o.networkId)
    ensures VerifyCertificate(p, o, c, now, peers, revs).Err?
  {
    hide Blank;
  }

  lemma MetadataBindsKeys(p: Primitives, c: Certificate)
    requires MetadataOf(p, c).Ok?
    ensures var m := MetadataOf(p, c).value;
            && DeriveNodeId(p, m.publicKeys) == Ok(m.nodeId)
            && c.publicKey == Ed25519Key(m.publicKeys.signing.bytes)
  {
    hide DeriveNodeId, ValidKeys, Blank, FirstMetadata;
  }

  /**
   * The node id in accepted metadata leaves one choice of keys: reading metadata forces the signing
   * key to be the certificate's, and Ed25519 public keys all have one length.
   */
  lemma OneNodeIdOneKeySet(p: Primitives, a: Certificate, b: Certificate)
    requires MetadataOf(p, a).Ok? && MetadataOf(p, b).Ok?
    requires MetadataOf(p, a).value.nodeId == MetadataOf(p, b).value.nodeId
    requires |a.publicKey.bytes| == |b.publicKey.bytes| == 32
    requires NoCollision(p, Material(MetadataOf(p, a).value.publicKeys), Material(MetadataOf(p, b).value.publicKeys))
    ensures MetadataOf(p, a).value.publicKeys == MetadataOf(p, b).value.publicKeys
    ensures a.publicKey == b.publicKey
  {
    hide MetadataOf, Material, DeriveNodeId, ValidKeys;
    MetadataBindsKeys(p, a);
    MetadataBindsKeys(p, b);
    NodeIdDeterminesKeys(p, MetadataOf(p, a).value.publicKeys, MetadataOf(p, b).value.publicKeys);
  }
}
