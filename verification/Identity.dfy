/** Node identity: ids, roles, keys, and the node id derived from the public keys. */
module Identity {
  import opened Wrappers
  import opened Text
  import opened Base32

  /** The outcomes that callers tell apart; the rest of the Go errors carry only text. */
  datatype Error =
    | InvalidNodeId | InvalidNetworkId | InvalidRole | InvalidKey | InvalidRecord
    | InvalidCode | CodeConsumed | WrongNetwork | WrongRole
    | PeerExists | PeerNotFound | RevokedPeer | UnknownPeer | PublicKeyMismatch
    | InvalidMessage | MasterMismatch | LocalStateMismatch | Unauthorized
    | MissingMetadata | InvalidCertificate
    | LockHeld | IoError

  /** The library functions the repository calls and this model takes as given. */
  datatype Primitives = Primitives(
    sha256: seq<Byte> -> seq<Byte>,
    hmac: (seq<Byte>, seq<Byte>) -> seq<Byte>,
    upper: char -> char)

  /** Instants in seconds; 0 is Go's zero time, for which IsZero holds. */
  type Time = int

  type NodeId = string
  type NetworkId = string

  datatype Role = Master | Worker | OtherRole(name: string)
  datatype KeyAlgorithm = Ed25519 | X25519 | OtherAlgorithm(name: string)
  datatype Key = Key(algorithm: KeyAlgorithm, bytes: seq<Byte>)

  /** Public and private key sets have the same shape and the same validity rule. */
  datatype KeySet = KeySet(signing: Key, transport: Key)

  datatype Identity = Identity(
    version: int, nodeId: NodeId, networkId: NetworkId, role: Role,
    publicKeys: KeySet, privateKeys: KeySet, createdAt: Time)

  datatype Network = Network(version: int, id: NetworkId, createdAt: Time, createdBy: NodeId)

  predicate ValidRole(r: Role) {
    r.Master? || r.Worker?
  }

  predicate ValidKeys(k: KeySet) {
    && k.signing.algorithm.Ed25519? && k.signing.bytes != []
    && k.transport.algorithm.X25519? && k.transport.bytes != []
  }

  predicate ValidIdentity(i: Identity) {
    && i.version > 0
    && !Blank(i.nodeId) && !Blank(i.networkId) && ValidRole(i.role)
    && ValidKeys(i.publicKeys) && ValidKeys(i.privateKeys)
    && i.createdAt != 0
  }

  predicate ValidNetwork(n: Network) {
    n.version > 0 && !Blank(n.id) && n.createdAt != 0
  }

  // ---------- the node id ----------

  function Ascii(s: string): (b: seq<Byte>)
    ensures |b| == |s|
  {
    seq(|s|, i requires 0 <= i < |s| => s[i] as int % 256)
  }

  const NODE_ID_DOMAIN := Ascii("tailed-box-cli node id v1")

  function AlgorithmName(a: KeyAlgorithm): string {
    match a
    case Ed25519 => "ed25519"
    case X25519 => "x25519"
    case OtherAlgorithm(name) => name
  }

  /** The hashed preimage: five fields with a zero byte between them. */
  function Material(k: KeySet): seq<Byte> {
    NODE_ID_DOMAIN + [0] + Ascii(AlgorithmName(k.signing.algorithm)) + [0] + k.signing.bytes + [0]
    + Ascii(AlgorithmName(k.transport.algorithm)) + [0] + k.transport.bytes
  }

  function NodeIdOfDigest(digest: seq<Byte>): NodeId {
    "node_" + ToLowerAscii(EncodeNoPadding(digest))
  }

  function DeriveNodeId(p: Primitives, k: KeySet): Result<NodeId, Error> {
    if ValidKeys(k) then Ok(NodeIdOfDigest(p.sha256(Material(k)))) else Err(InvalidKey)
  }

  /** GenerateIdentity with its fresh key pairs as inputs. */
  function GenerateIdentity(p: Primitives, networkId: NetworkId, role: Role, publicKeys: KeySet, privateKeys: KeySet,
                            createdAt: Time): Result<Identity, Error>
  {
    if Blank(networkId) then Err(InvalidNetworkId)
    else if !ValidRole(role) then Err(InvalidRole)
    else
      var nodeId :- DeriveNodeId(p, publicKeys);
      var identity := Identity(1, nodeId, networkId, role, publicKeys, privateKeys, createdAt);
      if ValidIdentity(identity) then Ok(identity) else Err(InvalidRecord)
  }

  /** Exactly when an identity is made, and what it is made of. */
  lemma GenerateIdentityIff(p: Primitives, networkId: NetworkId, role: Role, publicKeys: KeySet, privateKeys: KeySet,
                            createdAt: Time, made: Identity)
    ensures GenerateIdentity(p, networkId, role, publicKeys, privateKeys, createdAt) == Ok(made)
            <==>
            && !Blank(networkId) && (role == Master || role == Worker)
            && ValidKeys(publicKeys) && ValidKeys(privateKeys) && createdAt != 0
            && made.version == 1 && made.networkId == networkId && made.role == role && made.createdAt == createdAt
            && made.publicKeys == publicKeys && made.privateKeys == privateKeys
            && DeriveNodeId(p, publicKeys) == Ok(made.nodeId)
  {
    hide Material, Blank;
    if ValidKeys(publicKeys) {
      DigestIdIsNotBlank(p.sha256(Material(publicKeys)));
    }
  }

  lemma DigestIdIsNotBlank(digest: seq<Byte>)
    ensures !Blank(NodeIdOfDigest(digest))
  {
    var id := NodeIdOfDigest(digest);
    BlankMeansAllSpaces(id);
    assert !IsSpace(id[0]);
  }

  // ---------- a node id determines the keys ----------

  const MIDDLE := [0] + Ascii("x25519") + [0]
  const FRONT := NODE_ID_DOMAIN + [0] + Ascii("ed25519") + [0]

  lemma MaterialShape(k: KeySet)
    requires ValidKeys(k)
    ensures Material(k) == FRONT + (k.signing.bytes + (MIDDLE + k.transport.bytes))
  {
  }

  /**
   * A node id is `node_` and a spelling of the hash of the two public keys: read back, in any case, it gives
   * the digest of the domain, the algorithm names and the keys with zero bytes between them.
   */
  lemma NodeIdCarriesDigest(p: Primitives, k: KeySet, table: char -> char)
    ensures DeriveNodeId(p, k).Ok? <==>
              && k.signing.algorithm == Ed25519 && k.signing.bytes != []
              && k.transport.algorithm == X25519 && k.transport.bytes != []
    ensures DeriveNodeId(p, k).Ok? ==>
              var id := DeriveNodeId(p, k).value;
              && |id| >= 5 && id[..5] == "node_"
              && DecodeNoPadding(table, id[5..])
                 == Ok(p.sha256(Ascii("tailed-box-cli node id v1") + [0] + Ascii("ed25519") + [0] + k.signing.bytes
                                + [0] + Ascii("x25519") + [0] + k.transport.bytes))
  {
    hide EncodeQuints, DecodeNoPadding;
    if ValidKeys(k) {
      var digest := p.sha256(Material(k));
      LowerCaseReadsBack(table, digest);
      var spelled := ToLowerAscii(EncodeNoPadding(digest));
      assert ("node_" + spelled)[..5] == "node_" && ("node_" + spelled)[5..] == spelled;
    }
  }

  /**
   * Two valid key sets hash the same bytes and are equal exactly when their signing keys are equally
   * long: the separator is a byte that keys may contain, so lengths are what keeps the fields apart.
   */
  lemma SameMaterialSameKeys(a: KeySet, b: KeySet)
    requires ValidKeys(a) && ValidKeys(b)
    requires Material(a) == Material(b)
    ensures a == b <==> |a.signing.bytes| == |b.signing.bytes|
  {
    MaterialShape(a);
    MaterialShape(b);
    var s, t := a.signing.bytes, b.signing.bytes;
    var x, y := s + (MIDDLE + a.transport.bytes), t + (MIDDLE + b.transport.bytes);
    assert x == (FRONT + x)[|FRONT|..] == (FRONT + y)[|FRONT|..] == y;
    if |s| == |t| {
      assert s == x[..|s|] == y[..|t|] == t;
      assert a.transport.bytes == x[|s| + |MIDDLE|..] == y[|t| + |MIDDLE|..] == b.transport.bytes;
    }
  }

  /** Equal lengths are needed: these two valid key sets differ and have one preimage, hence one node id. */
  lemma UnequalLengthsCollide(p: Primitives)
    ensures var a := KeySet(Key(Ed25519, [1]), Key(X25519, [2] + MIDDLE + [3]));
            var b := KeySet(Key(Ed25519, [1] + MIDDLE + [2]), Key(X25519, [3]));
            a != b && ValidKeys(a) && ValidKeys(b) && DeriveNodeId(p, a) == DeriveNodeId(p, b)
  {
    var a := KeySet(Key(Ed25519, [1]), Key(X25519, [2] + MIDDLE + [3]));
    var b := KeySet(Key(Ed25519, [1] + MIDDLE + [2]), Key(X25519, [3]));
    MaterialShape(a);
    MaterialShape(b);
    assert |b.signing.bytes| > |a.signing.bytes|;
    assert a.signing.bytes + (MIDDLE + a.transport.bytes) == b.signing.bytes + (MIDDLE + b.transport.bytes);
  }

  /** `x` and `y` are not a collision of the hash. */
  predicate NoCollision(p: Primitives, x: seq<Byte>, y: seq<Byte>) {
    p.sha256(x) == p.sha256(y) ==> x == y
  }

  /** Unless the hash collides on them, key sets with one node id and equally long signing keys are equal. */
  lemma NodeIdDeterminesKeys(p: Primitives, a: KeySet, b: KeySet)
    requires NoCollision(p, Material(a), Material(b))
    requires DeriveNodeId(p, a).Ok? && DeriveNodeId(p, a) == DeriveNodeId(p, b)
    ensures a == b <==> |a.signing.bytes| == |b.signing.bytes|
  {
    var da, db := p.sha256(Material(a)), p.sha256(Material(b));
    var la, lb := ToLowerAscii(EncodeNoPadding(da)), ToLowerAscii(EncodeNoPadding(db));
    assert la == ("node_" + la)[5..] == ("node_" + lb)[5..] == lb;
    LowerEncodingInjective(da, db);
    SameMaterialSameKeys(a, b);
  }
}
