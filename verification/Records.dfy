/** The records of the three security stores, their validity rules, and how new ones are made. */
module Records {
  import opened Wrappers
  import opened Text
  import opened Base32
  import opened Identity

  // ---------- join codes ----------

  datatype JoinStatus = Unused | Consumed | OtherJoinStatus(name: string)

  datatype JoinRecord = JoinRecord(
    id: string, networkId: NetworkId, expectedRole: Role, issuedBy: NodeId, createdAt: Time,
    algorithm: string, salt: seq<Byte>, verifier: seq<Byte>,
    status: JoinStatus, consumedAt: Option<Time>, consumedBy: NodeId)

  datatype CreateRequest = CreateRequest(networkId: NetworkId, expectedRole: Role, issuedBy: NodeId)

  datatype ConsumeRequest = ConsumeRequest(code: string, networkId: NetworkId, expectedRole: Role, consumedBy: NodeId)

  const VERIFIER_ALGORITHM := "hmac-sha256-v1"
  const CODE_ID_DOMAIN := Ascii("tailed-box-cli join code id v1")

  predicate ValidJoinRecord(r: JoinRecord) {
    && r.id != "" && !Blank(r.networkId) && ValidRole(r.expectedRole) && !Blank(r.issuedBy)
    && r.createdAt != 0 && r.algorithm != "" && r.salt != [] && r.verifier != []
    && (r.status.Unused? || r.status.Consumed?)
    && (r.status.Consumed? ==> r.consumedAt.Some? && r.consumedAt.value != 0 && !Blank(r.consumedBy))
  }

  /** The first check of ConsumeRequest.Validate that fails. */
  function CheckConsumeRequest(r: ConsumeRequest): Option<Error> {
    if Blank(r.code) then Some(InvalidCode)
    else if Blank(r.networkId) then Some(InvalidNetworkId)
    else if !ValidRole(r.expectedRole) then Some(InvalidRole)
    else if Blank(r.consumedBy) then Some(InvalidNodeId)
    else None
  }

  function VerifierForCode(p: Primitives, code: string, salt: seq<Byte>): Result<seq<Byte>, Error> {
    if Blank(code) then Err(InvalidCode)
    else if salt == [] then Err(InvalidRecord)
    else match DecodeNoPadding(p.upper, code)
      case Ok(secret) => Ok(p.hmac(salt, secret))
      case Err(_) => Err(InvalidCode)
  }

  function CodeIdForVerifier(p: Primitives, verifier: seq<Byte>): string {
    "join_" + ToLowerAscii(EncodeNoPadding(p.sha256(CODE_ID_DOMAIN + [0] + verifier)))
  }

  /** NewRecord with its random secret and salt as inputs; the plaintext code is returned, never stored. */
  function NewJoinRecord(p: Primitives, request: CreateRequest, createdAt: Time, secret: seq<Byte>, salt: seq<Byte>)
    : Result<(string, JoinRecord), Error>
  {
    if Blank(request.networkId) then Err(InvalidNetworkId)
    else if !ValidRole(request.expectedRole) then Err(InvalidRole)
    else if Blank(request.issuedBy) then Err(InvalidNodeId)
    else
      var code := EncodeNoPadding(secret);
      var verifier :- VerifierForCode(p, code, salt);
      var record := JoinRecord(CodeIdForVerifier(p, verifier), request.networkId, request.expectedRole,
                               request.issuedBy, createdAt, VERIFIER_ALGORITHM, salt, verifier, Unused, None, "");
      if ValidJoinRecord(record) then Ok((code, record)) else Err(InvalidRecord)
  }

  lemma ConsumeRequestIff(r: ConsumeRequest)
    ensures CheckConsumeRequest(r).None? <==>
              !Blank(r.code) && !Blank(r.networkId) && (r.expectedRole == Master || r.expectedRole == Worker)
              && !Blank(r.consumedBy)
    ensures Blank(r.code) ==> CheckConsumeRequest(r) == Some(InvalidCode)
    ensures !Blank(r.code) && Blank(r.networkId) ==> CheckConsumeRequest(r) == Some(InvalidNetworkId)
  {
    hide Blank;
  }

  /** Exactly when a code can be made, what is written on its record, and the code that is given out. */
  lemma NewJoinRecordIff(p: Primitives, request: CreateRequest, createdAt: Time, secret: seq<Byte>, salt: seq<Byte>,
                         code: string, r: JoinRecord)
    ensures NewJoinRecord(p, request, createdAt, secret, salt) == Ok((code, r))
            <==>
            && !Blank(request.networkId) && (request.expectedRole == Master || request.expectedRole == Worker)
            && !Blank(request.issuedBy) && createdAt != 0 && secret != [] && salt != [] && p.hmac(salt, secret) != []
            && code == EncodeNoPadding(secret)
            && r == JoinRecord(CodeIdForVerifier(p, p.hmac(salt, secret)), request.networkId, request.expectedRole,
                               request.issuedBy, createdAt, "hmac-sha256-v1", salt, p.hmac(salt, secret),
                               Unused, None, "")
  {
    hide Blank, EncodeNoPadding, DecodeNoPadding, CodeIdForVerifier, SpellingOf;
    StrictRoundTrip(secret);
    CanonicalSpelling(EncodeNoPadding(secret));
    TolerantRoundTrip(p.upper, secret, EncodeNoPadding(secret));
    EncodingIsBlankIff(secret);
    CodeIdIsNotEmpty(p, p.hmac(salt, secret));
  }

  lemma CodeIdIsNotEmpty(p: Primitives, verifier: seq<Byte>)
    ensures CodeIdForVerifier(p, verifier) != ""
  {
    hide EncodeNoPadding, ToLowerAscii;
  }

  lemma EncodingIsBlankIff(secret: seq<Byte>)
    ensures Blank(EncodeNoPadding(secret)) <==> secret == []
  {
    hide IsSpace, InAlphabet, EncodeQuints;
    var code := EncodeNoPadding(secret);
    EncodingIsTheBitString(0, secret);
    StrictRoundTrip(secret);
    BlankMeansAllSpaces(code);
    if secret != [] {
      AlphabetCase(c => c, code[0], code[0]);
    }
  }

  /** A code's id is `join_` and a spelling of the hash of its verifier. */
  lemma CodeIdCarriesDigest(p: Primitives, verifier: seq<Byte>, table: char -> char)
    ensures var id := CodeIdForVerifier(p, verifier);
            && |id| >= 5 && id[..5] == "join_"
            && DecodeNoPadding(table, id[5..])
               == Ok(p.sha256(Ascii("tailed-box-cli join code id v1") + [0] + verifier))
  {
    hide EncodeQuints, DecodeNoPadding;
    var digest := p.sha256(CODE_ID_DOMAIN + [0] + verifier);
    LowerCaseReadsBack(table, digest);
    var spelled := ToLowerAscii(EncodeNoPadding(digest));
    assert ("join_" + spelled)[..5] == "join_" && ("join_" + spelled)[5..] == spelled;
  }

  /** Unless the hash collides on them, records with one id have one verifier. */
  lemma CodeIdDeterminesVerifier(p: Primitives, a: seq<Byte>, b: seq<Byte>)
    requires NoCollision(p, Ascii("tailed-box-cli join code id v1") + [0] + a,
                         Ascii("tailed-box-cli join code id v1") + [0] + b)
    ensures CodeIdForVerifier(p, a) == CodeIdForVerifier(p, b) <==> a == b
  {
    hide CodeIdForVerifier, DecodeNoPadding;
    var table := (c: char) => c;
    CodeIdCarriesDigest(p, a, table);
    CodeIdCarriesDigest(p, b, table);
    var domain := Ascii("tailed-box-cli join code id v1") + [0];
    assert (domain + a)[|domain|..] == a && (domain + b)[|domain|..] == b;
  }

  /**
   * However the holder types the code, the verifier computed from it is the one on record; it depends
   * on the secret and the salt only.
   */
  lemma EverySpellingVerifies(p: Primitives, request: CreateRequest, createdAt: Time, secret: seq<Byte>,
                              salt: seq<Byte>, typed: string)
    requires NewJoinRecord(p, request, createdAt, secret, salt).Ok?
    requires SpellingOf(NewJoinRecord(p, request, createdAt, secret, salt).value.0, typed)
    ensures VerifierForCode(p, typed, salt) == Ok(NewJoinRecord(p, request, createdAt, secret, salt).value.1.verifier)
    ensures NewJoinRecord(p, request, createdAt, secret, salt).value.1.verifier == p.hmac(salt, secret)
  {
    hide Blank, SpellingOf, DecodeNoPadding, EncodeNoPadding, AllInAlphabet, ValidJoinRecord;
    var code := EncodeNoPadding(secret);
    StrictRoundTrip(secret);
    TolerantRoundTrip(p.upper, secret, typed);
    CanonicalSpelling(code);
    TolerantRoundTrip(p.upper, secret, code);
    SpellingIsNotBlank(p.upper, code, typed);
  }

  lemma SpellingIsNotBlank(table: char -> char, code: string, typed: string)
    requires AllInAlphabet(code) && !Blank(code)
    requires SpellingOf(code, typed)
    ensures !Blank(typed)
  {
    hide IsSpace, IsSeparator, InAlphabet, Blank;
    var t := StripSeparators(typed);
    assert code != [] by {
      if code == [] {
        BlankMeansAllSpaces(code);
      }
    }
    AlphabetCase(table, code[0], t[0]);
    assert t[0] in t;
    var j :| 0 <= j < |typed| && typed[j] == t[0];
    BlankMeansAllSpaces(typed);
  }

  lemma CanonicalSpelling(code: string)
    requires AllInAlphabet(code)
    ensures SpellingOf(code, code)
  {
    assert forall c :: c in code ==> !IsSeparator(c);
    StripNothing(code);
  }

  // ---------- peers ----------

  datatype PeerStatus = Active | Revoked | OtherPeerStatus(name: string)

  datatype PeerRecord = PeerRecord(
    nodeId: NodeId, networkId: NetworkId, role: Role, publicKeys: KeySet,
    status: PeerStatus, addedAt: Time, revokedAt: Option<Time>)
  {
    predicate IsActive() {
      status.Active? && revokedAt.None?
    }
  }

  predicate ValidPeerRecord(r: PeerRecord) {
    && !Blank(r.nodeId) && !Blank(r.networkId) && ValidRole(r.role) && ValidKeys(r.publicKeys)
    && (r.status.Active? || r.status.Revoked?)
    && r.addedAt != 0
    && (r.status.Revoked? ==> r.revokedAt.Some?)
  }

  /** What a node tells about itself when pairing. */
  datatype PublicPeer = PublicPeer(nodeId: NodeId, networkId: NetworkId, role: Role, publicKeys: KeySet)

  function CheckPublicPeer(p: Primitives, x: PublicPeer): Option<Error> {
    if Blank(x.nodeId) then Some(InvalidNodeId)
    else if Blank(x.networkId) then Some(InvalidNetworkId)
    else if !ValidRole(x.role) then Some(InvalidRole)
    else match DeriveNodeId(p, x.publicKeys)
      case Err(e) => Some(e)
      case Ok(id) => if id == x.nodeId then None else Some(InvalidMessage)
  }

  lemma PublicPeerIff(p: Primitives, x: PublicPeer)
    ensures CheckPublicPeer(p, x).None? <==>
              && !Blank(x.nodeId) && !Blank(x.networkId) && (x.role == Master || x.role == Worker)
              && ValidKeys(x.publicKeys) && DeriveNodeId(p, x.publicKeys) == Ok(x.nodeId)
  {
    hide Blank, Material, NodeIdOfDigest;
  }

  /** Node id, network, role and both keys agree; the status is not compared. */
  predicate SamePeer(r: PeerRecord, x: PublicPeer) {
    && r.nodeId == x.nodeId && r.networkId == x.networkId && r.role == x.role && r.publicKeys == x.publicKeys
  }

  function NewPeer(x: PublicPeer, now: Time): PeerRecord {
    PeerRecord(x.nodeId, x.networkId, x.role, x.publicKeys, Active, now, None)
  }

  // ---------- revocations ----------

  datatype RevocationRecord = RevocationRecord(
    nodeId: NodeId, role: Role, revokedAt: Time, revokedBy: NodeId, reason: string)

  predicate ValidRevocation(r: RevocationRecord) {
    !Blank(r.nodeId) && ValidRole(r.role) && r.revokedAt != 0 && !Blank(r.revokedBy)
  }

  datatype RevokeRequest = RevokeRequest(nodeId: NodeId, role: Role, revokedBy: NodeId, reason: string)

  function NewRevocation(r: RevokeRequest, now: Time): Result<RevocationRecord, Error> {
    var record := RevocationRecord(r.nodeId, r.role, now, r.revokedBy, r.reason);
    if ValidRevocation(record) then Ok(record) else Err(InvalidRecord)
  }

  /** Exactly when a revocation record is made, and that it says who was revoked, when, by whom and why. */
  lemma NewRevocationIff(r: RevokeRequest, now: Time, made: RevocationRecord)
    ensures NewRevocation(r, now) == Ok(made)
            <==>
            && !Blank(r.nodeId) && (r.role == Master || r.role == Worker) && now != 0 && !Blank(r.revokedBy)
            && made.nodeId == r.nodeId && made.role == r.role && made.revokedAt == now
            && made.revokedBy == r.revokedBy && made.reason == r.reason
  {
    hide Blank;
  }
}
