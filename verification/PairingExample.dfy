/** A join on concrete disks: it succeeds, can be stopped inside the peers section, and is then blocked. */
module PairingExample {
  import opened Wrappers
  import opened Text
  import opened Identity
  import opened Records
  import opened TlsIdentity
  import opened Messages
  import opened Pairing
  import opened PairingTheorems

  const PRIMITIVES := Primitives(x => x, (_, secret) => secret, c => c)
  const MASTER_KEYS := KeySet(Key(Ed25519, [1]), Key(X25519, [2]))
  const WORKER_KEYS := KeySet(Key(Ed25519, [3]), Key(X25519, [4]))
  const MASTER_ID := NodeIdOfDigest(Material(MASTER_KEYS))
  const WORKER_ID := NodeIdOfDigest(Material(WORKER_KEYS))
  const MASTER := PublicPeer(MASTER_ID, "net", Master, MASTER_KEYS)
  const METADATA := Metadata(METADATA_VERSION, MASTER_ID, "net", Master, MASTER_KEYS, 1)
  const CERTIFICATE := Certificate(Ed25519Key([1]), [Extension(METADATA_OID, Decoded(METADATA))], 0, 10)
  const INPUT := JoinInput(MASTER_ID, Worker, "AA", CERTIFICATE, WORKER_KEYS, WORKER_KEYS, 5, 5, 5, 5)
  const LOCAL := Identity(1, WORKER_ID, "net", Worker, WORKER_KEYS, WORKER_KEYS, 5)
  const EMPTY := WorkerDisk(None, None, [], false)
  const GRANTING: Exchange := r => Ok(AcceptedResponse(MASTER, r))

  lemma IdsFit()
    ensures DeriveNodeId(PRIMITIVES, MASTER_KEYS) == Ok(MASTER_ID) && !Blank(MASTER_ID)
    ensures DeriveNodeId(PRIMITIVES, WORKER_KEYS) == Ok(WORKER_ID) && !Blank(WORKER_ID)
    ensures !Blank("net")
  {
    hide Material;
    BlankMeansAllSpaces(MASTER_ID);
    BlankMeansAllSpaces(WORKER_ID);
    BlankMeansAllSpaces("net");
    assert !IsSpace(MASTER_ID[0]) && !IsSpace(WORKER_ID[0]) && !IsSpace("net"[0]);
  }

  lemma MasterPasses()
    ensures CheckMaster(PRIMITIVES, CERTIFICATE, MASTER_ID, 5) == Ok(METADATA)
    ensures CheckPublicPeer(PRIMITIVES, MASTER).None?
  {
    hide Blank, DeriveNodeId, NodeIdOfDigest, Material;
    IdsFit();
    assert FirstMetadata(CERTIFICATE.extensions) == Decoded(METADATA);
  }

  lemma IdentityIsMade()
    ensures GenerateIdentity(PRIMITIVES, "net", Worker, WORKER_KEYS, WORKER_KEYS, 5) == Ok(LOCAL)
  {
    hide Blank, DeriveNodeId, NodeIdOfDigest, Material;
    IdsFit();
  }

  lemma ExampleNegotiates()
    ensures Negotiate(PRIMITIVES, EMPTY, INPUT, GRANTING)
         == Ok((LOCAL, true, AcceptedResponse(MASTER, RequestOf(LOCAL, INPUT))))
  {
    hide Blank, GenerateIdentity, CheckMaster, CheckPublicPeer, NodeIdOfDigest, Material;
    IdsFit();
    MasterPasses();
    IdentityIsMade();
  }

  lemma ExampleJoins()
    ensures Join(PRIMITIVES, EMPTY, INPUT, GRANTING).Ok?
  {
    hide Blank, Negotiate, CheckPublicPeer, DeriveNodeId, NodeIdOfDigest, Material;
    IdsFit();
    MasterPasses();
    ExampleNegotiates();
    assert ValidIdentity(LOCAL);
    assert ValidPeerRecord(NewPeer(MASTER, 5));
  }

  /**
   * From the empty root the join succeeds. Killed between taking the peers lock and saving the master
   * (stop 3), it leaves a disk on which the same join, though granted again, answers that the lock is
   * held; killed just before or after, it can be repeated.
   */
  lemma BlockedJoinExample()
    ensures Join(PRIMITIVES, EMPTY, INPUT, GRANTING).Ok?
    ensures |JoinStops(PRIMITIVES, EMPTY, INPUT, GRANTING)| == 6
    ensures forall k :: 0 <= k < 6 ==>
              var resumed := Join(PRIMITIVES, JoinStops(PRIMITIVES, EMPTY, INPUT, GRANTING)[k], INPUT, GRANTING);
              if k == 3 then resumed == Err(LockHeld) else resumed.Ok?
  {
    hide Join, JoinStops, Negotiate, CheckMaster, NodeIdOfDigest, Material, GenerateIdentity, NextRequest, NotBlocked;
    ExampleJoins();
    ExampleNegotiates();
    MasterPasses();
    IdentityIsMade();
    SomeStopIsBlocked(PRIMITIVES, EMPTY, INPUT, GRANTING);
    forall k: nat | k < 6
      ensures var s := JoinStops(PRIMITIVES, EMPTY, INPUT, GRANTING)[k];
              var resumed := Join(PRIMITIVES, s, INPUT, GRANTING);
              && (resumed.Ok? <==> NotBlocked(s, MASTER_ID))
              && (resumed.Err? ==> resumed == Err(LockHeld))
    {
      StoppedJoinResumes(PRIMITIVES, EMPTY, INPUT, GRANTING, k, INPUT, GRANTING, MASTER);
    }
  }
}
