/** From sealing through any upload run to recovery. */
module EndToEnd {
  import opened Wrappers
  import Archive
  import ArchiveChecks
  import UploadIntent
  import opened UploadProtocol
  import opened UploadPreservation
  import opened UploadSafety
  import UploadRecoverable
  import Seal
  import opened SealTheorems
  import opened Retrieval

  /** The upload works on a sealed package with the hash and serialisers of the archive side. */
  ghost predicate Uploads(su: UploadIntent.Setup, pr: Archive.Codecs, x: Seal.Request, env: Seal.Surroundings)
    requires Seal.Sealable(pr, x)
  {
    su.record == Seal.RecordOf(pr, x, env) && su.prims.sha256 == pr.sha256
    && (forall c :: su.prims.encodeCompletion(c) == pr.dumpJson(CompletionJson(c)))
    && (forall r :: su.prims.encodeReceipt(r) == pr.dumpJson(ReceiptJson(r)))
  }

  /** Every landed version can be downloaded by its id, and reads back as it was written. */
  ghost predicate Serves(st: Store, remote: Remote) {
    forall i :: i in st.landed ==> remote(st.landed[i].id) == Some(st.landed[i].content)
  }

  /** The receipt and its marker read back as what was written, and the marker is downloadable. */
  predicate Readable(pr: Archive.Codecs, r: UploadIntent.Receipt) {
    pr.parseJson(pr.dumpJson(ReceiptJson(r))) == Some(ReceiptJson(r))
    && pr.parseJson(pr.dumpJson(CompletionJson(r.completion))) == Some(CompletionJson(r.completion))
    && |pr.dumpJson(CompletionJson(r.completion))| <= Archive.MAX_BYTES
  }

  lemma ReceiptDescribes(r: UploadIntent.Receipt)
    ensures Describes(ReceiptJson(r), r.completion.record)
  {
    RecordGets(r.completion.record);
    RecordGetsRelease(r.completion.record);
    ReceiptKeepsRecord(r, "source_machine_id");
    ReceiptKeepsRecord(r, "ciphertext_sha256");
    ReceiptKeepsRecord(r, "package_id");
    ReceiptKeepsRecord(r, "manifest_sha256");
    ReceiptKeepsRecord(r, "release_sha256");
    ReceiptKeepsRecord(r, "snapshot_sha256");
    ReceiptKeepsRecord(r, "commit");
    ReceiptKeepsRecord(r, "bundle");
    ReceiptKeepsRecord(r, "configuration_included");
    ReceiptKeepsRecord(r, "evidence_count");
  }

  /** In every run, what a published receipt promises is what the remote side serves. */
  lemma PublishedIsRedeemable(su: UploadIntent.Setup, w: World, pr: Archive.Codecs, x: Seal.Request,
                              env: Seal.Surroundings, remote: Remote)
    requires Reachable(su, w) && w.store.visible.receipt.Some?
    requires Seal.SealAccepts(pr, x, env) && Uploads(su, pr, x, env) && CollisionFree(pr.sha256)
    requires Serves(w.store, remote)
    requires Readable(pr, w.store.visible.receipt.value)
    ensures var r := w.store.visible.receipt.value;
            Redeemable(pr, r, remote) && r.completion.record == su.record
            && remote(r.completion.ciphertextFileId) == Some(Seal.Sealed(pr, x, env))
  {
    var i, j := ReceiptNamesSealedObjects(su, w, Seal.Sealed(pr, x, env));
    var r := w.store.visible.receipt.value;
    assert remote(w.store.landed[i].id) == Some(w.store.landed[i].content);
    assert remote(w.store.landed[j].id) == Some(w.store.landed[j].content);
  }

  /** The operation's objects lie below the destination it was started with. */
  lemma PublishedDestinationIsOwn(su: UploadIntent.Setup, w: World)
    requires Reachable(su, w) && w.store.visible.receipt.Some?
    ensures w.store.visible.intent.Some?
    ensures var d := UploadIntent.DestinationOf(w.store.visible.intent.value);
            var c := w.store.visible.receipt.value.completion;
            c.bucketId == d.bucket && d.prefix <= c.objectName
  {
    ReachableSound(su, w);
  }

  lemma PackageIdOfRecord(pr: Archive.Codecs, x: Seal.Request, env: Seal.Surroundings)
    requires Seal.Sealable(pr, x) && Archive.LowerHex(env.suffix, 32)
    ensures UploadIntent.SafeName(Seal.RecordOf(pr, x, env).packageId)
  {
    PackageIdSafe(x.bundleName, env.suffix);
  }

  /** What `seal` accepted passes the checks of `upload`, and some run publishes its receipt. */
  lemma SealedPackageUploads(su: UploadIntent.Setup, pr: Archive.Codecs, x: Seal.Request, env: Seal.Surroundings)
      returns (w: World)
    requires Seal.SealAccepts(pr, x, env) && Uploads(su, pr, x, env) && Archive.LowerHex(env.suffix, 32)
    ensures UploadIntent.PackageCheck(su, Seal.Sealed(pr, x, env)).Ok?
    ensures Reachable(su, w) && w.store.visible.receipt.Some?
  {
    var sealed := Seal.Sealed(pr, x, env);
    PackageIdOfRecord(pr, x, env);
    var w0 := Init(sealed);
    assert Run(su, [w0]) && [w0][0] == w0;
    assert Leads(su, w0, w0);
    assert Reachable(su, w0);
    w := UploadRecoverable.CompletableReachesReceipt(su, w0, sealed);
  }

  lemma RedeemsAt(pr: Archive.Codecs, r: UploadIntent.Receipt, receipt: Bytes, d: UploadIntent.Destination,
                  remote: Remote, occupied: set<string>)
    requires Readable(pr, r) && receipt == pr.dumpJson(ReceiptJson(r)) && Redeemable(pr, r, remote)
    requires Archive.LowerHex(pr.sha256(receipt), 64) && UploadIntent.SafeName(r.completion.record.packageId)
    requires r.completion.bucketId == d.bucket && d.prefix <= r.completion.objectName
    ensures RetrieveAccepts(pr, receipt, pr.sha256(receipt), d.bucket, d.prefix, remote, occupied)
            <==> r.completion.record.packageId !in occupied
    ensures pr.dumpJson(pr.parseJson(receipt).value) == receipt
  {
    PublishedReceiptRetrieves(pr, r, receipt, d.bucket, d.prefix, remote, occupied);
  }

  /** What any retrieved package of a published receipt consists of. */
  lemma RetrievedPackage(su: UploadIntent.Setup, w: World, pr: Archive.Codecs, x: Seal.Request, env: Seal.Surroundings,
                         files: map<string, Bytes>)
    requires Reachable(su, w) && w.store.visible.receipt.Some?
    requires Seal.SealAccepts(pr, x, env) && Uploads(su, pr, x, env) && CollisionFree(pr.sha256)
    requires Readable(pr, w.store.visible.receipt.value)
    requires Holds(pr, su.prims.encodeReceipt(w.store.visible.receipt.value), files)
    ensures files["receipt.json"] == su.prims.encodeReceipt(w.store.visible.receipt.value)
    ensures files["recovery.tar.gz.age"] == Seal.Sealed(pr, x, env)
    ensures files["complete.json"] == su.prims.encodeCompletion(w.store.visible.receipt.value.completion)
  {
    var r := w.store.visible.receipt.value;
    var i, j := ReceiptNamesSealedObjects(su, w, Seal.Sealed(pr, x, env));
    ReceiptGets(r);
    RecordGets(r.completion.record);
    ReceiptKeepsRecord(r, "ciphertext_sha256");
  }

  /** The receipt retrieves for its own destination, into any free directory. */
  lemma PublishedIsAccepted(su: UploadIntent.Setup, w: World, pr: Archive.Codecs, x: Seal.Request,
                            env: Seal.Surroundings, remote: Remote, occupied: set<string>)
    requires Reachable(su, w) && w.store.visible.receipt.Some?
    requires Seal.SealAccepts(pr, x, env) && Uploads(su, pr, x, env)
    requires Archive.LowerHex(env.suffix, 32)
    requires CollisionFree(pr.sha256)
    requires Archive.LowerHex(pr.sha256(su.prims.encodeReceipt(w.store.visible.receipt.value)), 64)
    requires Serves(w.store, remote) && Readable(pr, w.store.visible.receipt.value)
    ensures w.store.visible.intent.Some?
    ensures var r := w.store.visible.receipt.value;
            var d, receipt := UploadIntent.DestinationOf(w.store.visible.intent.value), su.prims.encodeReceipt(r);
            RetrieveAccepts(pr, receipt, pr.sha256(receipt), d.bucket, d.prefix, remote, occupied)
            <==> su.record.packageId !in occupied
  {
    var r := w.store.visible.receipt.value;
    PublishedIsRedeemable(su, w, pr, x, env, remote);
    PublishedDestinationIsOwn(su, w);
    var d := UploadIntent.DestinationOf(w.store.visible.intent.value);
    PackageIdOfRecord(pr, x, env);
    RedeemsAt(pr, r, su.prims.encodeReceipt(r), d, remote, occupied);
  }

  lemma RetrievedPackages(su: UploadIntent.Setup, w: World, pr: Archive.Codecs, x: Seal.Request,
                          env: Seal.Surroundings)
    requires Reachable(su, w) && w.store.visible.receipt.Some?
    requires Seal.SealAccepts(pr, x, env) && Uploads(su, pr, x, env) && CollisionFree(pr.sha256)
    requires Readable(pr, w.store.visible.receipt.value)
    ensures var r := w.store.visible.receipt.value;
            forall files :: Holds(pr, su.prims.encodeReceipt(r), files) ==>
              files["recovery.tar.gz.age"] == Seal.Sealed(pr, x, env)
              && files["complete.json"] == su.prims.encodeCompletion(r.completion)
              && files["receipt.json"] == su.prims.encodeReceipt(r)
  {
    var r := w.store.visible.receipt.value;
    forall files | Holds(pr, su.prims.encodeReceipt(r), files)
      ensures files["recovery.tar.gz.age"] == Seal.Sealed(pr, x, env)
              && files["complete.json"] == su.prims.encodeCompletion(r.completion)
              && files["receipt.json"] == su.prims.encodeReceipt(r)
    {
      RetrievedPackage(su, w, pr, x, env, files);
    }
  }

  /**
   * Whatever crashes, retries and delays an upload run went through, once a receipt exists it retrieves under its
   * own hash, and the package it leaves is the sealed ciphertext, the completion marker and the receipt byte for
   * byte as published, each under its own name.
   */
  lemma PublishedReceiptRedeems(su: UploadIntent.Setup, w: World, pr: Archive.Codecs, x: Seal.Request,
                                env: Seal.Surroundings, remote: Remote, occupied: set<string>)
    requires Reachable(su, w) && w.store.visible.receipt.Some?
    requires Seal.SealAccepts(pr, x, env) && Uploads(su, pr, x, env)
    requires Archive.LowerHex(env.suffix, 32)
    requires CollisionFree(pr.sha256)
    requires Archive.LowerHex(pr.sha256(su.prims.encodeReceipt(w.store.visible.receipt.value)), 64)
    requires Serves(w.store, remote) && Readable(pr, w.store.visible.receipt.value)
    ensures w.store.visible.intent.Some?
    ensures var r := w.store.visible.receipt.value;
            var d, receipt := UploadIntent.DestinationOf(w.store.visible.intent.value), su.prims.encodeReceipt(r);
            (RetrieveAccepts(pr, receipt, pr.sha256(receipt), d.bucket, d.prefix, remote, occupied)
             <==> su.record.packageId !in occupied)
            && forall files :: Holds(pr, receipt, files) ==>
                 files["recovery.tar.gz.age"] == Seal.Sealed(pr, x, env)
                 && files["complete.json"] == su.prims.encodeCompletion(r.completion)
                 && files["receipt.json"] == receipt
  {
    PublishedIsAccepted(su, w, pr, x, env, remote, occupied);
    RetrievedPackages(su, w, pr, x, env);
  }

  /**
   * The whole path: decrypting what was retrieved, anywhere but on the source host, recovers exactly
   * the sealed files, if and only if the sources stayed intact while they were archived and the archive
   * fits the limits.
   */
  lemma PublishedReceiptRecovers(su: UploadIntent.Setup, w: World, pr: Archive.Codecs, x: Seal.Request,
                                 env: Seal.Surroundings, remote: Remote, machine: string, fs: Archive.Files)
    requires Reachable(su, w) && w.store.visible.receipt.Some?
    requires Seal.SealAccepts(pr, x, env) && Uploads(su, pr, x, env) && CodecsFaithful(pr, x, env)
    requires Archive.LowerHex(env.suffix, 32) && machine != env.machineId
    requires CollisionFree(pr.sha256)
    requires Archive.LowerHex(pr.sha256(su.prims.encodeReceipt(w.store.visible.receipt.value)), 64)
    requires Serves(w.store, remote) && Readable(pr, w.store.visible.receipt.value)
    ensures var r := w.store.visible.receipt.value;
            var receipt, ciphertext := su.prims.encodeReceipt(r), remote(r.completion.ciphertextFileId);
            ciphertext.Some?
            && (ArchiveChecks.DecryptRecovers(pr, machine, receipt, pr.sha256(receipt), ciphertext.value, false, fs)
                <==> Intact(x, env) && Fits(pr, x, env) && fs == SealedFiles(pr, x))
  {
    var r := w.store.visible.receipt.value;
    PublishedIsRedeemable(su, w, pr, x, env, remote);
    ReceiptDescribes(r);
    SealedPackageRecovers(pr, x, env, su.prims.encodeReceipt(r), machine, fs);
  }

  /**
   * The whole path through the retrieved directory: its own receipt anchors its own ciphertext, and decrypting
   * that, anywhere but on the source host, recovers exactly the sealed files, if and only if the sources stayed
   * intact while they were archived and the archive fits the limits.
   */
  lemma RetrievedPackageRecovers(su: UploadIntent.Setup, w: World, pr: Archive.Codecs, x: Seal.Request,
                                 env: Seal.Surroundings, files: map<string, Bytes>, machine: string, fs: Archive.Files)
    requires Reachable(su, w) && w.store.visible.receipt.Some?
    requires Seal.SealAccepts(pr, x, env) && Uploads(su, pr, x, env) && CodecsFaithful(pr, x, env)
    requires Archive.LowerHex(env.suffix, 32) && machine != env.machineId
    requires CollisionFree(pr.sha256)
    requires Archive.LowerHex(pr.sha256(su.prims.encodeReceipt(w.store.visible.receipt.value)), 64)
    requires Readable(pr, w.store.visible.receipt.value)
    requires Holds(pr, su.prims.encodeReceipt(w.store.visible.receipt.value), files)
    ensures ArchiveChecks.DecryptRecovers(pr, machine, files["receipt.json"], pr.sha256(files["receipt.json"]),
                                          files["recovery.tar.gz.age"], false, fs)
            <==> Intact(x, env) && Fits(pr, x, env) && fs == SealedFiles(pr, x)
  {
    var r := w.store.visible.receipt.value;
    RetrievedPackage(su, w, pr, x, env, files);
    var i, j := ReceiptNamesSealedObjects(su, w, Seal.Sealed(pr, x, env));
    ReceiptDescribes(r);
    SealedPackageRecovers(pr, x, env, su.prims.encodeReceipt(r), machine, fs);
  }
}
