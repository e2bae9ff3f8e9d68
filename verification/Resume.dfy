/** What `resume_case` does to the artifact references, and when sealing again afterwards conflicts. */
module Resume {
  import opened Results
  import opened Reducers

  /** The references a resume keeps: all but those with the interrupt's digest. */
  function Kept(refs: seq<ArtifactRef>, digest: string): seq<ArtifactRef> {
    if refs == [] then []
    else if refs[0].contentDigest == digest then Kept(refs[1..], digest)
    else [refs[0]] + Kept(refs[1..], digest)
  }

  lemma {:induction false} KeptMeaning(refs: seq<ArtifactRef>, digest: string)
    ensures forall x :: x in Elems(Kept(refs, digest)) <==> x in Elems(refs) && x.contentDigest != digest
  {
    if refs != [] {
      KeptMeaning(refs[1..], digest);
      assert refs == [refs[0]] + refs[1..];
      ElemsConcat([refs[0]], refs[1..]);
      ElemsConcat([refs[0]], Kept(refs[1..], digest));
    }
  }

  /** Sealing `r` conflicts exactly with a reference of its key and another digest. */
  lemma SealConflicts(refs: seq<ArtifactRef>, r: ArtifactRef)
    requires Consistent(Elems(refs))
    ensures Merge(refs, [r]).Ok? <==> forall x :: x in Elems(refs) && KeyOf(x) == KeyOf(r) ==> x.contentDigest == r.contentDigest
  {
    MergeMeaning(refs, [r]);
    assert Elems([r]) == {r};
    if Merge(refs, [r]).Ok? {
      assert Consistent(Elems(refs) + {r});
    }
  }

  lemma KeptConsistent(refs: seq<ArtifactRef>, digest: string)
    requires Normal(refs)
    ensures Consistent(Elems(refs)) && Consistent(Elems(Kept(refs, digest)))
  {
    NormalConsistent(refs);
    KeptMeaning(refs, digest);
    ConsistentSubset(Elems(Kept(refs, digest)), Elems(refs));
  }

  /**
   * Restarting: the halted node seals under its old id again, with any digest, exactly because its stale
   * reference is gone; under any other id on file it still conflicts unless the digest is the same.
   */
  lemma RestartedSeal(refs: seq<ArtifactRef>, stale: ArtifactRef, r: ArtifactRef)
    requires Normal(refs) && stale in Elems(refs)
    ensures Merge(Kept(refs, stale.contentDigest), [r]).Ok? <==>
            forall x :: x in Elems(refs) && KeyOf(x) == KeyOf(r) ==> x.contentDigest == stale.contentDigest || x.contentDigest == r.contentDigest
    ensures KeyOf(r) == KeyOf(stale) ==> Merge(Kept(refs, stale.contentDigest), [r]).Ok?
  {
    KeptConsistent(refs, stale.contentDigest);
    KeptMeaning(refs, stale.contentDigest);
    SealConflicts(Kept(refs, stale.contentDigest), r);
    if KeyOf(r) == KeyOf(stale) {
      forall x | x in Elems(refs) && KeyOf(x) == KeyOf(r) ensures x.contentDigest == stale.contentDigest {
        assert Consistent(Elems(refs));
      }
    }
  }

  /**
   * On a checkpoint the kept references are merged into the full list, which drops nothing: sealing again
   * under the stale id then conflicts exactly when the content changed.
   */
  lemma CheckpointedSeal(refs: seq<ArtifactRef>, stale: ArtifactRef, r: ArtifactRef)
    requires Normal(refs) && stale in Elems(refs) && KeyOf(r) == KeyOf(stale)
    ensures Merge(refs, Kept(refs, stale.contentDigest)) == Ok(refs)
    ensures Merge(refs, [r]).Ok? <==> r.contentDigest == stale.contentDigest
  {
    KeptConsistent(refs, stale.contentDigest);
    KeptMeaning(refs, stale.contentDigest);
    MergedBack(refs, Kept(refs, stale.contentDigest));
    SealConflicts(refs, r);
  }

  /** Concretely: with changed content the halted node seals again after a restart, and not on a checkpoint. */
  lemma ResealedOnCheckpoint(stale: ArtifactRef, r: ArtifactRef)
    requires KeyOf(r) == KeyOf(stale) && r.contentDigest != stale.contentDigest
    ensures Merge(Kept([stale], stale.contentDigest), [r]).Ok?
    ensures Merge([stale], Kept([stale], stale.contentDigest)) == Ok([stale]) && Merge([stale], [r]) == Raised
  {
    assert stale in Elems([stale]);
    RestartedSeal([stale], stale, r);
    CheckpointedSeal([stale], stale, r);
  }

  lemma MergedBack(refs: seq<ArtifactRef>, some: seq<ArtifactRef>)
    requires Normal(refs) && Elems(some) <= Elems(refs)
    ensures Merge(refs, some) == Ok(refs)
  {
    NormalConsistent(refs);
    MergeMeaning(refs, some);
    ListingUnique(refs);
    IndexMembers(some);
    NormalIndex(refs);
    assert Elems(refs) + Elems(some) == Elems(refs);
    assert Index(refs) + Index(some) == Index(refs);
  }
}
