/** Copying staged frames to their destination. */
module Delivery {
  import opened ChunkPlan

  type Name = string
  type Content = string
  type Files = map<Name, Content>

  /** What the file systems do during one attempt: whether the destination can be reached, which
      regular files the directory listing yields, which copies fail, and what is left of the staging
      directory if it is then removed. */
  datatype Attempt = Attempt(reachable: bool, listed: set<Name>, failing: set<Name>, leftover: set<Name>)

  function Only(files: Files, names: set<Name>): Files {
    map n | n in files && n in names :: files[n]
  }

  /** The destination after one attempt. Existing files are overwritten. */
  function Copied(staged: Files, dest: Files, a: Attempt): Files {
    if a.reachable then dest + Only(staged, a.listed - a.failing) else dest
  }

  /** Every listed file was copied. */
  predicate CopySucceeds(staged: Files, a: Attempt) {
    a.reachable && forall n | n in staged :: n in a.listed ==> n !in a.failing
  }

  function LeftStaged(staged: Files, a: Attempt): Files {
    if CopySucceeds(staged, a) then Only(staged, a.leftover) else staged
  }

  /** All these files are at the destination, as they are in staging. */
  ghost predicate Arrived(staged: Files, dest: Files, names: set<Name>) {
    forall n :: n in staged && n in names ==> n in dest && dest[n] == staged[n]
  }

  /** A successful attempt puts every file it listed on the destination. */
  lemma SuccessDelivers(staged: Files, dest: Files, a: Attempt)
    requires CopySucceeds(staged, a)
    ensures Arrived(staged, Copied(staged, dest, a), a.listed)
  {
  }

  /** So all staged files are there, whatever was there before, exactly when the listing named every
      one of them: a listing that comes back short - its error code is not looked at - passes for
      success. */
  lemma SuccessDeliversAllIff(staged: Files, a: Attempt)
    requires CopySucceeds(staged, a)
    ensures staged.Keys <= a.listed <==> forall dest :: Arrived(staged, Copied(staged, dest, a), staged.Keys)
  {
    if !(staged.Keys <= a.listed) {
      var n :| n in staged && n !in a.listed;
      var dest: Files := map[];
      assert n !in Copied(staged, dest, a);
      assert !Arrived(staged, Copied(staged, dest, a), staged.Keys);
    }
  }

  function AfterAttempts(staged: Files, dest: Files, attempts: seq<Attempt>): Files
    decreases |attempts|
  {
    if attempts == [] then dest else AfterAttempts(staged, Copied(staged, dest, attempts[0]), attempts[1..])
  }

  /** Retrying converges: whatever earlier attempts managed to copy, one success with a full listing
      leaves the destination as one clean copy would have. */
  lemma {:induction false} RetriesConverge(staged: Files, dest: Files, failed: seq<Attempt>, last: Attempt)
    requires CopySucceeds(staged, last) && staged.Keys <= last.listed
    ensures Copied(staged, AfterAttempts(staged, dest, failed), last) == dest + staged
    decreases |failed|
  {
    if failed == [] {
      assert Only(staged, last.listed - last.failing) == staged;
    } else {
      RetriesConverge(staged, Copied(staged, dest, failed[0]), failed[1..], last);
      assert Copied(staged, dest, failed[0]) + staged == dest + staged;
    }
  }

  /** The copy loop, in whatever order the directory is listed. */
  method CopyStagingFiles(staged: Files, dest: Files, a: Attempt) returns (ok: bool, copied: Files)
    ensures ok <==> CopySucceeds(staged, a)
    ensures copied == Copied(staged, dest, a)
  {
    copied := dest;
    if !a.reachable {
      return false, copied;
    }
    ok := true;
    var left := set n | n in staged && n in a.listed;
    ghost var done: set<Name> := {};
    while left != {}
      invariant forall n :: n in done || n in left <==> n in staged && n in a.listed
      invariant Partly(staged, dest, copied, done, a)
      invariant ok <==> forall n :: n in done ==> n !in a.failing
      decreases |left|
    {
      var name :| name in left;
      if name in a.failing {
        ok := false;
      } else {
        copied := copied[name := staged[name]];
      }
      left := left - {name};
      done := done + {name};
    }
    PartlyIsCopied(staged, dest, copied, done, a);
  }

  /** The destination once the files in `done` have been tried. */
  ghost predicate Partly(staged: Files, dest: Files, copied: Files, done: set<Name>, a: Attempt) {
    && (forall n :: n in copied <==> n in dest || (n in done && n !in a.failing))
    && (forall n :: n in copied && n in done && n !in a.failing ==> n in staged && copied[n] == staged[n])
    && (forall n :: n in copied && !(n in done && n !in a.failing) ==> n in dest && copied[n] == dest[n])
  }

  lemma PartlyIsCopied(staged: Files, dest: Files, copied: Files, done: set<Name>, a: Attempt)
    requires a.reachable && Partly(staged, dest, copied, done, a)
    requires forall n :: n in done <==> n in staged && n in a.listed
    ensures copied == Copied(staged, dest, a)
  {
  }
}
