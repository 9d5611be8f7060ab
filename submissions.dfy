/**
 * Onboarding submissions and the browser's local storage, where they are
 * kept as one list under the key "artistSubmissions".
 */
module Submissions {

  /** One stored onboarding submission; the image is kept by file name only. */
  datatype Submission = Submission(
    name: string,
    bio: string,
    category: seq<string>,
    languages: seq<string>,
    feeRange: string,
    location: string,
    profileImage: string)

  /** Every required field of the submission is filled in. */
  predicate WellFormed(s: Submission) {
    && s.name != ""
    && s.bio != ""
    && |s.category| > 0
    && |s.languages| > 0
    && s.feeRange != ""
    && s.location != ""
    && s.profileImage != ""
  }

  /** Local storage, with the stored list under each key already decoded. */
  type Storage = map<string, seq<Submission>>

  const SubmissionsKey: string := "artistSubmissions"

  /** The stored list; a missing key reads as the empty list. */
  function Stored(storage: Storage): (r: seq<Submission>)
    ensures SubmissionsKey !in storage ==> r == []
    ensures SubmissionsKey in storage ==> r == storage[SubmissionsKey]
  {
    if SubmissionsKey in storage then storage[SubmissionsKey] else []
  }

  /** Read the stored list, append `p`, and write the longer list back. */
  function Appended(storage: Storage, p: Submission): (r: Storage)
    ensures SubmissionsKey in r
    ensures r.Keys == storage.Keys + {SubmissionsKey}
    ensures forall k :: k in storage && k != SubmissionsKey ==> r[k] == storage[k]
  {
    storage[SubmissionsKey := Stored(storage) + [p]]
  }

  /**
   * After an append the stored list has grown by exactly one: the earlier
   * entries are unchanged and the last one is the appended submission.
   */
  lemma AppendedThenStored(storage: Storage, p: Submission)
    ensures Stored(Appended(storage, p)) == Stored(storage) + [p]
    ensures |Stored(Appended(storage, p))| == |Stored(storage)| + 1
    ensures Stored(Appended(storage, p))[|Stored(storage)|] == p
    ensures forall i :: 0 <= i < |Stored(storage)| ==> Stored(Appended(storage, p))[i] == Stored(storage)[i]
  {
  }

  /** On a storage without the key, an append stores the one-element list. */
  lemma AppendToMissingKey(storage: Storage, p: Submission)
    requires SubmissionsKey !in storage
    ensures Stored(storage) == []
    ensures Stored(Appended(storage, p)) == [p]
  {
  }

  /** Two appends keep the submissions in the order they were made. */
  lemma TwoAppendsInOrder(storage: Storage, p: Submission, q: Submission)
    ensures Stored(Appended(Appended(storage, p), q)) == Stored(storage) + [p, q]
  {
    AppendedThenStored(storage, p);
    AppendedThenStored(Appended(storage, p), q);
  }

  /** Appending well-formed submissions keeps a well-formed stored list well-formed. */
  lemma AppendKeepsWellFormed(storage: Storage, p: Submission)
    requires forall s :: s in Stored(storage) ==> WellFormed(s)
    requires WellFormed(p)
    ensures forall s :: s in Stored(Appended(storage, p)) ==> WellFormed(s)
  {
  }
}
