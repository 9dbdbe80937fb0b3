// How the client's collection and the server's document relate when the
// same operation is applied to both: where they agree and where they part.

module Mirror {
  import opened Reports
  import opened ClientApp
  import opened ServerStore

  /** With unique ids, the client's toggle of every match and the server's
      flip of the first match produce the same list. */
  lemma ToggleAgreesWhenIdsUnique(s: seq<Report>, id: string)
    requires UniqueIds(s)
    ensures ToggleAll(s, id) == FlipFirst(s, id)
  {
    forall i | 0 <= i < |s| && s[i].id == id
      ensures IsFirstWithId(s, i, id)
    {
      assert forall j :: 0 <= j < i ==> s[j].id != s[i].id;
    }
  }

  /** With two reports sharing an id (an import can bring this about), the
      client flips both and the server only the first: the two diverge. */
  lemma ToggleDivergesOnDuplicateId(s: seq<Report>, id: string, i: nat, j: nat)
    requires i < j < |s| && s[i].id == id && s[j].id == id
    ensures ToggleAll(s, id) != FlipFirst(s, id)
  {
    assert !IsFirstWithId(s, j, id);
    assert ToggleAll(s, id)[j] == Flip(s[j]) != s[j] == FlipFirst(s, id)[j];
  }

  /** The server keeps the id the client generated, so when the POST
      succeeds the client prepends the very record it would have kept
      locally had the POST failed. */
  lemma EchoedSubmissionIsLocalRecord(form: Form, id: string, createdAt: string, now: string)
    requires id != ""
    ensures Submission(form, id, createdAt, Ok(AssignId(NewReport(form, id, createdAt), now)))
         == Submission(form, id, createdAt, Fail)
  {
  }

  /** Submitting with an id no report has yet keeps the ids unique. */
  lemma SubmissionKeepsUniqueIds(s: seq<Report>, form: Form, id: string, createdAt: string)
    requires UniqueIds(s)
    requires forall i :: 0 <= i < |s| ==> s[i].id != id
    ensures Submission(form, id, createdAt, Fail).Some? ==> UniqueIds([Submission(form, id, createdAt, Fail).value] + s)
  {
  }

  /** Deleting keeps the ids unique, on the client and on the server alike. */
  lemma DeleteKeepsUniqueIds(s: seq<Report>, id: string)
    requires UniqueIds(s)
    ensures UniqueIds(RemoveId(s, id))
  {
    FilterKeepsUniqueIds(s, NotId(id));
  }

  /** Importing a collection's own export into it duplicates every id. */
  lemma ImportOfOwnExportDuplicatesIds(s: seq<Report>)
    requires s != []
    ensures !UniqueIds(s + s)
  {
    assert (s + s)[0].id == (s + s)[|s|].id;
  }
}
