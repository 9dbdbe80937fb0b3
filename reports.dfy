// The report record shared by the client and the server, and the list
// operations both of them build on.

module Reports {

  datatype Option<T> = None | Some(value: T)

  /** One near-miss report. Field names follow the stored JSON objects:
      date (`tanggal`, ISO day), location (`lokasi`), category (`kategori`),
      description (`deskripsi`), risk level (`risiko`), an optional inline
      photo (`fotoBase64`), the follow-up flag (`tindakLanjut`) and the
      creation timestamp (`createdAt`). An absent or falsy `id` is "". */
  datatype Report = Report(
    id: string,
    tanggal: string,
    lokasi: string,
    kategori: string,
    deskripsi: string,
    risiko: string,
    fotoBase64: Option<string>,
    tindakLanjut: bool,
    createdAt: string)

  /** `{ ...x, tindakLanjut: !x.tindakLanjut }` */
  function Flip(x: Report): (r: Report)
    ensures r.tindakLanjut == !x.tindakLanjut
    ensures r.(tindakLanjut := x.tindakLanjut) == x
  {
    x.(tindakLanjut := !x.tindakLanjut)
  }

  /** `r` is obtained from `s` by dropping some elements, keeping the order
      of the rest. */
  ghost predicate IsSubsequence(r: seq<Report>, s: seq<Report>)
    decreases |s|
  {
    if r == [] then true
    else if s == [] then false
    else (r[0] == s[0] && IsSubsequence(r[1..], s[1..])) || IsSubsequence(r, s[1..])
  }

  /** Number of occurrences of `x` in `s`. */
  function Count(s: seq<Report>, x: Report): nat
  {
    if s == [] then 0 else (if s[0] == x then 1 else 0) + Count(s[1..], x)
  }

  /** `s.filter(keep)`: an order-preserving subsequence holding exactly the
      elements `keep` accepts, each as often as it occurs in `s`. */
  function Filter(s: seq<Report>, keep: Report -> bool): (r: seq<Report>)
    ensures |r| <= |s|
    ensures forall x :: x in r <==> x in s && keep(x)
    ensures forall x :: Count(r, x) == if keep(x) then Count(s, x) else 0
    ensures IsSubsequence(r, s)
  {
    if s == [] then []
    else
      var rest := Filter(s[1..], keep);
      if keep(s[0]) then
        assert ([s[0]] + rest)[1..] == rest;
        [s[0]] + rest
      else
        assert rest == [] || IsSubsequence(rest, s[1..]);
        rest
  }

  lemma {:induction false} FilterAppend(a: seq<Report>, b: seq<Report>, keep: Report -> bool)
    ensures Filter(a + b, keep) == Filter(a, keep) + Filter(b, keep)
  {
    if a == [] {
      assert a + b == b;
    } else {
      assert (a + b)[1..] == a[1..] + b;
      FilterAppend(a[1..], b, keep);
    }
  }

  /** Filtering keeps everything when `keep` accepts every element. */
  lemma {:induction false} FilterKeepsAll(s: seq<Report>, keep: Report -> bool)
    requires forall x :: x in s ==> keep(x)
    ensures Filter(s, keep) == s
  {
    if s != [] {
      FilterKeepsAll(s[1..], keep);
    }
  }

  /** Filtering twice with the same test is filtering once. */
  lemma FilterIdempotent(s: seq<Report>, keep: Report -> bool)
    ensures Filter(Filter(s, keep), keep) == Filter(s, keep)
  {
    FilterKeepsAll(Filter(s, keep), keep);
  }

  /** The test `x => x.id !== id`. */
  function NotId(id: string): Report -> bool
  {
    (x: Report) => x.id != id
  }

  /** `s.filter(x => x.id !== id)`: used by the client's delete and by the
      server's DELETE handler alike. */
  function RemoveId(s: seq<Report>, id: string): (r: seq<Report>)
    ensures forall x :: x in r <==> x in s && x.id != id
    ensures forall x: Report :: x.id != id ==> Count(r, x) == Count(s, x)
    ensures IsSubsequence(r, s)
  {
    Filter(s, NotId(id))
  }

  /** Deleting an id no report carries changes nothing. */
  lemma RemoveAbsentId(s: seq<Report>, id: string)
    requires forall i :: 0 <= i < |s| ==> s[i].id != id
    ensures RemoveId(s, id) == s
  {
    FilterKeepsAll(s, NotId(id));
  }

  /** Deleting the same id twice is the same as deleting it once. */
  lemma RemoveIdIdempotent(s: seq<Report>, id: string)
    ensures RemoveId(RemoveId(s, id), id) == RemoveId(s, id)
  {
    FilterIdempotent(s, NotId(id));
  }

  /** No two reports share an id. */
  ghost predicate UniqueIds(s: seq<Report>)
  {
    forall i, j :: 0 <= i < j < |s| ==> s[i].id != s[j].id
  }

  /** Dropping reports keeps the ids apart. */
  lemma {:induction false} FilterKeepsUniqueIds(s: seq<Report>, keep: Report -> bool)
    requires UniqueIds(s)
    ensures UniqueIds(Filter(s, keep))
  {
    if s != [] {
      assert UniqueIds(s[1..]);
      FilterKeepsUniqueIds(s[1..], keep);
      var rest := Filter(s[1..], keep);
      forall x | x in rest
        ensures x.id != s[0].id
      {
        var k :| 0 <= k < |s[1..]| && s[1..][k] == x;
        assert s[k + 1] == x;
      }
    }
  }
}
