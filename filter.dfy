// The client's query engine: the visible subset of the collection under the
// current criteria (`applyFilter`), and the location choices offered by the
// location dropdown (`lokasiOptions`).

module FilterEngine {
  import opened Text
  import opened Reports

  /** The dropdown value meaning "any location" / "any category". */
  const Semua := "Semua"

  /** The filter state: free text `q`, location, date bounds `dari` and
      `sampai` ("" when unset), and category. */
  datatype Criteria = Criteria(q: string, lokasi: string, dari: string, sampai: string, kategori: string)

  /** The filter state the component starts with. */
  const DefaultCriteria := Criteria("", Semua, "", "", Semua)

  const DefaultLokasi: seq<string> := ["Gudang", "Produksi", "Kantor", "Lapangan"]
  const KategoriOptions: seq<string> := ["Operasional", "Peralatan", "Lingkungan", "Human Error"]

  /** The text the free-text search looks in. */
  function SearchText(item: Report): (r: string)
    ensures Includes(r, item.deskripsi) && Includes(r, item.lokasi) && Includes(r, item.kategori)
  {
    var r := item.deskripsi + " " + item.lokasi + " " + item.kategori;
    assert OccursAt(r, item.deskripsi, 0);
    assert OccursAt(r, item.lokasi, |item.deskripsi| + 1);
    assert OccursAt(r, item.kategori, |item.deskripsi| + |item.lokasi| + 2);
    r
  }

  /** The per-item test of `applyFilter`, one conjunct per early return. */
  predicate Matches(f: Criteria, item: Report)
    ensures f == DefaultCriteria ==> Matches(f, item)
    ensures Matches(f, item) && f.dari != "" ==> LexLeq(f.dari, item.tanggal)
    ensures Matches(f, item) && f.sampai != "" ==> LexLeq(item.tanggal, f.sampai)
  {
    LexLessTrichotomy(item.tanggal, f.dari);
    LexLessTrichotomy(item.tanggal, f.sampai);
    && (f.lokasi == Semua || item.lokasi == f.lokasi)
    && (f.kategori == Semua || item.kategori == f.kategori)
    && (f.q == "" || Includes(Lower(SearchText(item)), Lower(f.q)))
    && (f.dari == "" || !LexLess(item.tanggal, f.dari))
    && (f.sampai == "" || !LexLess(f.sampai, item.tanggal))
  }

  function Matcher(f: Criteria): Report -> bool
  {
    (item: Report) => Matches(f, item)
  }

  /** `applyFilter(items)`: the items the criteria accept, in their order. */
  function ApplyFilter(items: seq<Report>, f: Criteria): (r: seq<Report>)
    ensures IsSubsequence(r, items)
    ensures forall x :: x in r <==> x in items && Matches(f, x)
    ensures forall x :: Count(r, x) == if Matches(f, x) then Count(items, x) else 0
  {
    Filter(items, Matcher(f))
  }

  /** The initial criteria show the whole collection. */
  lemma DefaultCriteriaShowAll(items: seq<Report>)
    ensures ApplyFilter(items, DefaultCriteria) == items
  {
    FilterKeepsAll(items, Matcher(DefaultCriteria));
  }

  /** Applying the same criteria to the visible list changes nothing. */
  lemma ApplyFilterIdempotent(items: seq<Report>, f: Criteria)
    ensures ApplyFilter(ApplyFilter(items, f), f) == ApplyFilter(items, f)
  {
    FilterIdempotent(items, Matcher(f));
  }

  /** Filtering distributes over concatenation, so the visible list after an
      import is the visible part of the imported array followed by the
      visible part of the old collection. */
  lemma ApplyFilterAppend(a: seq<Report>, b: seq<Report>, f: Criteria)
    ensures ApplyFilter(a + b, f) == ApplyFilter(a, f) + ApplyFilter(b, f)
  {
    FilterAppend(a, b, Matcher(f));
  }

  /** String `<=` as JavaScript's `!(b < a)` reads it. */
  predicate LexLeq(a: string, b: string)
  {
    a == b || LexLess(a, b)
  }

  /** The two date tests keep exactly the items dated inside the closed
      window from `dari` to `sampai`. */
  lemma DateBoundsAreWindow(f: Criteria, item: Report)
    ensures (f.dari == "" || !LexLess(item.tanggal, f.dari)) <==> (f.dari == "" || LexLeq(f.dari, item.tanggal))
    ensures (f.sampai == "" || !LexLess(f.sampai, item.tanggal)) <==> (f.sampai == "" || LexLeq(item.tanggal, f.sampai))
  {
    LexLessTrichotomy(item.tanggal, f.dari);
    LexLessTrichotomy(item.tanggal, f.sampai);
    LexLessIrreflexive(item.tanggal);
  }

  /** The free-text search ignores the case of the query. */
  lemma SearchIgnoresQueryCase(f: Criteria, item: Report)
    ensures Matches(f, item) == Matches(f.(q := Lower(f.q)), item)
  {
    LowerIdempotent(f.q);
  }

  // ----- location choices -----

  /** No element of `s` occurs twice. */
  ghost predicate NoDuplicates(s: seq<string>)
  {
    forall i, j :: 0 <= i < j < |s| ==> s[i] != s[j]
  }

  /** Index of the first occurrence of `x` in `s`. */
  function FirstIndex(s: seq<string>, x: string): (k: nat)
    requires x in s
    ensures k < |s| && s[k] == x && x !in s[..k]
  {
    if s[0] == x then 0 else FirstIndex(s[1..], x) + 1
  }

  /** `Array.from(new Set(s))`: the distinct elements of `s` in the order in
      which they first occur. */
  function Dedup(s: seq<string>): (r: seq<string>)
    ensures forall x :: x in r <==> x in s
    ensures NoDuplicates(r)
  {
    if s == [] then []
    else
      var p := Dedup(s[..|s| - 1]);
      var x := s[|s| - 1];
      assert s == s[..|s| - 1] + [x];
      if x in p then p else p + [x]
  }

  lemma {:induction false} FirstIndexOfPrefix(s: seq<string>, n: nat, x: string)
    requires n <= |s| && x in s[..n]
    ensures FirstIndex(s, x) == FirstIndex(s[..n], x)
  {
    if s[0] != x {
      assert s[1..][..n - 1] == s[..n][1..];
      FirstIndexOfPrefix(s[1..], n - 1, x);
    }
  }

  /** The options come out in first-occurrence order. */
  lemma {:induction false} DedupFirstOccurrenceOrder(s: seq<string>)
    ensures forall i, j :: 0 <= i < j < |Dedup(s)| ==> FirstIndex(s, Dedup(s)[i]) < FirstIndex(s, Dedup(s)[j])
    decreases |s|
  {
    if s != [] {
      var q := s[..|s| - 1];
      var x := s[|s| - 1];
      var p := Dedup(q);
      DedupFirstOccurrenceOrder(q);
      forall y | y in p
        ensures FirstIndex(s, y) == FirstIndex(q, y) && FirstIndex(s, y) < |s| - 1
      {
        FirstIndexOfPrefix(s, |s| - 1, y);
      }
      if x !in p {
        assert x !in q;
        forall j | 0 <= j < |s| - 1
          ensures s[j] != x
        {
          assert s[j] == q[j];
        }
        assert FirstIndex(s, x) == |s| - 1;
      }
    }
  }

  /** A prefix of the input deduplicates to a prefix of the result. */
  lemma {:induction false} DedupPrefix(a: seq<string>, b: seq<string>)
    ensures Dedup(a) <= Dedup(a + b)
    decreases |b|
  {
    if b == [] {
      assert a + b == a;
    } else {
      var b' := b[..|b| - 1];
      assert (a + b)[..|a + b| - 1] == a + b';
      DedupPrefix(a, b');
    }
  }

  /** A list without repetitions deduplicates to itself. */
  lemma {:induction false} DedupDistinct(s: seq<string>)
    requires NoDuplicates(s)
    ensures Dedup(s) == s
    decreases |s|
  {
    if s != [] {
      var q := s[..|s| - 1];
      assert NoDuplicates(q);
      DedupDistinct(q);
    }
  }

  /** `laporan.map((x) => x.lokasi)` */
  function Lokasis(items: seq<Report>): (r: seq<string>)
    ensures |r| == |items|
    ensures forall i :: 0 <= i < |items| ==> r[i] == items[i].lokasi
  {
    if items == [] then [] else [items[0].lokasi] + Lokasis(items[1..])
  }

  /** `lokasiOptions`: the four default locations, then every location used
      by a report, each once. */
  function LokasiOptions(laporan: seq<Report>): (r: seq<string>)
    ensures NoDuplicates(r)
    ensures forall x :: x in r <==> x in DefaultLokasi || exists i :: 0 <= i < |laporan| && laporan[i].lokasi == x
  {
    LokasisMembers(laporan);
    Dedup(DefaultLokasi + Lokasis(laporan))
  }

  /** The options start with the four defaults, in their declared order. */
  lemma LokasiOptionsStartWithDefaults(laporan: seq<Report>)
    ensures |LokasiOptions(laporan)| >= 4 && LokasiOptions(laporan)[..4] == DefaultLokasi
  {
    DedupPrefix(DefaultLokasi, Lokasis(laporan));
    DedupDistinct(DefaultLokasi);
  }

  /** The options are listed in the order in which each first occurs among
      the defaults followed by the reports' locations. */
  lemma LokasiOptionsFirstOccurrenceOrder(laporan: seq<Report>)
    ensures forall i, j :: 0 <= i < j < |LokasiOptions(laporan)| ==>
      FirstIndex(DefaultLokasi + Lokasis(laporan), LokasiOptions(laporan)[i])
        < FirstIndex(DefaultLokasi + Lokasis(laporan), LokasiOptions(laporan)[j])
  {
    DedupFirstOccurrenceOrder(DefaultLokasi + Lokasis(laporan));
  }

  lemma LokasisMembers(items: seq<Report>)
    ensures forall x :: x in Lokasis(items) <==> exists i :: 0 <= i < |items| && items[i].lokasi == x
  {
    forall x | x in Lokasis(items)
      ensures exists i :: 0 <= i < |items| && items[i].lokasi == x
    {
      var i :| 0 <= i < |Lokasis(items)| && Lokasis(items)[i] == x;
      assert items[i].lokasi == x;
    }
  }

  // ----- a worked scenario -----

  const Spill := Report("1", "2024-01-01", "Gudang", "Operasional", "Spill", "Rendah", None, false, "")

  /** One report in "Gudang": filtering on "Gudang" shows it, filtering on
      "Kantor" shows nothing. */
  lemma LocationScenario()
    ensures ApplyFilter([Spill], DefaultCriteria.(lokasi := "Gudang")) == [Spill]
    ensures ApplyFilter([Spill], DefaultCriteria.(lokasi := "Kantor")) == []
  {
    assert Matches(DefaultCriteria.(lokasi := "Gudang"), Spill);
    assert !Matches(DefaultCriteria.(lokasi := "Kantor"), Spill);
  }
}
