/** The `/shonklib` archive logic: collecting the stored files, sorting them
    by size, packing them first-fit into parts of at most 8 MiB (a single
    larger file gets a part of its own), and counting the stored photos. */
module Archive {

  /** The part size limit of src/main.py:285. */
  const PART_CAP: int := 8 * 1024 * 1024

  /** A stored file and its size in bytes (`os.path.getsize`). */
  datatype FileEntry = FileEntry(path: string, size: nat)

  /** One zip part: its files, in the order they were added, and the size
      recorded for it. The source records only the paths; each file keeps its
      size here so that the recorded size can be related to the files. */
  datatype Partition = Partition(files: seq<FileEntry>, size: int)

  /** One step of `os.walk('storage')`: a directory and the names of the
      files directly in it. */
  datatype WalkDir = WalkDir(root: string, filenames: seq<string>)

  // ---------------------------------------------------------------------
  // Sorting (src/main.py:278)
  // ---------------------------------------------------------------------

  ghost predicate SortedDesc(s: seq<FileEntry>) {
    forall i, j | 0 <= i < j < |s| :: s[i].size >= s[j].size
  }

  /** The files of `s` whose size is `k`, in the order of `s`. */
  function WithSize(s: seq<FileEntry>, k: nat): seq<FileEntry> {
    if s == [] then []
    else (if s[0].size == k then [s[0]] else []) + WithSize(s[1..], k)
  }

  /** Inserts `f` in front of the first file that is not larger. */
  function Insert(f: FileEntry, s: seq<FileEntry>): seq<FileEntry> {
    if s == [] then [f]
    else if f.size >= s[0].size then [f] + s
    else [s[0]] + Insert(f, s[1..])
  }

  lemma {:induction false} InsertPermutes(f: FileEntry, s: seq<FileEntry>)
    ensures multiset(Insert(f, s)) == multiset(s) + multiset{f}
  {
    if s != [] && f.size < s[0].size {
      InsertPermutes(f, s[1..]);
      assert s == [s[0]] + s[1..];
    }
  }

  lemma {:induction false} InsertSorted(f: FileEntry, s: seq<FileEntry>)
    requires SortedDesc(s)
    ensures SortedDesc(Insert(f, s))
  {
    if s != [] && f.size < s[0].size {
      var rest := Insert(f, s[1..]);
      InsertSorted(f, s[1..]);
      InsertPermutes(f, s[1..]);
      var r := [s[0]] + rest;
      forall j | 1 <= j < |r| ensures s[0].size >= r[j].size {
        assert r[j] in multiset(rest);
        assert r[j] == f || r[j] in multiset(s[1..]);
      }
    }
  }

  /** `files.sort(key=lambda x: x[1], reverse=True)`: Python's sort is
      stable, also with `reverse=True`, so files of equal size keep their
      input order. */
  function SortBySizeDesc(s: seq<FileEntry>): seq<FileEntry> {
    if s == [] then [] else Insert(s[0], SortBySizeDesc(s[1..]))
  }

  /** The sort returns the same files, largest first. */
  lemma {:induction false} SortIsOrderedPermutation(s: seq<FileEntry>)
    ensures |SortBySizeDesc(s)| == |s| && multiset(SortBySizeDesc(s)) == multiset(s)
    ensures SortedDesc(SortBySizeDesc(s))
  {
    if s != [] {
      var rest := SortBySizeDesc(s[1..]);
      SortIsOrderedPermutation(s[1..]);
      InsertPermutes(s[0], rest);
      InsertSorted(s[0], rest);
      assert s == [s[0]] + s[1..];
      assert |multiset(Insert(s[0], rest))| == |multiset(s)|;
    }
  }

  lemma WithSizeCons(x: FileEntry, s: seq<FileEntry>, k: nat)
    ensures WithSize([x] + s, k) == (if x.size == k then [x] else []) + WithSize(s, k)
  {
    assert ([x] + s)[1..] == s;
  }

  lemma {:induction false} InsertStable(f: FileEntry, s: seq<FileEntry>, k: nat)
    ensures WithSize(Insert(f, s), k) == (if f.size == k then [f] else []) + WithSize(s, k)
  {
    if s == [] {
      WithSizeCons(f, [], k);
    } else if f.size >= s[0].size {
      WithSizeCons(f, s, k);
    } else {
      var rest := Insert(f, s[1..]);
      var tail := WithSize(s[1..], k);
      WithSizeCons(s[0], rest, k);
      WithSizeCons(s[0], s[1..], k);
      assert s == [s[0]] + s[1..];
      InsertStable(f, s[1..], k);
      if f.size == k {
        assert WithSize(Insert(f, s), k) == [f] + tail;
      } else {
        assert WithSize(Insert(f, s), k) == (if s[0].size == k then [s[0]] else []) + tail;
      }
    }
  }

  /** The sort is stable: for every size, the files of that size come out
      in the order they went in. */
  lemma {:induction false} SortStable(s: seq<FileEntry>, k: nat)
    ensures WithSize(SortBySizeDesc(s), k) == WithSize(s, k)
  {
    if s != [] {
      SortStable(s[1..], k);
      InsertStable(s[0], SortBySizeDesc(s[1..]), k);
    }
  }

  // ---------------------------------------------------------------------
  // First-fit packing (src/main.py:281-292)
  // ---------------------------------------------------------------------

  function SumSizes(fs: seq<FileEntry>): int {
    if fs == [] then 0 else SumSizes(fs[..|fs| - 1]) + fs[|fs| - 1].size
  }

  /** The files of all parts, part after part. */
  function AllFiles(parts: seq<Partition>): seq<FileEntry> {
    if parts == [] then [] else parts[0].files + AllFiles(parts[1..])
  }

  /** What every part satisfies: it is not empty, its recorded size is the
      sum of its files' sizes, and only a part holding a single file can
      exceed the cap. */
  ghost predicate WellFormed(parts: seq<Partition>) {
    forall i | 0 <= i < |parts| :: PartOk(parts[i])
  }

  lemma MultisetOfCons<T>(s: seq<T>)
    requires s != []
    ensures multiset(s) == multiset{s[0]} + multiset(s[1..])
  {
    assert s == [s[0]] + s[1..];
  }

  lemma MultisetAssoc<T>(x: multiset<T>, y: multiset<T>, z: multiset<T>)
    ensures (x + y) + z == x + (y + z)
  {
    forall e ensures ((x + y) + z)[e] == (x + (y + z))[e] { }
  }

  /** The part `p` with the file `f` added at its end. */
  function Grow(p: Partition, f: FileEntry): Partition {
    Partition(p.files + [f], p.size + f.size)
  }

  /** The placement of one file (the body of the loop at src/main.py:282):
      the parts are tried in order, the file joins the first one with room,
      and a new last part is opened when none has room. */
  function Place(parts: seq<Partition>, f: FileEntry): seq<Partition> {
    if parts == [] then [Partition([f], f.size)]
    else if parts[0].size + f.size <= PART_CAP then [Grow(parts[0], f)] + parts[1..]
    else [parts[0]] + Place(parts[1..], f)
  }

  /** First fit: when `j` is the first part with room, the file joins part
      `j` and no other part changes; when no part has room it opens a new
      part of its own at the end. */
  lemma {:induction false} PlaceFirstFit(parts: seq<Partition>, f: FileEntry, j: nat)
    requires j <= |parts|
    requires j < |parts| ==> parts[j].size + f.size <= PART_CAP
    requires forall i | 0 <= i < j :: parts[i].size + f.size > PART_CAP
    ensures j < |parts| ==> Place(parts, f) == parts[j := Grow(parts[j], f)]
    ensures j == |parts| ==> Place(parts, f) == parts + [Partition([f], f.size)]
  {
    if j == 0 {
      if parts != [] {
        assert [Grow(parts[0], f)] + parts[1..] == parts[0 := Grow(parts[0], f)];
      }
    } else {
      var tail := parts[1..];
      assert forall i | 0 <= i < j - 1 :: tail[i] == parts[i + 1];
      PlaceFirstFit(tail, f, j - 1);
      if j < |parts| {
        assert [parts[0]] + tail[j - 1 := Grow(parts[j], f)] == parts[j := Grow(parts[j], f)];
      } else {
        assert [parts[0]] + (tail + [Partition([f], f.size)]) == parts + [Partition([f], f.size)];
      }
    }
  }

  lemma AllFilesCons(p: Partition, parts: seq<Partition>)
    ensures AllFiles([p] + parts) == p.files + AllFiles(parts)
  {
    assert ([p] + parts)[1..] == parts;
  }

  /** Placing a file adds exactly that file to the parts' contents. */
  lemma {:induction false} PlacePermutes(parts: seq<Partition>, f: FileEntry)
    ensures multiset(AllFiles(Place(parts, f))) == multiset(AllFiles(parts)) + multiset{f}
  {
    if parts == [] {
      AllFilesCons(Partition([f], f.size), []);
    } else {
      var head, rest := multiset(parts[0].files), multiset(AllFiles(parts[1..]));
      assert multiset(AllFiles(parts)) == head + rest;
      if parts[0].size + f.size <= PART_CAP {
        calc {
          multiset(AllFiles(Place(parts, f)));
          { AllFilesCons(Grow(parts[0], f), parts[1..]); }
          multiset((parts[0].files + [f]) + AllFiles(parts[1..]));
          (head + multiset{f}) + rest;
          { MultisetAssoc(head, multiset{f}, rest); MultisetAssoc(head, rest, multiset{f}); }
          (head + rest) + multiset{f};
        }
      } else {
        calc {
          multiset(AllFiles(Place(parts, f)));
          { AllFilesCons(parts[0], Place(parts[1..], f)); }
          multiset(parts[0].files + AllFiles(Place(parts[1..], f)));
          head + multiset(AllFiles(Place(parts[1..], f)));
          { PlacePermutes(parts[1..], f); }
          head + (rest + multiset{f});
          { MultisetAssoc(head, rest, multiset{f}); }
          (head + rest) + multiset{f};
        }
      }
    }
  }

  /** What one part satisfies (see WellFormed). */
  ghost predicate PartOk(p: Partition) {
    && |p.files| >= 1
    && p.size == SumSizes(p.files)
    && (p.size > PART_CAP ==> |p.files| == 1)
  }

  lemma WellFormedCons(p: Partition, parts: seq<Partition>)
    ensures WellFormed([p] + parts) <==> PartOk(p) && WellFormed(parts)
  {
    var r := [p] + parts;
    assert r[0] == p;
    assert forall i | 0 <= i < |parts| :: r[i + 1] == parts[i];
  }

  /** Placing a file keeps every part well formed: a part that takes the
      file stays within the cap, and a new part holds the file alone. */
  lemma {:induction false} PlaceWellFormed(parts: seq<Partition>, f: FileEntry)
    requires WellFormed(parts)
    ensures WellFormed(Place(parts, f))
  {
    if parts == [] {
      var p := Partition([f], f.size);
      assert [f][..0] == [];
      assert PartOk(p);
      WellFormedCons(p, []);
      assert [p] + [] == [p];
    } else {
      WellFormedCons(parts[0], parts[1..]);
      assert [parts[0]] + parts[1..] == parts;
      if parts[0].size + f.size <= PART_CAP {
        var g := Grow(parts[0], f);
        assert g.files[..|g.files| - 1] == parts[0].files;
        WellFormedCons(g, parts[1..]);
      } else {
        PlaceWellFormed(parts[1..], f);
        WellFormedCons(parts[0], Place(parts[1..], f));
      }
    }
  }

  /** Places `files` one after the other into `parts`. */
  function PackFrom(parts: seq<Partition>, files: seq<FileEntry>): seq<Partition>
    decreases |files|
  {
    if files == [] then parts else PackFrom(Place(parts, files[0]), files[1..])
  }

  lemma {:induction false} PackFromPermutes(parts: seq<Partition>, files: seq<FileEntry>)
    ensures multiset(AllFiles(PackFrom(parts, files))) == multiset(AllFiles(parts)) + multiset(files)
    decreases |files|
  {
    if files != [] {
      var next := Place(parts, files[0]);
      var before, tail := multiset(AllFiles(parts)), multiset(files[1..]);
      PlacePermutes(parts, files[0]);
      PackFromPermutes(next, files[1..]);
      MultisetOfCons(files);
      MultisetAssoc(before, multiset{files[0]}, tail);
      calc {
        multiset(AllFiles(PackFrom(parts, files)));
        multiset(AllFiles(PackFrom(next, files[1..])));
        multiset(AllFiles(next)) + tail;
        (before + multiset{files[0]}) + tail;
        before + multiset(files);
      }
    }
  }

  lemma {:induction false} PackFromWellFormed(parts: seq<Partition>, files: seq<FileEntry>)
    requires WellFormed(parts)
    ensures WellFormed(PackFrom(parts, files))
    decreases |files|
  {
    if files != [] {
      PlaceWellFormed(parts, files[0]);
      PackFromWellFormed(Place(parts, files[0]), files[1..]);
    }
  }

  /** The partitions built from `files` (src/main.py:277-292). */
  function Pack(files: seq<FileEntry>): (parts: seq<Partition>)
    ensures multiset(AllFiles(parts)) == multiset(files)
    ensures |AllFiles(parts)| == |files|
    ensures WellFormed(parts)
    ensures |parts| <= |files|
  {
    var r := PackFrom([], SortBySizeDesc(files));
    SortIsOrderedPermutation(files);
    PackFromPermutes([], SortBySizeDesc(files));
    PackFromWellFormed([], SortBySizeDesc(files));
    assert |multiset(AllFiles(r))| == |multiset(files)|;
    PartsAtMostFiles(r);
    r
  }

  lemma {:induction false} PartsAtMostFiles(parts: seq<Partition>)
    requires WellFormed(parts)
    ensures |parts| <= |AllFiles(parts)|
  {
    if parts != [] {
      assert WellFormed(parts[1..]) by {
        forall i | 0 <= i < |parts[1..]| ensures parts[1..][i] == parts[i + 1] { }
      }
      PartsAtMostFiles(parts[1..]);
    }
  }

  /** The loop of src/main.py:282-292 with its `placed` flag: every file,
      largest first, goes into the first part with room or a new one. */
  method PartitionFiles(files: seq<FileEntry>) returns (parts: seq<Partition>)
    ensures parts == Pack(files)
    ensures multiset(AllFiles(parts)) == multiset(files)
    ensures WellFormed(parts)
  {
    var sorted := SortBySizeDesc(files);
    parts := [];
    for n := 0 to |sorted|
      invariant PackFrom(parts, sorted[n..]) == PackFrom([], sorted)
    {
      var f := sorted[n];
      assert sorted[n..] == [f] + sorted[n + 1..];
      ghost var before := parts;
      var placed := false;
      var i := 0;
      while i < |parts|
        invariant 0 <= i <= |parts|
        invariant parts == before && !placed
        invariant forall m | 0 <= m < i :: parts[m].size + f.size > PART_CAP
      {
        if parts[i].size + f.size <= PART_CAP {
          parts := parts[i := Partition(parts[i].files + [f], parts[i].size + f.size)];
          placed := true;
          break;
        }
        i := i + 1;
      }
      if !placed {
        parts := parts + [Partition([f], f.size)];
      }
      PlaceFirstFit(before, f, i);
    }
    assert sorted[|sorted|..] == [];
  }

  // ---------------------------------------------------------------------
  // Collecting and counting the stored files (src/main.py:270-275, 315)
  // ---------------------------------------------------------------------

  /** `os.path.join(root, name)` for a plain file name. */
  function Join(root: string, name: string): string {
    if root == [] || root[|root| - 1] == '/' then root + name else root + "/" + name
  }

  /** The entries one directory contributes, with sizes from `sizeOf`. */
  function DirFiles(d: WalkDir, sizeOf: string -> nat): (fs: seq<FileEntry>)
    ensures |fs| == |d.filenames|
  {
    seq(|d.filenames|, i requires 0 <= i < |d.filenames| =>
      FileEntry(Join(d.root, d.filenames[i]), sizeOf(Join(d.root, d.filenames[i]))))
  }

  /** The list built by the nested loop of src/main.py:270-275. */
  function Listing(walk: seq<WalkDir>, sizeOf: string -> nat): seq<FileEntry> {
    if walk == [] then []
    else Listing(walk[..|walk| - 1], sizeOf) + DirFiles(walk[|walk| - 1], sizeOf)
  }

  /** `sum([len(files) for r, d, files in os.walk('storage')])`
      (src/main.py:315). */
  function CountPhotos(walk: seq<WalkDir>): nat {
    if walk == [] then 0
    else CountPhotos(walk[..|walk| - 1]) + |walk[|walk| - 1].filenames|
  }

  /** The photo count is the number of files the archive lists. */
  lemma {:induction false} CountIsListingLength(walk: seq<WalkDir>, sizeOf: string -> nat)
    ensures |Listing(walk, sizeOf)| == CountPhotos(walk)
  {
    if walk != [] {
      CountIsListingLength(walk[..|walk| - 1], sizeOf);
    }
  }

  /** The archive holds exactly as many files as the photo count reports. */
  lemma ArchiveHoldsEveryPhoto(walk: seq<WalkDir>, sizeOf: string -> nat)
    ensures |AllFiles(Pack(Listing(walk, sizeOf)))| == CountPhotos(walk)
  {
    CountIsListingLength(walk, sizeOf);
  }

  /** The nested loop of src/main.py:270-275. */
  method CollectFiles(walk: seq<WalkDir>, sizeOf: string -> nat) returns (files: seq<FileEntry>)
    ensures files == Listing(walk, sizeOf)
    ensures |files| == CountPhotos(walk)
  {
    files := [];
    for k := 0 to |walk|
      invariant files == Listing(walk[..k], sizeOf)
    {
      var d := walk[k];
      ghost var start := files;
      for i := 0 to |d.filenames|
        invariant files == start + DirFiles(d, sizeOf)[..i]
      {
        var filePath := Join(d.root, d.filenames[i]);
        var fileSize := sizeOf(filePath);
        files := files + [FileEntry(filePath, fileSize)];
        assert DirFiles(d, sizeOf)[..i + 1] == DirFiles(d, sizeOf)[..i] + [DirFiles(d, sizeOf)[i]];
      }
      assert DirFiles(d, sizeOf)[..|d.filenames|] == DirFiles(d, sizeOf);
      assert walk[..k + 1][..k] == walk[..k];
    }
    assert walk[..|walk|] == walk;
    CountIsListingLength(walk, sizeOf);
  }

  // ---------------------------------------------------------------------
  // The two worked examples: three files of 5, 5 and 3 MiB fill two parts,
  // the 3 MiB file joining the first 5 MiB one; and a single 10 MiB file gets
  // a part of its own above the cap.
  // ---------------------------------------------------------------------

  const MiB: int := 1024 * 1024

  lemma SortFiveFiveThree(fa: FileEntry, fb: FileEntry, fc: FileEntry)
    requires fa.size == 5 * MiB && fb.size == 5 * MiB && fc.size == 3 * MiB
    ensures SortBySizeDesc([fa, fb, fc]) == [fa, fb, fc]
  {
    assert [fa, fb, fc][1..] == [fb, fc] && [fb, fc][1..] == [fc];
    assert SortBySizeDesc([fc]) == [fc];
    assert Insert(fb, [fc]) == [fb, fc];
    assert SortBySizeDesc([fb, fc]) == [fb, fc];
    assert Insert(fa, [fb, fc]) == [fa, fb, fc];
  }

  lemma PackFiveFiveThree(fa: FileEntry, fb: FileEntry, fc: FileEntry)
    requires fa.size == 5 * MiB && fb.size == 5 * MiB && fc.size == 3 * MiB
    ensures PackFrom([], [fa, fb, fc]) == [Partition([fa, fc], 8 * MiB), Partition([fb], 5 * MiB)]
  {
    var p1 := [Partition([fa], 5 * MiB)];
    PlaceFirstFit([], fa, 0);
    var p2 := p1 + [Partition([fb], 5 * MiB)];
    PlaceFirstFit(p1, fb, 1);
    var p3 := [Partition([fa, fc], 8 * MiB), Partition([fb], 5 * MiB)];
    PlaceFirstFit(p2, fc, 0);
    assert p2[0].files + [fc] == [fa, fc] && p2[0].size + fc.size == 8 * MiB;
    assert p2[0 := Partition(p2[0].files + [fc], p2[0].size + fc.size)] == p3;
    assert [fa, fb, fc][1..] == [fb, fc] && [fb, fc][1..] == [fc];
    assert Place([], fa) == p1 && Place(p1, fb) == p2 && Place(p2, fc) == p3;
    assert PackFrom(p3, []) == p3;
    assert PackFrom(p2, [fc]) == p3;
    assert PackFrom(p1, [fb, fc]) == p3;
    assert PackFrom([], [fa, fb, fc]) == PackFrom(p1, [fb, fc]);
  }

  lemma TwoPartsForFiveFiveThree(a: string, b: string, c: string)
    ensures var fa, fb, fc := FileEntry(a, 5 * MiB), FileEntry(b, 5 * MiB), FileEntry(c, 3 * MiB);
      Pack([fa, fb, fc]) == [Partition([fa, fc], 8 * MiB), Partition([fb], 5 * MiB)]
  {
    var fa, fb, fc := FileEntry(a, 5 * MiB), FileEntry(b, 5 * MiB), FileEntry(c, 3 * MiB);
    SortFiveFiveThree(fa, fb, fc);
    PackFiveFiveThree(fa, fb, fc);
  }

  lemma OversizedFileAlone(a: string)
    ensures var f := FileEntry(a, 10 * MiB);
      Pack([f]) == [Partition([f], 10 * MiB)]
  {
    var f := FileEntry(a, 10 * MiB);
    assert SortBySizeDesc([f]) == [f];
    PlaceFirstFit([], f, 0);
    assert PackFrom([], [f]) == PackFrom(Place([], f), []);
  }
}
