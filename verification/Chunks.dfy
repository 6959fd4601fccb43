/**
 Splitting a converter's outputs into binary parts, listing them, and what a client reads back by following the
 list. Files are kept by name: all of them sit in the one output directory of the task.
 */
module Chunks {
  import opened Bytes

  type Files = map<string, File>

  // ---- one file ----

  /** What successive `read(max)` calls return, up to the empty one. */
  function Parts(data: File, max: nat): seq<File>
    decreases |data|
  {
    if data == [] || max == 0 then []
    else if |data| <= max then [data]
    else [data[..max]] + Parts(data[max..], max)
  }

  function PartName(stem: string, part: nat, ext: string): string {
    stem + "_part" + Decimal(part) + ext
  }

  function PartNames(stem: string, ext: string, first: nat, count: nat): (names: seq<string>)
    ensures |names| == count && forall k | 0 <= k < count :: names[k] == PartName(stem, first + k, ext)
  {
    seq(count, k requires 0 <= k < count => PartName(stem, first + k, ext))
  }

  function WriteParts(files: Files, stem: string, ext: string, parts: seq<File>, first: nat): Files
    decreases |parts|
  {
    if parts == [] then files
    else WriteParts(files[PartName(stem, first, ext) := parts[0]], stem, ext, parts[1..], first + 1)
  }

  /** What splitting one file does to the directory, and the names it lists. */
  function SplitOne(files: Files, stem: string, ext: string, max: nat): (Files, seq<string>)
    requires stem + ext in files
  {
    var data := files[stem + ext];
    if |data| <= max then (files, [stem + ext])
    else
      var parts := Parts(data, max);
      (WriteParts(files, stem, ext, parts, 0), PartNames(stem, ext, 0, |parts|))
  }

  function ReadBack(files: Files, names: seq<string>): File
    requires forall i | 0 <= i < |names| :: names[i] in files
  {
    Concat(seq(|names|, i requires 0 <= i < |names| => files[names[i]]))
  }

  ghost predicate NoDuplicates(names: seq<string>) {
    forall i, j | 0 <= i < j < |names| :: names[i] != names[j]
  }

  /** Every part is non-empty and at most max long, there are ceil(size / max), and together they are the file. */
  lemma {:induction false} PartsForm(data: File, max: nat)
    requires max >= 1
    ensures forall k | 0 <= k < |Parts(data, max)| :: 1 <= |Parts(data, max)[k]| <= max
    ensures forall k | 0 <= k < |Parts(data, max)| - 1 :: |Parts(data, max)[k]| == max
    ensures (|Parts(data, max)| - 1) * max < |data| || data == []
    ensures |data| <= |Parts(data, max)| * max
    ensures Concat(Parts(data, max)) == data
    decreases |data|
  {
    var parts := Parts(data, max);
    if data == [] {
    } else if |data| <= max {
      assert parts[1..] == [];
    } else {
      var rest := Parts(data[max..], max);
      PartsForm(data[max..], max);
      assert parts == [data[..max]] + rest && parts[1..] == rest;
      assert (|parts| - 1) * max == (|rest| - 1) * max + max;
      assert |parts| * max == |rest| * max + max;
    }
  }

  lemma NextPart(data: File, max: nat)
    requires data != [] && max >= 1
    ensures var n := if |data| <= max then |data| else max;
            && Parts(data, max) == [data[..n]] + Parts(data[n..], max)
            && Parts(data, max)[1..] == Parts(data[n..], max)
  {
    if |data| <= max { assert data[..|data|] == data && data[|data|..] == []; }
  }

  lemma NextName(stem: string, ext: string, first: nat, count: nat)
    requires count >= 1
    ensures PartNames(stem, ext, first, count)
         == [PartName(stem, first, ext)] + PartNames(stem, ext, first + 1, count - 1)
  {
    hide PartName;
    var a, b := PartNames(stem, ext, first, count), PartNames(stem, ext, first + 1, count - 1);
    forall k | 0 <= k < count ensures a[k] == ([PartName(stem, first, ext)] + b)[k] {
      if k > 0 { assert b[k - 1] == PartName(stem, first + 1 + (k - 1), ext); }
    }
  }

  /** A part's name determines the stem and the number: the digits are what follows the last 't'. */
  lemma PartNameInjective(a: string, m: nat, b: string, n: nat, ext: string)
    requires PartName(a, m, ext) == PartName(b, n, ext)
    ensures a == b && m == n
  {
    var x, y := PartName(a, m, ext), PartName(b, n, ext);
    var d, e := Decimal(m), Decimal(n);
    assert x[|a| + 4] == 't' && y[|b| + 4] == 't';
    assert forall i | 0 <= i < |d| :: x[|a| + 5 + i] == d[i];
    assert forall i | 0 <= i < |e| :: y[|b| + 5 + i] == e[i];
    assert |a| + |d| == |b| + |e|;
    if |a| < |b| {
      assert false;
    }
    if |b| < |a| {
      assert false;
    }
    assert a == x[..|a|] && b == y[..|b|];
    assert d == x[|a| + 5..|a| + 5 + |d|] && e == y[|b| + 5..|b| + 5 + |e|];
    DecimalInjective(m, n);
  }

  lemma {:induction false} Untouched(files: Files, stem: string, ext: string, parts: seq<File>, first: nat, name: string)
    requires forall n | first <= n < first + |parts| :: name != PartName(stem, n, ext)
    ensures var after := WriteParts(files, stem, ext, parts, first);
            (name in after <==> name in files) && (name in files ==> after[name] == files[name])
    decreases |parts|
  {
    hide PartName;
    if parts != [] {
      Untouched(files[PartName(stem, first, ext) := parts[0]], stem, ext, parts[1..], first + 1, name);
    }
  }

  lemma {:induction false} Written(files: Files, stem: string, ext: string, parts: seq<File>, first: nat, k: nat)
    requires k < |parts|
    ensures var after := WriteParts(files, stem, ext, parts, first);
            PartName(stem, first + k, ext) in after && after[PartName(stem, first + k, ext)] == parts[k]
    decreases |parts|
  {
    hide PartName;
    var name0 := PartName(stem, first, ext);
    var files1 := files[name0 := parts[0]];
    if k == 0 {
      forall n | first < n < first + |parts| ensures name0 != PartName(stem, n, ext) {
        if name0 == PartName(stem, n, ext) { PartNameInjective(stem, n, stem, first, ext); }
      }
      Untouched(files1, stem, ext, parts[1..], first + 1, name0);
    } else {
      Written(files1, stem, ext, parts[1..], first + 1, k - 1);
      assert first + 1 + (k - 1) == first + k;
    }
  }

  /** Splitting adds and overwrites files, and removes none. */
  lemma {:induction false} WriteKeeps(files: Files, stem: string, ext: string, parts: seq<File>, first: nat)
    ensures WriteParts(files, stem, ext, parts, first).Keys >= files.Keys
    decreases |parts|
  {
    if parts != [] { WriteKeeps(files[PartName(stem, first, ext) := parts[0]], stem, ext, parts[1..], first + 1); }
  }

  /** Reading the listed names in order gives the file back, whatever else the directory holds. */
  lemma SplitReadsBack(files: Files, stem: string, ext: string, max: nat)
    requires stem + ext in files && max >= 1
    ensures var (after, names) := SplitOne(files, stem, ext, max);
            && (forall i | 0 <= i < |names| :: names[i] in after)
            && ReadBack(after, names) == files[stem + ext]
            && NoDuplicates(names)
            && (forall i | 0 <= i < |names| :: |after[names[i]]| <= max)
            && (if |files[stem + ext]| <= max then names == [stem + ext]
                else forall i | 0 <= i < |names| :: names[i] == stem + "_part" + Decimal(i) + ext)
  {
    var data := files[stem + ext];
    var (after, names) := SplitOne(files, stem, ext, max);
    if |data| <= max {
      assert seq(1, i requires 0 <= i < 1 => after[names[i]]) == [data];
      assert Concat([data]) == data + Concat([data][1..]);
    } else {
      hide PartName;
      var parts := Parts(data, max);
      PartsForm(data, max);
      forall i, j | 0 <= i < j < |names| ensures names[i] != names[j] {
        if names[i] == names[j] { PartNameInjective(stem, i, stem, j, ext); }
      }
      forall k | 0 <= k < |names| ensures names[k] in after && after[names[k]] == parts[k] {
        Written(files, stem, ext, parts, 0, k);
        assert names[k] == PartName(stem, 0 + k, ext);
      }
      assert seq(|names|, i requires 0 <= i < |names| => after[names[i]]) == parts;
    }
  }

  // ---- several files in one directory ----

  const XKT := ".xkt"

  /** One source after the other; each may already find its file overwritten by a part of an earlier one. */
  function SplitAll(files: Files, stems: seq<string>, max: nat): (Files, seq<string>)
    requires forall i | 0 <= i < |stems| :: stems[i] + XKT in files
    decreases |stems|
  {
    if stems == [] then (files, [])
    else
      var (files1, names1) := SplitOne(files, stems[0], XKT, max);
      SplitKeeps(files, stems[0], max);
      var (files2, names2) := SplitAll(files1, stems[1..], max);
      (files2, names1 + names2)
  }

  lemma SplitKeeps(files: Files, stem: string, max: nat)
    requires stem + XKT in files
    ensures SplitOne(files, stem, XKT, max).0.Keys >= files.Keys
  {
    WriteKeeps(files, stem, XKT, Parts(files[stem + XKT], max), 0);
  }

  /** Every listed name is there at the end, even one whose contents were replaced. */
  lemma {:induction false} AllListed(files: Files, stems: seq<string>, max: nat)
    requires (forall i | 0 <= i < |stems| :: stems[i] + XKT in files) && max >= 1
    ensures var (after, names) := SplitAll(files, stems, max);
            && after.Keys >= files.Keys
            && (forall i | 0 <= i < |names| :: names[i] in after)
            && (names == [] <==> stems == [])
    decreases |stems|
  {
    if stems != [] {
      SplitKeeps(files, stems[0], max);
      SplitReadsBack(files, stems[0], XKT, max);
      PartsForm(files[stems[0] + XKT], max);
      AllListed(SplitOne(files, stems[0], XKT, max).0, stems[1..], max);
    }
  }

  // ---- when the list is right ----

  /** `sorted(...)`: by code point, so a name that is a prefix of another comes first. */
  predicate Before(a: string, b: string)
    decreases |a|
  {
    b != "" && (a == "" || a[0] < b[0] || (a[0] == b[0] && Before(a[1..], b[1..])))
  }

  /** The directory listing that the splitting starts from. */
  ghost predicate Listing(files: Files, stems: seq<string>) {
    && (forall i | 0 <= i < |stems| :: stems[i] + XKT in files)
    && (forall i, j | 0 <= i < j < |stems| :: Before(stems[i] + XKT, stems[j] + XKT))
  }

  /** The file of stem a is split and its part number k is written to the file `name`. */
  ghost predicate Overwrites(files: Files, a: string, name: string, k: nat, max: nat)
    requires a + XKT in files
  {
    |files[a + XKT]| > max && k < |Parts(files[a + XKT], max)| && PartName(a, k, XKT) == name
  }

  /** Some file is named like a part of a file that is split. */
  ghost predicate Clash(files: Files, stems: seq<string>, max: nat)
    requires forall i | 0 <= i < |stems| :: stems[i] + XKT in files
  {
    exists i, j, k | 0 <= i < |stems| && 0 <= j < |stems| && 0 <= k ::
      Overwrites(files, stems[i], stems[j] + XKT, k, max)
  }

  lemma {:induction false} BeforeAsymmetric(a: string, b: string)
    requires Before(a, b)
    ensures !Before(b, a) && a != b
    decreases |a|
  {
    if a != "" && a[0] == b[0] { BeforeAsymmetric(a[1..], b[1..]); }
  }

  lemma {:induction false} BeforeAfterPrefix(stem: string, a: string, b: string)
    requires Before(a, b)
    ensures Before(stem + a, stem + b)
    decreases |stem|
  {
    if stem == "" {
      assert stem + a == a && stem + b == b;
    } else {
      BeforeAfterPrefix(stem[1..], a, b);
      assert (stem + a)[1..] == stem[1..] + a && (stem + b)[1..] == stem[1..] + b;
    }
  }

  lemma BeforeByFirst(a: string, b: string)
    requires a != "" && b != "" && a[0] < b[0]
    ensures Before(a, b)
  {
  }

  lemma PartNameTail(stem: string, k: nat, ext: string) returns (tail: string)
    ensures PartName(stem, k, ext) == stem + tail && tail != "" && tail[0] == '_'
  {
    var part := "_part";
    tail := part + (Decimal(k) + ext);
    assert tail[0] == part[0];
    assert stem + part + Decimal(k) + ext == stem + tail;
  }

  /** '.' sorts before '_', so a file comes before everything named like one of its parts. */
  lemma SourceBeforeParts(stem: string, k: nat)
    ensures Before(stem + XKT, PartName(stem, k, XKT))
  {
    hide PartName, Before;
    var tail := PartNameTail(stem, k, XKT);
    BeforeByFirst(XKT, tail);
    BeforeAfterPrefix(stem, XKT, tail);
  }

  lemma ClashIsForward(files: Files, stems: seq<string>, max: nat, i: nat, j: nat, k: nat)
    requires Listing(files, stems) && i < |stems| && j < |stems|
    requires Overwrites(files, stems[i], stems[j] + XKT, k, max)
    ensures i < j
  {
    SourceBeforeParts(stems[i], k);
    BeforeAsymmetric(stems[i] + XKT, stems[j] + XKT);
  }

  /** What splitting one file leaves of a file that none of its parts is written to. */
  lemma OthersUntouched(files: Files, a: string, name: string, max: nat)
    requires a + XKT in files && name in files
    requires forall k: nat :: !Overwrites(files, a, name, k, max)
    ensures var after := SplitOne(files, a, XKT, max).0; name in after && after[name] == files[name]
  {
    var data := files[a + XKT];
    if |data| > max {
      var parts := Parts(data, max);
      forall n | 0 <= n < 0 + |parts| ensures name != PartName(a, n, XKT) {
        assert !Overwrites(files, a, name, n, max);
      }
      Untouched(files, a, XKT, parts, 0, name);
    }
  }

  lemma StaysSmall(files: Files, stem: string, max: nat, name: string)
    requires stem + XKT in files && name in files && |files[name]| <= max && max >= 1
    ensures var after := SplitOne(files, stem, XKT, max).0; name in after && |after[name]| <= max
  {
    if k: nat :| Overwrites(files, stem, name, k, max) {
      var parts := Parts(files[stem + XKT], max);
      PartsForm(files[stem + XKT], max);
      Written(files, stem, XKT, parts, 0, k);
    } else {
      OthersUntouched(files, stem, name, max);
    }
  }

  /** A file no longer than max, original or part, is listed under its own name. */
  lemma {:induction false} SmallListed(files: Files, stems: seq<string>, max: nat, j: nat)
    requires forall i | 0 <= i < |stems| :: stems[i] + XKT in files
    requires j < |stems| && |files[stems[j] + XKT]| <= max && max >= 1
    ensures stems[j] + XKT in SplitAll(files, stems, max).1
    decreases |stems|
  {
    SplitKeeps(files, stems[0], max);
    if j > 0 {
      StaysSmall(files, stems[0], max, stems[j] + XKT);
      SmallListed(SplitOne(files, stems[0], XKT, max).0, stems[1..], max, j - 1);
    }
  }

  /** With a clash some name is listed twice: as a part, and as the file that the part replaced. */
  lemma {:induction false} ClashListsTwice(files: Files, stems: seq<string>, max: nat, i: nat, j: nat, k: nat)
    requires Listing(files, stems) && max >= 1 && i < |stems| && j < |stems|
    requires Overwrites(files, stems[i], stems[j] + XKT, k, max)
    ensures !NoDuplicates(SplitAll(files, stems, max).1)
    decreases |stems|
  {
    ClashIsForward(files, stems, max, i, j, k);
    SplitKeeps(files, stems[0], max);
    var (files1, names1) := SplitOne(files, stems[0], XKT, max);
    var names2 := SplitAll(files1, stems[1..], max).1;
    hide SplitAll, PartName, Before;
    assert SplitAll(files, stems, max).1 == names1 + names2 by { AllNames(files, stems, max); }
    if i == 0 {
      FirstClash(files, stems, max, j, k);
    } else if k0: nat :| Overwrites(files, stems[0], stems[i] + XKT, k0, max) {
      FirstClash(files, stems, max, i, k0);
    } else {
      OthersUntouched(files, stems[0], stems[i] + XKT, max);
      ClashListsTwice(files1, stems[1..], max, i - 1, j - 1, k);
      var a, b :| 0 <= a < b < |names2| && names2[a] == names2[b];
      assert (names1 + names2)[|names1| + a] == (names1 + names2)[|names1| + b];
    }
  }

  lemma AllNames(files: Files, stems: seq<string>, max: nat)
    requires stems != [] && forall i | 0 <= i < |stems| :: stems[i] + XKT in files
    ensures var (files1, names1) := SplitOne(files, stems[0], XKT, max);
            && files1.Keys >= files.Keys
            && SplitAll(files, stems, max).0 == SplitAll(files1, stems[1..], max).0
            && SplitAll(files, stems, max).1 == names1 + SplitAll(files1, stems[1..], max).1
  {
    SplitKeeps(files, stems[0], max);
  }

  lemma FirstClash(files: Files, stems: seq<string>, max: nat, j: nat, k: nat)
    requires (forall i | 0 <= i < |stems| :: stems[i] + XKT in files) && max >= 1 && 0 < j < |stems|
    requires Overwrites(files, stems[0], stems[j] + XKT, k, max)
    ensures !NoDuplicates(SplitAll(files, stems, max).1)
  {
    AllNames(files, stems, max);
    var (files1, names1) := SplitOne(files, stems[0], XKT, max);
    var names2 := SplitAll(files1, stems[1..], max).1;
    var data, name := files[stems[0] + XKT], stems[j] + XKT;
    hide SplitAll, PartName;
    PartsForm(data, max);
    Written(files, stems[0], XKT, Parts(data, max), 0, k);
    assert name == PartName(stems[0], 0 + k, XKT);
    SmallListed(files1, stems[1..], max, j - 1);
    assert stems[1..][j - 1] + XKT == name;
    var b :| 0 <= b < |names2| && names2[b] == name;
    assert names1[k] == name;
    assert (names1 + names2)[k] == (names1 + names2)[|names1| + b];
  }

  // ---- no clash: the list is right ----

  lemma TailWithoutClash(files: Files, stems: seq<string>, max: nat)
    requires Listing(files, stems) && stems != [] && !Clash(files, stems, max)
    ensures var files1 := SplitOne(files, stems[0], XKT, max).0;
            && Listing(files1, stems[1..]) && !Clash(files1, stems[1..], max)
            && forall i | 0 < i < |stems| ::
                 stems[i] + XKT in files1 && files1[stems[i] + XKT] == files[stems[i] + XKT]
  {
    hide Before, PartName, SplitOne;
    var files1 := SplitOne(files, stems[0], XKT, max).0;
    forall i | 0 < i < |stems| ensures stems[i] + XKT in files1 && files1[stems[i] + XKT] == files[stems[i] + XKT] {
      assert forall k: nat :: !Overwrites(files, stems[0], stems[i] + XKT, k, max);
      OthersUntouched(files, stems[0], stems[i] + XKT, max);
    }
    forall i, j, k: nat | 0 <= i < |stems[1..]| && 0 <= j < |stems[1..]|
      ensures !Overwrites(files1, stems[1..][i], stems[1..][j] + XKT, k, max)
    {
      assert !Overwrites(files, stems[i + 1], stems[j + 1] + XKT, k, max);
    }
  }

  /** A file that no part is written to comes through the whole loop. */
  lemma {:induction false} AllUntouched(files: Files, stems: seq<string>, max: nat, name: string)
    requires Listing(files, stems) && !Clash(files, stems, max) && name in files
    requires forall i, k: nat | 0 <= i < |stems| :: !Overwrites(files, stems[i], name, k, max)
    ensures var after := SplitAll(files, stems, max).0; name in after && after[name] == files[name]
    decreases |stems|
  {
    if stems != [] {
      AllNames(files, stems, max);
      TailWithoutClash(files, stems, max);
      OthersUntouched(files, stems[0], name, max);
      var files1 := SplitOne(files, stems[0], XKT, max).0;
      hide SplitAll, SplitOne, Before, PartName, Clash;
      forall i, k: nat | 0 <= i < |stems[1..]| ensures !Overwrites(files1, stems[1..][i], name, k, max) {
        assert !Overwrites(files, stems[i + 1], name, k, max);
      }
      AllUntouched(files1, stems[1..], max, name);
    } else {
      assert SplitAll(files, stems, max).0 == files;
    }
  }

  /** Names listed for one file are neither written nor listed for another. */
  lemma NamesApart(files: Files, stems: seq<string>, max: nat, i: nat, name: string, j: nat)
    requires Listing(files, stems) && !Clash(files, stems, max) && i < |stems| && j < |stems| && i != j
    requires name in SplitOne(files, stems[i], XKT, max).1
    ensures forall k: nat :: !Overwrites(files, stems[j], name, k, max)
    ensures name !in SplitOne(files, stems[j], XKT, max).1
  {
    assert stems[i] != stems[j] by {
      if i < j { BeforeAsymmetric(stems[i] + XKT, stems[j] + XKT); } else { BeforeAsymmetric(stems[j] + XKT, stems[i] + XKT); }
    }
    hide Before, PartName;
    assert stems[i] == (stems[i] + XKT)[..|stems[i]|] && stems[j] == (stems[j] + XKT)[..|stems[j]|];
    if |files[stems[i] + XKT]| > max {
      var n :| 0 <= n < |Parts(files[stems[i] + XKT], max)| && name == PartName(stems[i], 0 + n, XKT);
      assert Overwrites(files, stems[i], name, n, max);
      forall k: nat ensures !Overwrites(files, stems[j], name, k, max) {
        if Overwrites(files, stems[j], name, k, max) { PartNameInjective(stems[i], n, stems[j], k, XKT); }
      }
    }
    if |files[stems[j] + XKT]| > max {
      var names := PartNames(stems[j], XKT, 0, |Parts(files[stems[j] + XKT], max)|);
      forall k | 0 <= k < |names| ensures names[k] != name {
        assert names[k] == PartName(stems[j], 0 + k, XKT);
        assert !Overwrites(files, stems[j], name, k, max);
      }
    }
  }

  lemma {:induction false} ListedBy(files: Files, stems: seq<string>, max: nat, name: string) returns (i: nat)
    requires Listing(files, stems) && !Clash(files, stems, max) && name in SplitAll(files, stems, max).1
    ensures i < |stems| && name in SplitOne(files, stems[i], XKT, max).1
    decreases |stems|
  {
    AllNames(files, stems, max);
    TailWithoutClash(files, stems, max);
    var (files1, names1) := SplitOne(files, stems[0], XKT, max);
    hide SplitAll, Before, PartName, Clash;
    if name in names1 {
      i := 0;
    } else {
      i := ListedBy(files1, stems[1..], max, name);
      i := i + 1;
    }
  }

  function Originals(files: Files, stems: seq<string>): File
    requires forall i | 0 <= i < |stems| :: stems[i] + XKT in files
  {
    if stems == [] then [] else files[stems[0] + XKT] + Originals(files, stems[1..])
  }

  lemma {:induction false} SameOriginals(files: Files, files1: Files, stems: seq<string>)
    requires forall i | 0 <= i < |stems| ::
               && stems[i] + XKT in files && stems[i] + XKT in files1
               && files[stems[i] + XKT] == files1[stems[i] + XKT]
    ensures Originals(files, stems) == Originals(files1, stems)
  {
    if stems != [] { SameOriginals(files, files1, stems[1..]); }
  }

  lemma ReadBackAppend(files: Files, a: seq<string>, b: seq<string>)
    requires forall i | 0 <= i < |a| :: a[i] in files
    requires forall i | 0 <= i < |b| :: b[i] in files
    ensures forall i | 0 <= i < |a + b| :: (a + b)[i] in files
    ensures ReadBack(files, a + b) == ReadBack(files, a) + ReadBack(files, b)
  {
    var x := seq(|a|, i requires 0 <= i < |a| => files[a[i]]);
    var y := seq(|b|, i requires 0 <= i < |b| => files[b[i]]);
    assert seq(|a + b|, i requires 0 <= i < |a + b| => files[(a + b)[i]]) == x + y;
    ConcatAppend(x, y);
  }

  lemma ReadBackSame(files: Files, after: Files, names: seq<string>)
    requires forall i | 0 <= i < |names| :: names[i] in files && names[i] in after && files[names[i]] == after[names[i]]
    ensures ReadBack(files, names) == ReadBack(after, names)
  {
    assert seq(|names|, i requires 0 <= i < |names| => files[names[i]])
        == seq(|names|, i requires 0 <= i < |names| => after[names[i]]);
  }

  /** The first file's parts are still there, unchanged, when the loop is over. */
  lemma FirstSurvives(files: Files, stems: seq<string>, max: nat, name: string)
    requires Listing(files, stems) && !Clash(files, stems, max) && stems != [] && max >= 1
    requires name in SplitOne(files, stems[0], XKT, max).1 && name in SplitOne(files, stems[0], XKT, max).0
    ensures var after := SplitAll(files, stems, max).0;
            name in after && after[name] == SplitOne(files, stems[0], XKT, max).0[name]
  {
    AllNames(files, stems, max);
    TailWithoutClash(files, stems, max);
    var files1 := SplitOne(files, stems[0], XKT, max).0;
    forall j, k: nat | 0 <= j < |stems[1..]| ensures !Overwrites(files1, stems[1..][j], name, k, max) {
      NamesApart(files, stems, max, 0, name, j + 1);
      assert !Overwrites(files, stems[j + 1], name, k, max);
    }
    hide SplitAll, SplitOne, Before, PartName, Clash;
    AllUntouched(files1, stems[1..], max, name);
  }

  lemma {:induction false} AllReadsBack(files: Files, stems: seq<string>, max: nat)
    requires Listing(files, stems) && !Clash(files, stems, max) && max >= 1
    ensures var (after, names) := SplitAll(files, stems, max);
            && (forall i | 0 <= i < |names| :: names[i] in after)
            && ReadBack(after, names) == Originals(files, stems)
    decreases |stems|
  {
    var (after, names) := SplitAll(files, stems, max);
    if stems == [] {
      assert ReadBack(after, []) == [];
    } else {
      AllNames(files, stems, max);
      TailWithoutClash(files, stems, max);
      SplitReadsBack(files, stems[0], XKT, max);
      var (files1, names1) := SplitOne(files, stems[0], XKT, max);
      var names2 := SplitAll(files1, stems[1..], max).1;
      AllReadsBack(files1, stems[1..], max);
      hide SplitAll, SplitOne, Before, PartName, Clash, ReadBack, NoDuplicates;
      forall i | 0 <= i < |names1| ensures names1[i] in after && after[names1[i]] == files1[names1[i]] {
        FirstSurvives(files, stems, max, names1[i]);
      }
      ReadBackSame(files1, after, names1);
      ReadBackAppend(after, names1, names2);
      SameOriginals(files, files1, stems[1..]);
    }
  }

  lemma {:induction false} NoNameTwice(files: Files, stems: seq<string>, max: nat)
    requires Listing(files, stems) && !Clash(files, stems, max) && max >= 1
    ensures NoDuplicates(SplitAll(files, stems, max).1)
    decreases |stems|
  {
    if stems != [] {
      AllNames(files, stems, max);
      TailWithoutClash(files, stems, max);
      SplitReadsBack(files, stems[0], XKT, max);
      var (files1, names1) := SplitOne(files, stems[0], XKT, max);
      var names2 := SplitAll(files1, stems[1..], max).1;
      NoNameTwice(files1, stems[1..], max);
      forall a, b | 0 <= a < |names1| && 0 <= b < |names2| ensures names1[a] != names2[b] {
        var j := ListedBy(files1, stems[1..], max, names2[b]);
        assert names2[b] in SplitOne(files, stems[j + 1], XKT, max).1;
        NamesApart(files, stems, max, 0, names1[a], j + 1);
      }
    }
  }

  /**
   The list names every output once if and only if no file is named like a part of a split one, and then
   reading the listed files in order gives all the outputs, byte for byte.
   */
  lemma ListIsRight(files: Files, stems: seq<string>, max: nat)
    requires Listing(files, stems) && max >= 1
    ensures NoDuplicates(SplitAll(files, stems, max).1) <==> !Clash(files, stems, max)
    ensures !Clash(files, stems, max) ==>
              var (after, names) := SplitAll(files, stems, max);
              && (forall i | 0 <= i < |names| :: names[i] in after)
              && ReadBack(after, names) == Originals(files, stems)
  {
    hide SplitAll, Before, Overwrites, NoDuplicates;
    if Clash(files, stems, max) {
      var i, j, k :| 0 <= i < |stems| && 0 <= j < |stems| && 0 <= k && Overwrites(files, stems[i], stems[j] + XKT, k, max);
      ClashListsTwice(files, stems, max, i, j, k);
    } else {
      AllReadsBack(files, stems, max);
      NoNameTwice(files, stems, max);
    }
  }

  /** With a clash the bytes can be wrong: here "x_part0" loses its own content. */
  lemma ClashReadsWrong()
    ensures var files := map["x.xkt" := [1, 2, 3], "x_part0.xkt" := [9]];
            && Listing(files, ["x", "x_part0"])
            && SplitAll(files, ["x", "x_part0"], 2).0
            == map["x.xkt" := [1, 2, 3], "x_part0.xkt" := [1, 2], "x_part1.xkt" := [3]]
            && SplitAll(files, ["x", "x_part0"], 2).1 == ["x_part0.xkt", "x_part1.xkt", "x_part0.xkt"]
  {
    var files: Files := map["x.xkt" := [1, 2, 3], "x_part0.xkt" := [9]];
    assert "x" + XKT == "x.xkt" && "x_part0" + XKT == "x_part0.xkt";
    assert Decimal(0) == "0" && Decimal(1) == "1";
    assert PartName("x", 0, XKT) == "x_part0.xkt" && PartName("x", 1, XKT) == "x_part1.xkt";
    var data: File := [1, 2, 3];
    assert data[..2] == [1, 2] && data[2..] == [3];
    assert Parts(data, 2) == [[1, 2], [3]];
    SourceBeforeParts("x", 0);
    assert SplitOne(files, "x", XKT, 2).1 == ["x_part0.xkt", "x_part1.xkt"];
    var parts: seq<File> := [[1, 2], [3]];
    assert parts[1..] == [[3]] && parts[1..][1..] == [];
    var files1 := files["x_part0.xkt" := parts[0]]["x_part1.xkt" := parts[1]];
    assert SplitOne(files, "x", XKT, 2).0 == files1;
    assert SplitOne(files1, "x_part0", XKT, 2) == (files1, ["x_part0.xkt"]);
    var stems := ["x", "x_part0"];
    assert stems[1..] == ["x_part0"] && stems[1..][1..] == [];
    AllNames(files, stems, 2);
    AllNames(files1, stems[1..], 2);
    assert files1 == map["x.xkt" := [1, 2, 3], "x_part0.xkt" := [1, 2], "x_part1.xkt" := [3]];
    assert SplitAll(files1, [], 2) == (files1, []);
  }
}
