/** The program-file chooser of the touch screen (touchy/t_lib/filechooser.py):
    one merged list of G-code programs from the local program directory and
    from every mounted USB volume, shown a page of `numlabels` labels at a
    time, with one selected entry kept in step with the file the controller
    has loaded. */
module FileCatalog {
  import opened Common

  /** One name returned by os.listdir, with the answer of os.path.isfile. */
  datatype DirEntry = DirEntry(name: string, isFile: bool)

  /** One entry of the media root: its name, os.path.isdir, and the result
      of listing it (None when os.listdir raises OSError). */
  datatype Mount = Mount(name: string, isDir: bool, listing: Option<seq<DirEntry>>)

  /** What reload() can observe of the filesystem. `local` is None when the
      local directory does not exist or cannot be listed; `media` is None
      when the media root does not exist or cannot be listed. */
  datatype FileSystem = FileSystem(local: Option<seq<DirEntry>>, media: Option<seq<Mount>>)

  /** A (display name, full path) pair; the separator is the only entry
      without a path. */
  datatype Entry = Entry(name: string, path: Option<string>)

  const Separator: Entry := Entry("--- USB ---", None)

  /** Commands the chooser issues to the controller and to the listing. */
  datatype ChooserCommand = SetModeMdi | ProgramOpen(path: string) | ListingReadFile(path: string)

  // ---------------------------------------------------------------------
  // Paths and names

  /** os.path.join for a directory without a trailing slash and a plain name. */
  function Join(dir: string, name: string): (p: string)
    ensures |p| == |dir| + 1 + |name|
    ensures p[..|dir|] == dir && p[|dir|] == '/' && p[|dir| + 1..] == name
  {
    dir + "/" + name
  }

  /** os.path.basename: everything after the last slash. */
  function Basename(p: string): (b: string)
    ensures '/' !in b
    ensures |b| <= |p|
  {
    if p == [] then []
    else if p[|p| - 1] == '/' then []
    else Basename(p[..|p| - 1]) + [p[|p| - 1]]
  }

  /** The basename ends the path, and a slash comes right before it unless
      it is the whole path: it is the part after the last slash. */
  lemma {:induction false} BasenameIsLastPart(p: string)
    ensures Basename(p) == p[|p| - |Basename(p)|..]
    ensures |Basename(p)| < |p| ==> p[|p| - |Basename(p)| - 1] == '/'
  {
    if p != [] && p[|p| - 1] != '/' {
      var q := p[..|p| - 1];
      BasenameIsLastPart(q);
      assert p[|p| - |Basename(p)|..] == q[|q| - |Basename(q)|..] + [p[|p| - 1]];
    }
  }

  lemma {:induction false} BasenameOfJoin(dir: string, name: string)
    requires '/' !in name
    ensures Basename(Join(dir, name)) == name
  {
    var p := Join(dir, name);
    BasenameIsLastPart(p);
    assert p[|p| - |name| - 1] == '/';
    assert p[|p| - |name|..] == name;
  }

  /** The extension test of reload(): the lower-cased name ends in one of
      .ngc, .nc, .tap or .gcode. */
  predicate HasProgramExtension(name: string): (r: bool)
    ensures r ==> |name| >= 3
  {
    var l := Lower(name);
    EndsWith(l, ".ngc") || EndsWith(l, ".nc") || EndsWith(l, ".tap") || EndsWith(l, ".gcode")
  }

  /** `f.lower().endswith(...)`: the test gives the same answer for a name
      and its lower-case form. */
  lemma ExtensionIgnoresCase(name: string)
    ensures HasProgramExtension(name) <==> HasProgramExtension(Lower(name))
  {
    assert Lower(Lower(name)) == Lower(name);
  }

  /** A directory entry that reload() keeps: a program name that is a regular file. */
  predicate Kept(d: DirEntry): (r: bool)
    ensures r ==> d.isFile && |d.name| >= 3
  {
    HasProgramExtension(d.name) && d.isFile
  }

  // ---------------------------------------------------------------------
  // Name order: Python compares str values code point by code point, and a
  // proper prefix sorts first.

  predicate NameLe(a: string, b: string): (r: bool)
    ensures |a| <= |b| && a == b[..|a|] ==> r
    ensures b == [] ==> (r <==> a == [])
  {
    a == [] || (b != [] && (a[0] < b[0] || (a[0] == b[0] && NameLe(a[1..], b[1..]))))
  }

  lemma {:induction false} NameLeRefl(a: string)
    ensures NameLe(a, a)
  {
    if a != [] { NameLeRefl(a[1..]); }
  }

  lemma {:induction false} NameLeTotal(a: string, b: string)
    ensures NameLe(a, b) || NameLe(b, a)
  {
    if a != [] && b != [] && a[0] == b[0] { NameLeTotal(a[1..], b[1..]); }
  }

  lemma {:induction false} NameLeTrans(a: string, b: string, c: string)
    requires NameLe(a, b) && NameLe(b, c)
    ensures NameLe(a, c)
  {
    if a != [] && a[0] == b[0] && b[0] == c[0] { NameLeTrans(a[1..], b[1..], c[1..]); }
  }

  lemma {:induction false} NameLeAntisym(a: string, b: string)
    requires NameLe(a, b) && NameLe(b, a)
    ensures a == b
  {
    if a != [] {
      NameLeAntisym(a[1..], b[1..]);
      assert a == [a[0]] + a[1..] && b == [b[0]] + b[1..];
    }
  }

  ghost predicate Sorted(s: seq<Entry>)
  {
    forall i, j :: 0 <= i < j < |s| ==> NameLe(s[i].name, s[j].name)
  }

  // ---------------------------------------------------------------------
  // list.sort(key=lambda x: x[0]): a stable sort by display name.

  /** Puts `x` before the first entry whose name is not below it. */
  function Insert(x: Entry, s: seq<Entry>): (r: seq<Entry>)
    ensures |r| == |s| + 1
  {
    if s == [] || NameLe(x.name, s[0].name) then [x] + s
    else [s[0]] + Insert(x, s[1..])
  }

  function SortByName(s: seq<Entry>): (r: seq<Entry>)
    ensures |r| == |s|
  {
    if s == [] then [] else Insert(s[0], SortByName(s[1..]))
  }

  /** The entries of `s` that carry the name `k`, in order. */
  function WithName(s: seq<Entry>, k: string): seq<Entry>
  {
    if s == [] then []
    else (if s[0].name == k then [s[0]] else []) + WithName(s[1..], k)
  }

  lemma {:induction false} InsertPermutes(x: Entry, s: seq<Entry>)
    ensures multiset(Insert(x, s)) == multiset(s) + multiset{x}
  {
    if s != [] && !NameLe(x.name, s[0].name) {
      InsertPermutes(x, s[1..]);
      assert s == [s[0]] + s[1..];
    }
  }

  lemma SortedTail(s: seq<Entry>)
    requires Sorted(s) && s != []
    ensures Sorted(s[1..])
  {
    forall i, j | 0 <= i < j < |s[1..]| ensures NameLe(s[1..][i].name, s[1..][j].name) {
      assert s[1..][i] == s[i + 1] && s[1..][j] == s[j + 1];
    }
  }

  /** An entry no greater than every entry of a sorted list can lead it. */
  lemma ConsSorted(y: Entry, t: seq<Entry>)
    requires Sorted(t) && forall j :: 0 <= j < |t| ==> NameLe(y.name, t[j].name)
    ensures Sorted([y] + t)
  {
    var r := [y] + t;
    forall i, j | 0 <= i < j < |r| ensures NameLe(r[i].name, r[j].name) {
      if i > 0 { assert r[i] == t[i - 1] && r[j] == t[j - 1]; }
    }
  }

  lemma {:induction false} InsertSorted(x: Entry, s: seq<Entry>)
    requires Sorted(s)
    ensures Sorted(Insert(x, s))
  {
    if s == [] || NameLe(x.name, s[0].name) {
      forall j | 0 <= j < |s| ensures NameLe(x.name, s[j].name) {
        if j > 0 { NameLeTrans(x.name, s[0].name, s[j].name); }
      }
      ConsSorted(x, s);
    } else {
      NameLeTotal(x.name, s[0].name);
      SortedTail(s);
      InsertSorted(x, s[1..]);
      InsertPermutes(x, s[1..]);
      var t := Insert(x, s[1..]);
      forall j | 0 <= j < |t| ensures NameLe(s[0].name, t[j].name) {
        assert t[j] in multiset(t);
        if t[j] != x {
          assert t[j] in multiset(s[1..]);
          var k :| 0 <= k < |s[1..]| && s[1..][k] == t[j];
          assert s[k + 1] == t[j];
        }
      }
      ConsSorted(s[0], t);
    }
  }

  lemma {:induction false} SortByNameCorrect(s: seq<Entry>)
    ensures Sorted(SortByName(s))
    ensures multiset(SortByName(s)) == multiset(s)
  {
    if s != [] {
      var rest := SortByName(s[1..]);
      SortByNameCorrect(s[1..]);
      InsertSorted(s[0], rest);
      InsertPermutes(s[0], rest);
      assert s == [s[0]] + s[1..];
      assert multiset(s) == multiset(s[1..]) + multiset{s[0]};
    }
  }

  lemma {:induction false} InsertKeepsOrderOfEqualNames(x: Entry, s: seq<Entry>, k: string)
    requires Sorted(s)
    ensures WithName(Insert(x, s), k) == (if x.name == k then [x] else []) + WithName(s, k)
  {
    if s == [] || NameLe(x.name, s[0].name) {
      assert ([x] + s)[1..] == s;
    } else {
      SortedTail(s);
      InsertKeepsOrderOfEqualNames(x, s[1..], k);
      var r := Insert(x, s[1..]);
      var hx := if x.name == k then [x] else [];
      var h0 := if s[0].name == k then [s[0]] else [];
      assert ([s[0]] + r)[1..] == r;
      assert WithName(Insert(x, s), k) == h0 + (hx + WithName(s[1..], k));
      if x.name == k && s[0].name == k { NameLeRefl(k); }
      assert hx == [] || h0 == [];
      AppendAssoc(h0, hx, WithName(s[1..], k));
      AppendAssoc(hx, h0, WithName(s[1..], k));
    }
  }

  /** The sort is stable: entries with equal names keep their relative order. */
  lemma {:induction false} SortByNameStable(s: seq<Entry>, k: string)
    ensures WithName(SortByName(s), k) == WithName(s, k)
  {
    if s != [] {
      SortByNameStable(s[1..], k);
      SortByNameCorrect(s[1..]);
      InsertKeepsOrderOfEqualNames(s[0], SortByName(s[1..]), k);
    }
  }

  // ---------------------------------------------------------------------
  // What reload() collects

  /** The kept entries of one directory listing, in listing order, each
      paired with its full path. */
  function ProgramsIn(dir: string, es: seq<DirEntry>): (r: seq<Entry>)
    ensures |r| <= |es|
    ensures forall e :: e in r ==>
      e.path == Some(Join(dir, e.name)) && HasProgramExtension(e.name) && DirEntry(e.name, true) in es
    ensures forall d :: d in es && Kept(d) ==> Entry(d.name, Some(Join(dir, d.name))) in r
  {
    if es == [] then []
    else
      var init := ProgramsIn(dir, es[..|es| - 1]);
      var d := es[|es| - 1];
      assert es == es[..|es| - 1] + [d];
      if Kept(d) then init + [Entry(d.name, Some(Join(dir, d.name)))] else init
  }

  /** The kept entries of every mounted volume, volume by volume. A volume
      whose listing raises OSError ends the scan: what was gathered before it
      is kept, nothing after it is looked at. */
  function UsbPrograms(root: string, ms: seq<Mount>): (r: seq<Entry>)
    ensures forall e :: e in r ==> e.path.Some? && HasProgramExtension(e.name)
  {
    if ms == [] then []
    else if !ms[0].isDir then UsbPrograms(root, ms[1..])
    else match ms[0].listing
      case None => []
      case Some(es) => ProgramsIn(Join(root, ms[0].name), es) + UsbPrograms(root, ms[1..])
  }

  /** Every USB entry is a kept regular file of a directory mount that the
      scan reached, with the path joined from the media root, the mount and
      the file name. */
  lemma {:induction false} UsbProgramsSound(root: string, ms: seq<Mount>, e: Entry)
    requires e in UsbPrograms(root, ms)
    ensures exists k :: 0 <= k < |ms| && ScanReaches(ms, k) && FromMount(root, ms[k], e)
  {
    var rest := UsbPrograms(root, ms[1..]);
    if ms[0].isDir && ms[0].listing.Some? && e in ProgramsIn(Join(root, ms[0].name), ms[0].listing.value) {
      assert ScanReaches(ms, 0) && FromMount(root, ms[0], e);
    } else {
      assert e in rest;
      UsbProgramsSound(root, ms[1..], e);
      var k :| 0 <= k < |ms[1..]| && ScanReaches(ms[1..], k) && FromMount(root, ms[1..][k], e);
      ScanShift(ms);
      assert ScanReaches(ms, k + 1) && FromMount(root, ms[k + 1], e);
    }
  }

  /** Every kept regular file of every directory mount that the scan
      reaches is a USB entry. */
  lemma {:induction false} UsbProgramsComplete(root: string, ms: seq<Mount>, k: nat, d: DirEntry)
    requires k < |ms| && ScanReaches(ms, k) && ms[k].isDir && ms[k].listing.Some?
    requires d in ms[k].listing.value && Kept(d)
    ensures Entry(d.name, Some(Join(Join(root, ms[k].name), d.name))) in UsbPrograms(root, ms)
  {
    if k == 0 {
      assert Entry(d.name, Some(Join(Join(root, ms[0].name), d.name))) in ProgramsIn(Join(root, ms[0].name), ms[0].listing.value);
    } else {
      ScanShift(ms);
      assert ms[1..][k - 1] == ms[k];
      UsbProgramsComplete(root, ms[1..], k - 1, d);
    }
  }

  /** Reaching mount `k` of `ms` is passing the first mount and reaching
      mount `k - 1` of the rest. */
  lemma ScanShift(ms: seq<Mount>)
    requires ms != []
    ensures forall k :: 1 <= k <= |ms| ==>
      (ScanReaches(ms, k) <==> !(ms[0].isDir && ms[0].listing.None?) && ScanReaches(ms[1..], k - 1))
  {
    forall k | 1 <= k <= |ms|
      ensures ScanReaches(ms, k) <==> !(ms[0].isDir && ms[0].listing.None?) && ScanReaches(ms[1..], k - 1)
    {
      assert forall j :: 1 <= j < k ==> ms[1..][j - 1] == ms[j];
    }
  }

  /** No directory before mount `k` raised OSError, so the scan reaches it. */
  predicate ScanReaches(ms: seq<Mount>, k: int)
  {
    forall j :: 0 <= j < k && j < |ms| ==> !(ms[j].isDir && ms[j].listing.None?)
  }

  /** `e` is a kept regular file of directory mount `m`, with its full path. */
  predicate FromMount(root: string, m: Mount, e: Entry)
  {
    && m.isDir && m.listing.Some?
    && DirEntry(e.name, true) in m.listing.value && HasProgramExtension(e.name)
    && e.path == Some(Join(Join(root, m.name), e.name))
  }

  function LocalPrograms(localDir: string, fs: FileSystem): (r: seq<Entry>)
    ensures fs.local.None? ==> r == []
  {
    match fs.local
    case None => []
    case Some(es) => ProgramsIn(localDir, es)
  }

  /** The local group holds exactly the kept files of the local listing,
      each with its joined path. */
  lemma LocalProgramsExact(localDir: string, fs: FileSystem)
    ensures forall e :: e in LocalPrograms(localDir, fs) ==>
      && fs.local.Some? && e.path == Some(Join(localDir, e.name))
      && HasProgramExtension(e.name) && DirEntry(e.name, true) in fs.local.value
    ensures fs.local.Some? ==>
      forall d :: d in fs.local.value && Kept(d) ==> Entry(d.name, Some(Join(localDir, d.name))) in LocalPrograms(localDir, fs)
  {
  }

  function MediaPrograms(mediaRoot: string, fs: FileSystem): (r: seq<Entry>)
    ensures fs.media.None? ==> r == []
  {
    match fs.media
    case None => []
    case Some(ms) => UsbPrograms(mediaRoot, ms)
  }

  /** The sorted local group, then the separator and the sorted USB group
      when there is one. */
  function Merge(local: seq<Entry>, usb: seq<Entry>): (r: seq<Entry>)
    ensures |r| == |local| + (if usb == [] then 0 else 1 + |usb|)
    ensures Separator in r <==> usb != [] || Separator in local
  {
    SortByNameCorrect(local);
    SortByNameCorrect(usb);
    assert Separator in multiset(SortByName(local)) <==> Separator in multiset(local);
    SortByName(local) + (if usb == [] then [] else [Separator] + SortByName(usb))
  }

  /** The list reload() assigns to `files`. */
  function Catalog(localDir: string, mediaRoot: string, fs: FileSystem): (r: seq<Entry>)
    ensures |r| == |LocalPrograms(localDir, fs)| + (if MediaPrograms(mediaRoot, fs) == [] then 0 else 1 + |MediaPrograms(mediaRoot, fs)|)
  {
    Merge(LocalPrograms(localDir, fs), MediaPrograms(mediaRoot, fs))
  }

  method CollectPrograms(dir: string, listing: seq<DirEntry>) returns (found: seq<Entry>)
    ensures found == ProgramsIn(dir, listing)
  {
    found := [];
    for i := 0 to |listing|
      invariant found == ProgramsIn(dir, listing[..i])
    {
      var f := listing[i];
      if HasProgramExtension(f.name) {
        var fullPath := Join(dir, f.name);
        if f.isFile {
          found := found + [Entry(f.name, Some(fullPath))];
        }
      }
      assert listing[..i + 1][..i] == listing[..i];
    }
    assert listing[..|listing|] == listing;
  }

  method CollectUsb(root: string, mounts: seq<Mount>) returns (found: seq<Entry>)
    ensures found == UsbPrograms(root, mounts)
  {
    found := [];
    var i := 0;
    while i < |mounts|
      invariant 0 <= i <= |mounts|
      invariant found + UsbPrograms(root, mounts[i..]) == UsbPrograms(root, mounts)
    {
      var m := mounts[i];
      assert mounts[i..][1..] == mounts[i + 1..];
      if m.isDir {
        if m.listing.None? {
          assert found == UsbPrograms(root, mounts);
          break;
        }
        var more := CollectPrograms(Join(root, m.name), m.listing.value);
        found := found + more;
      }
      i := i + 1;
    }
  }

  /** The body of reload(): scan the local directory and the mounts, sort
      both groups and join them with the separator. */
  method BuildCatalog(localDir: string, mediaRoot: string, fs: FileSystem) returns (files: seq<Entry>)
    ensures files == Catalog(localDir, mediaRoot, fs)
  {
    var localFiles: seq<Entry> := [];
    var usbFiles: seq<Entry> := [];
    if fs.local.Some? {
      localFiles := CollectPrograms(localDir, fs.local.value);
    }
    if fs.media.Some? {
      usbFiles := CollectUsb(mediaRoot, fs.media.value);
    }
    files := SortByName(localFiles);
    if usbFiles != [] {
      files := files + [Separator] + SortByName(usbFiles);
      AppendAssoc(SortByName(localFiles), [Separator], SortByName(usbFiles));
    } else {
      assert files + [] == files;
    }
  }

  // ---------------------------------------------------------------------
  // Properties of the merged list

  /** Sorting keeps the property that every entry carries a path. */
  lemma SortKeepsPaths(s: seq<Entry>)
    requires forall e :: e in s ==> e.path.Some?
    ensures forall e :: e in SortByName(s) ==> e.path.Some?
  {
    SortByNameCorrect(s);
    forall e | e in SortByName(s) ensures e.path.Some? {
      assert e in multiset(SortByName(s));
    }
  }

  /** The merged list is the sorted local group, then (only if there are USB
      programs) the separator and the sorted USB group. */
  lemma CatalogGroups(localDir: string, mediaRoot: string, fs: FileSystem)
    ensures var files := Catalog(localDir, mediaRoot, fs);
      var local := LocalPrograms(localDir, fs);
      var usb := MediaPrograms(mediaRoot, fs);
      && |files| == |local| + (if usb == [] then 0 else 1 + |usb|)
      && files[..|local|] == SortByName(local)
      && (usb == [] ==> files == SortByName(local))
      && (usb != [] ==> files[|local|] == Separator && files[|local| + 1..] == SortByName(usb))
  {
    var local := LocalPrograms(localDir, fs);
    var usb := MediaPrograms(mediaRoot, fs);
    var a := SortByName(local);
    var b := if usb == [] then [] else [Separator] + SortByName(usb);
    assert Catalog(localDir, mediaRoot, fs) == a + b;
    MergeGroups(a, b);
  }

  lemma MergeGroups(a: seq<Entry>, b: seq<Entry>)
    ensures |a + b| == |a| + |b| && (a + b)[..|a|] == a && (a + b)[|a|..] == b
  {
  }

  /** Local programs first, sorted, and a permutation of the local listing's
      programs; then, exactly when some USB program exists, one separator
      followed by the USB programs, sorted and a permutation of them. */
  lemma CatalogLayout(localDir: string, mediaRoot: string, fs: FileSystem)
    ensures var files := Catalog(localDir, mediaRoot, fs);
      var local := LocalPrograms(localDir, fs);
      var usb := MediaPrograms(mediaRoot, fs);
      && |files| == |local| + (if usb == [] then 0 else 1 + |usb|)
      && Sorted(files[..|local|])
      && multiset(files[..|local|]) == multiset(local)
      && (usb != [] ==> files[|local|] == Separator
                        && Sorted(files[|local| + 1..])
                        && multiset(files[|local| + 1..]) == multiset(usb))
  {
    CatalogGroups(localDir, mediaRoot, fs);
    SortByNameCorrect(LocalPrograms(localDir, fs));
    SortByNameCorrect(MediaPrograms(mediaRoot, fs));
  }

  /** The separator is the only entry without a path; it appears at most
      once, right after the local group, and exactly when USB programs exist. */
  lemma CatalogSeparator(localDir: string, mediaRoot: string, fs: FileSystem)
    ensures var files := Catalog(localDir, mediaRoot, fs);
      var local := LocalPrograms(localDir, fs);
      var usb := MediaPrograms(mediaRoot, fs);
      && (Separator in files <==> usb != [])
      && (forall i :: 0 <= i < |files| && files[i].path.None? ==> i == |local| && usb != [])
  {
    var files := Catalog(localDir, mediaRoot, fs);
    var local := LocalPrograms(localDir, fs);
    var usb := MediaPrograms(mediaRoot, fs);
    CatalogGroups(localDir, mediaRoot, fs);
    SortKeepsPaths(local);
    SortKeepsPaths(usb);
    if usb != [] {
      assert files[|local|] == Separator;
    }
  }

  /** Every entry with a path names a kept program: a local one is a regular
      file of the local listing joined to the local directory; a USB one is a
      regular file of a directory mount the scan reached, joined to that
      mount's path. */
  lemma CatalogEntriesArePrograms(localDir: string, mediaRoot: string, fs: FileSystem, i: nat)
    requires i < |Catalog(localDir, mediaRoot, fs)|
    requires Catalog(localDir, mediaRoot, fs)[i].path.Some?
    ensures HasProgramExtension(Catalog(localDir, mediaRoot, fs)[i].name)
    ensures i < |LocalPrograms(localDir, fs)| ==>
      var e := Catalog(localDir, mediaRoot, fs)[i];
      fs.local.Some? && DirEntry(e.name, true) in fs.local.value && e.path == Some(Join(localDir, e.name))
    ensures i > |LocalPrograms(localDir, fs)| ==>
      && fs.media.Some?
      && (exists k :: 0 <= k < |fs.media.value| && ScanReaches(fs.media.value, k)
                      && FromMount(mediaRoot, fs.media.value[k], Catalog(localDir, mediaRoot, fs)[i]))
  {
    var files := Catalog(localDir, mediaRoot, fs);
    var local := LocalPrograms(localDir, fs);
    var usb := MediaPrograms(mediaRoot, fs);
    CatalogGroups(localDir, mediaRoot, fs);
    if i < |local| {
      SortByNameCorrect(local);
      assert files[i] == files[..|local|][i] == SortByName(local)[i];
      assert files[i] in multiset(local);
    } else {
      assert usb != [] && i > |local|;
      CatalogUsbEntry(localDir, mediaRoot, fs, i);
    }
  }

  /** The USB half of the above: an entry past the separator is a program
      file of a directory mount the scan reached. */
  lemma CatalogUsbEntry(localDir: string, mediaRoot: string, fs: FileSystem, i: nat)
    requires |LocalPrograms(localDir, fs)| < i < |Catalog(localDir, mediaRoot, fs)|
    ensures fs.media.Some?
    ensures exists k ::
      0 <= k < |fs.media.value| && ScanReaches(fs.media.value, k)
      && FromMount(mediaRoot, fs.media.value[k], Catalog(localDir, mediaRoot, fs)[i])
  {
    var files := Catalog(localDir, mediaRoot, fs);
    var local := LocalPrograms(localDir, fs);
    var usb := MediaPrograms(mediaRoot, fs);
    CatalogGroups(localDir, mediaRoot, fs);
    SortByNameCorrect(usb);
    assert usb != [];
    assert files[i] == files[|local| + 1..][i - |local| - 1] == SortByName(usb)[i - |local| - 1];
    assert files[i] in multiset(usb);
    assert fs.media.Some? && usb == UsbPrograms(mediaRoot, fs.media.value);
    UsbProgramsSound(mediaRoot, fs.media.value, files[i]);
  }

  lemma LowerOfLowerCase(s: string)
    requires forall i :: 0 <= i < |s| ==> !('A' <= s[i] <= 'Z')
    ensures Lower(s) == s
  {
  }

  /** The extension test ignores case. */
  lemma KeptExamples()
    ensures Kept(DirEntry("a.ngc", true)) && Kept(DirEntry("PART.NC", true))
  {
    LowerOfLowerCase("a.ngc");
    assert EndsWith("a.ngc", ".ngc");
    assert Lower("PART.NC") == "part.nc";
    assert EndsWith("part.nc", ".nc");
  }

  /** Another extension, a name that is only the extension without its dot,
      and a program name that is not a regular file are all dropped. */
  lemma DroppedExamples()
    ensures !Kept(DirEntry("notes.txt", true)) && !Kept(DirEntry("old.ngc", false)) && !Kept(DirEntry("tap", true))
  {
    LowerOfLowerCase("notes.txt");
    assert "notes.txt"[5..] == ".txt" && "notes.txt"[6..] == "txt";
    LowerOfLowerCase("tap");
  }

  /** Local a.ngc and c.tap with one USB program b.nc give
      [a.ngc, c.tap, separator, b.nc]. */
  lemma MergeExample()
    ensures Merge([Entry("c.tap", Some("/home/op/linuxcnc/nc_files/c.tap")),
                   Entry("a.ngc", Some("/home/op/linuxcnc/nc_files/a.ngc"))],
                  [Entry("b.nc", Some("/media/op/VOL1/b.nc"))])
         == [Entry("a.ngc", Some("/home/op/linuxcnc/nc_files/a.ngc")),
             Entry("c.tap", Some("/home/op/linuxcnc/nc_files/c.tap")),
             Separator,
             Entry("b.nc", Some("/media/op/VOL1/b.nc"))]
  {
    assert NameLe("a.ngc", "c.tap") && !NameLe("c.tap", "a.ngc");
  }

  // ---------------------------------------------------------------------
  // Looking up the loaded file

  predicate ExactMatch(e: Entry, fn: string)
  {
    e.path == Some(fn)
  }

  /** `if path and os.path.basename(path) == base`: a non-empty path whose
      last component is `base`. */
  predicate BasenameMatch(e: Entry, base: string)
  {
    e.path.Some? && e.path.value != [] && Basename(e.path.value) == base
  }

  /** Index of the first entry whose path is exactly `fn`, or -1. */
  function FirstExact(files: seq<Entry>, fn: string): (i: int)
    ensures -1 <= i < |files|
    ensures i >= 0 ==> ExactMatch(files[i], fn) && forall j :: 0 <= j < i ==> !ExactMatch(files[j], fn)
    ensures i == -1 ==> forall j :: 0 <= j < |files| ==> !ExactMatch(files[j], fn)
  {
    if files == [] then -1
    else if ExactMatch(files[0], fn) then 0
    else
      var k := FirstExact(files[1..], fn);
      if k < 0 then -1 else k + 1
  }

  /** Index of the first entry with a path whose basename is `base`, or -1. */
  function FirstBasename(files: seq<Entry>, base: string): (i: int)
    ensures -1 <= i < |files|
    ensures i >= 0 ==> BasenameMatch(files[i], base) && forall j :: 0 <= j < i ==> !BasenameMatch(files[j], base)
    ensures i == -1 ==> forall j :: 0 <= j < |files| ==> !BasenameMatch(files[j], base)
  {
    if files == [] then -1
    else if BasenameMatch(files[0], base) then 0
    else
      var k := FirstBasename(files[1..], base);
      if k < 0 then -1 else k + 1
  }

  /** The two-phase lookup of select_and_show: exact path first, then basename. */
  function Lookup(files: seq<Entry>, fn: string): (i: int)
    ensures -1 <= i < |files|
    ensures i >= 0 ==> ExactMatch(files[i], fn) || BasenameMatch(files[i], Basename(fn))
  {
    var exact := FirstExact(files, fn);
    if exact >= 0 then exact else FirstBasename(files, Basename(fn))
  }

  /** An exact match always wins over a basename match elsewhere, and the
      result is an entry with a path (never the separator). */
  lemma LookupPrefersExact(files: seq<Entry>, fn: string, i: nat)
    requires i < |files| && ExactMatch(files[i], fn)
    ensures 0 <= Lookup(files, fn) <= i
    ensures ExactMatch(files[Lookup(files, fn)], fn)
  {
  }

  /** Without an exact match, the first entry sharing the basename is chosen;
      with no match of either kind the result is -1. */
  lemma LookupFallback(files: seq<Entry>, fn: string)
    requires forall j :: 0 <= j < |files| ==> files[j].path != Some(fn)
    ensures Lookup(files, fn) == FirstBasename(files, Basename(fn))
    ensures Lookup(files, fn) >= 0 ==>
      files[Lookup(files, fn)].path.Some? && Basename(files[Lookup(files, fn)].path.value) == Basename(fn)
    ensures (forall j :: 0 <= j < |files| ==> !BasenameMatch(files[j], Basename(fn))) ==> Lookup(files, fn) == -1
  {
  }

  /** The two search loops of select_and_show. */
  /** Exact path first; only when that finds nothing, the basename of `fn`. */
  method Locate(files: seq<Entry>, fn: string) returns (foundIdx: int)
    ensures foundIdx == Lookup(files, fn)
    ensures foundIdx >= 0 ==> foundIdx < |files| && files[foundIdx].path.Some?
  {
    foundIdx := FindExact(files, fn);
    if foundIdx == -1 {
      var base := Basename(fn);
      foundIdx := FindBasename(files, base);
    }
  }

  method FindExact(files: seq<Entry>, fn: string) returns (foundIdx: int)
    ensures foundIdx == FirstExact(files, fn)
  {
    foundIdx := -1;
    var i := 0;
    while i < |files|
      invariant 0 <= i <= |files|
      invariant forall j :: 0 <= j < i ==> !ExactMatch(files[j], fn)
    {
      if files[i].path == Some(fn) {
        foundIdx := i;
        break;
      }
      i := i + 1;
    }
  }

  method FindBasename(files: seq<Entry>, base: string) returns (foundIdx: int)
    ensures foundIdx == FirstBasename(files, base)
  {
    foundIdx := -1;
    var i := 0;
    while i < |files|
      invariant 0 <= i <= |files|
      invariant forall j :: 0 <= j < i ==> !BasenameMatch(files[j], base)
    {
      var path := files[i].path;
      if path.Some? && path.value != [] && Basename(path.value) == base {
        foundIdx := i;
        break;
      }
      i := i + 1;
    }
  }

  // ---------------------------------------------------------------------
  // Paging

  /** fileoffset after up(): one page back, floored at 0. */
  function UpOffset(offset: int, n: nat): (r: int)
    ensures offset >= 0 ==> 0 <= r <= offset
    ensures offset >= n ==> r == offset - n
    ensures offset < n ==> r == 0
  {
    if offset - n < 0 then 0 else offset - n
  }

  /** fileoffset after down(): one page forward; past the end it falls back
      to the last `n` entries (or 0), which need not be a page boundary. */
  function DownOffset(offset: int, n: nat, len: nat): (r: int)
    ensures offset >= 0 && n > 0 ==> 0 <= r && (len > 0 ==> r < len)
    ensures offset + n < len ==> r == offset + n
    ensures offset + n >= len && len >= n ==> r == len - n
    ensures offset + n >= len && len < n ==> r == 0
  {
    var r := offset + n;
    if r >= len then (if len - n < 0 then 0 else len - n) else r
  }

  /** Four entries, two labels: down from 0 shows the second page, and a
      further down stays there. */
  lemma DownExample()
    ensures DownOffset(0, 2, 4) == 2 && DownOffset(2, 2, 4) == 2
  {
  }

  /** With eleven labels and fifteen entries, down from the second page gives
      offset 4: the result of down() is not always page-aligned. */
  lemma DownNotPageAligned()
    ensures DownOffset(11, 11, 15) == 4 && 4 % 11 != 0
  {
  }

  /** `(idx // n) * n`, the offset select_and_show scrolls to: `idx`
      rounded down to a multiple of `n`, so its page of `n` labels contains
      `idx`. */
  function PageStart(idx: nat, n: nat): (r: nat)
    requires n > 0
    ensures r == idx - idx % n
    ensures r <= idx < r + n
  {
    var q := idx / n;
    assert idx == q * n + idx % n && 0 <= idx % n < n;
    q * n
  }

  // ---------------------------------------------------------------------

  class FileChooser {
    const numlabels: nat
    const localDir: string
    const mediaRoot: string

    var files: seq<Entry>
    var selected: int
    var fileoffset: int
    /** Commands sent to the controller (mode, program_open) and to the
        program listing (readfile), oldest first. */
    var commands: seq<ChooserCommand>

    ghost predicate Valid()
      reads this
    {
      && numlabels > 0
      && fileoffset >= 0
      && -1 <= selected < |files|
      && (selected >= 0 ==> files[selected].path.Some?)
    }

    /** The label at position i of the page is highlighted (populate). */
    predicate Highlighted(i: int): (r: bool)
      reads this
      ensures selected < 0 && fileoffset >= 0 && i >= 0 ==> !r
      ensures r ==> i == selected - fileoffset
    {
      selected == fileoffset + i
    }

    constructor (numlabels: nat, localDir: string, mediaRoot: string, fs: FileSystem)
      requires numlabels > 0
      ensures Valid()
      ensures this.numlabels == numlabels && this.localDir == localDir && this.mediaRoot == mediaRoot
      ensures fileoffset == 0 && selected == -1 && commands == []
      ensures files == Catalog(localDir, mediaRoot, fs)
    {
      this.numlabels := numlabels;
      this.localDir := localDir;
      this.mediaRoot := mediaRoot;
      fileoffset := 0;
      files := [];
      selected := -1;
      commands := [];
      new;
      Reload(fs);
    }

    /** reload(): rebuild `files` and clear the selection; the page offset is
        left as it was. */
    method Reload(fs: FileSystem)
      requires Valid()
      modifies this`files, this`selected
      ensures Valid()
      ensures files == Catalog(localDir, mediaRoot, fs)
      ensures selected == -1
    {
      files := BuildCatalog(localDir, mediaRoot, fs);
      selected := -1;
    }

    /** select(): the label `n` of the current page was touched. */
    method Select(n: nat) returns (path: string)
      requires Valid()
      modifies this`selected, this`commands
      ensures Valid()
      ensures var idx := fileoffset + n;
        if idx < |files| && files[idx].path.Some? then
          && path == files[idx].path.value
          && selected == idx
          && commands == old(commands) + [SetModeMdi, ProgramOpen(path), ListingReadFile(path)]
        else
          path == "" && selected == old(selected) && commands == old(commands)
    {
      var idx := fileoffset + n;
      if idx >= |files| {
        return "";
      }
      var fullPath := files[idx].path;
      if fullPath.None? {
        return "";
      }
      selected := idx;
      commands := commands + [SetModeMdi, ProgramOpen(fullPath.value), ListingReadFile(fullPath.value)];
      path := fullPath.value;
    }

    /** select_and_show(): reload, then find the loaded file `fn` by exact
        path or else by basename, and scroll to the page that shows it. */
    method SelectAndShow(fn: string, fs: FileSystem)
      requires Valid()
      modifies this`files, this`selected, this`fileoffset, this`commands
      ensures Valid()
      ensures files == Catalog(localDir, mediaRoot, fs)
      ensures selected == Lookup(files, fn)
      ensures selected == -1 ==> fileoffset == old(fileoffset) && commands == old(commands)
      ensures selected >= 0 ==>
        && fileoffset == PageStart(selected, numlabels)
        && 0 <= selected - fileoffset < numlabels
        && Highlighted(selected - fileoffset)
        && commands == old(commands) + [ListingReadFile(fn)]
    {
      Reload(fs);
      var foundIdx := Locate(files, fn);
      if foundIdx == -1 {
        return;
      }
      selected := foundIdx;
      fileoffset := PageStart(foundIdx, numlabels);
      commands := commands + [ListingReadFile(fn)];
    }

    /** up(): one page back. */
    method Up()
      requires Valid()
      modifies this`fileoffset
      ensures Valid()
      ensures fileoffset == UpOffset(old(fileoffset), numlabels)
    {
      fileoffset := fileoffset - numlabels;
      if fileoffset < 0 {
        fileoffset := 0;
      }
    }

    /** down(): one page forward, falling back to the last page's worth. */
    method Down()
      requires Valid()
      modifies this`fileoffset
      ensures Valid()
      ensures fileoffset == DownOffset(old(fileoffset), numlabels, |files|)
      ensures |files| > 0 ==> fileoffset < |files|
    {
      fileoffset := fileoffset + numlabels;
      if fileoffset >= |files| {
        // The source clamps at 0 a second time; after max() that guard never fires.
        fileoffset := if 0 > |files| - numlabels then 0 else |files| - numlabels;
      }
    }
  }
}
