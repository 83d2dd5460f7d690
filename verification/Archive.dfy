/** The scan every archive must pass before the decryption library sees it, or
    before its output is published. */
module Archive {
  import opened Model
  import opened Paths

  newtype U64 = x: int | 0 <= x < 0x1_0000_0000_0000_0000

  /** The type bits of an entry; an entry with neither is a device, a pipe or a socket. */
  datatype Mode = Mode(symlink: bool, regular: bool, dir: bool)

  /** `content` is what reading the entry yields, if it can be read. */
  datatype Entry = Entry(name: string, mode: Mode, size: U64, content: Option<Bytes>)

  datatype File = NotRegular | NotZip | Zip(entries: seq<Entry>)

  /** The two property-list values the scan looks at. */
  datatype Meta = Meta(id: string, executable: string)

  datatype Verdict =
    | Accepted
    | NotARegularFile | InvalidArchive | EntryLimit | UnsafeEntry | ExpandedLimit
    | MetadataLimit | InvalidMetadata | UnsafeMetadata | NotOneApp

  const MaxEntries: nat := 100000
  const MaxMetadata: nat := 1048576

  /** Unicode case folding and property-list decoding are foreign code. */
  datatype Foreign = Foreign(lower: string -> string, plist: Bytes -> Option<Meta>)

  /** The name without one trailing slash. */
  function Trim(n: string): string {
    if n != "" && n[|n| - 1] == '/' then n[..|n| - 1] else n
  }

  function Key(f: Foreign, n: string): string {
    f.lower(Trim(n))
  }

  // ---- Names ----

  predicate HasPrefix(s: string, p: string) {
    |p| <= |s| && s[..|p|] == p
  }

  predicate HasSuffix(s: string, p: string) {
    |p| <= |s| && s[|s| - |p|..] == p
  }

  /** The test of the scan on one name. */
  predicate UnsafeName(n: string) {
    var clean := Trim(n);
    n == "" || '\\' in n || '\0' in n || HasPrefix(n, "/") || Clean(clean) != clean
    || clean == ".." || HasPrefix(clean, "../") || ':' in clean
  }

  /** What the test is for: proper elements only, and no character that another
      system reads as a separator, a drive or an end of string. */
  predicate SafeName(n: string) {
    '\\' !in n && '\0' !in n && ':' !in n
    && (Trim(n) == "." || forall k :: 0 <= k < |Split(Trim(n))| ==> Proper(Split(Trim(n))[k]))
  }

  lemma TrimSplit(n: string)
    ensures if n != "" && n[|n| - 1] == '/' then n == Trim(n) + "/" else Trim(n) == n
    ensures Trim(n) == n || (n == Trim(n) + "/" && Split(n) == Split(Trim(n)) + [""])
  {
    if n != "" && n[|n| - 1] == '/' {
      assert n == n[..|n| - 1] + "/";
      SplitSlash(n[..|n| - 1]);
    }
    hide Split;
  }

  lemma {:induction false} SplitSlash(s: string)
    ensures Split(s + "/") == Split(s) + [""]
  {
    if s == "" {
      assert s + "/" == "/" && "/"[1..] == "";
    } else {
      assert (s + "/")[1..] == s[1..] + "/";
      SplitSlash(s[1..]);
    }
  }

  lemma {:induction false} SplitHead(p: string, rest: string)
    requires '/' !in p
    ensures Split(p + "/" + rest) == [p] + Split(rest)
  {
    if p == "" {
      assert (p + "/" + rest)[1..] == rest;
    } else {
      assert (p + "/" + rest)[1..] == p[1..] + "/" + rest;
      SplitHead(p[1..], rest);
      assert (p + "/" + rest)[0] == p[0] && [p[0]] + p[1..] == p;
      assert ([p[1..]] + Split(rest))[1..] == Split(rest);
    }
  }

  /** The first element of a name that has a separator ends at it. */
  lemma FirstElement(s: string, p: string)
    requires '/' !in p
    ensures s == p || HasPrefix(s, p + "/") <==> Split(s)[0] == p
  {
    if s == p {
      SplitJoin([p]);
    } else if HasPrefix(s, p + "/") {
      SplitHead(p, s[|p| + 1..]);
      assert s == p + "/" + s[|p| + 1..];
    } else if Split(s)[0] == p {
      SplitOff(s);
    }
  }

  lemma SplitOff(s: string)
    ensures var p := Split(s)[0]; s == p || HasPrefix(s, p + "/")
  {
    var parts := Split(s);
    if |parts| > 1 {
      assert s == (parts[0] + "/") + Join(parts[1..]);
    }
  }

  /** The two tests of the scan on the first element. */
  lemma FirstPart(s: string)
    ensures s != "" ==> (HasPrefix(s, "/") <==> Split(s)[0] == "")
    ensures s == ".." || HasPrefix(s, "../") <==> Split(s)[0] == ".."
  {
    hide Split, HasPrefix;
    FirstElement(s, "");
    FirstElement(s, "..");
    assert "" + "/" == "/" && ".." + "/" == "../";
  }

  lemma NormalProper(parts: seq<string>)
    requires parts != []
    ensures Normal(parts) && parts[0] != ".." <==> forall k :: 0 <= k < |parts| ==> Proper(parts[k])
  {
    if Normal(parts) && parts[0] != ".." {
      NoDotDot(parts, |parts|);
    }
  }

  lemma {:induction false} NoDotDot(parts: seq<string>, n: nat)
    requires parts != [] && Normal(parts) && parts[0] != ".." && n <= |parts|
    ensures forall k :: 0 <= k < n ==> Proper(parts[k])
  {
    if n > 0 {
      NoDotDot(parts, n - 1);
      assert n > 1 ==> Proper(parts[n - 2]);
    }
  }

  /** The test rejects exactly the names that are not safe. */
  lemma NameTest(n: string)
    ensures !UnsafeName(n) <==> SafeName(n)
  {
    var clean := Trim(n);
    assert ':' in n <==> ':' in clean by { TrimSplit(n); }
    CleanFixed(clean);
    FirstPart(clean);
    NormalProper(Split(clean));
    SplitJoin([""]);
    SplitJoin(["."]);
    if n != "" && HasPrefix(n, "/") {
      assert clean == "" || HasPrefix(clean, "/");
    }
    hide Clean, Normal;
  }

  lemma WalkStep(parts: seq<string>, part: string)
    ensures part == "" || part == "." ==> Walk(parts + [part]) == Walk(parts)
  {
    assert (parts + [part])[..|parts|] == parts;
  }

  /** The elements of a safe name. */
  lemma SafeParts(n: string)
    requires SafeName(n)
    ensures var parts := Split(Trim(n));
      && (Trim(n) == "." <==> parts == ["."])
      && (parts == ["."] || forall j :: 0 <= j < |parts| ==> Proper(parts[j]))
  {
    SplitJoin(["."]);
    assert Join(["."]) == ".";
    assert Join(Split(Trim(n))) == Trim(n);
    hide Split, Trim, Join, Proper;
  }

  /** Wherever one stops along a safe name, one is inside the root, and at its end at
      the entry of that name. */
  lemma Contained(n: string, k: nat)
    requires SafeName(n) && k <= |Split(n)|
    ensures Walk(Split(n)[..k]).Some?
    ensures Walk(Split(n)) == Some(if Trim(n) == "." then [] else Split(Trim(n)))
  {
    hide Split, Trim, Join, SafeName, Walk, Proper;
    var parts := Split(Trim(n));
    TrimSplit(n);
    SafeParts(n);
    WalkPart(parts, if k < |parts| then k else |parts|);
    WalkStep(parts, "");
    if k < |parts| {
      assert Split(n)[..k] == parts[..k];
    } else {
      assert parts[..|parts|] == parts;
      assert Split(n)[..k] == parts || Split(n)[..k] == parts + [""];
    }
  }

  lemma WalkPart(parts: seq<string>, k: nat)
    requires k <= |parts|
    requires parts == ["."] || forall j :: 0 <= j < |parts| ==> Proper(parts[j])
    ensures Walk(parts[..k]).Some? && Walk(parts) == Some(if parts == ["."] then [] else parts)
  {
    if parts == ["."] {
      WalkStep([], ".");
      assert [] + ["."] == ["."];
      assert k == 1 ==> parts[..k] == parts;
    } else {
      WalkProper(parts);
      WalkProper(parts[..k]);
    }
  }

  // ---- Application metadata ----

  predicate PlistName(n: string) {
    var parts := Split(n);
    |parts| == 3 && parts[0] == "Payload" && HasSuffix(parts[1], ".app") && parts[2] == "Info.plist"
  }

  function App(n: string): string
    requires PlistName(n)
  {
    Split(n)[1]
  }

  lemma PlistParts(n: string) returns (a: string)
    requires PlistName(n)
    ensures '/' !in a && n == "Payload/" + a + ".app/Info.plist"
  {
    var p := Split(n)[1];
    a := p[..|p| - 4];
    assert p == a + ".app";
    assert Split(n) == ["Payload", p, "Info.plist"];
    hide Split, Join;
    JoinThree("Payload", p, "Info.plist");
    assert n == "Payload/" + a + ".app/Info.plist";
  }

  lemma PartsPlist(a: string)
    requires '/' !in a
    ensures PlistName("Payload/" + a + ".app/Info.plist")
  {
    var p := a + ".app";
    var parts := ["Payload", p, "Info.plist"];
    hide Split, Join;
    JoinThree("Payload", p, "Info.plist");
    assert "Payload/" + a + ".app/Info.plist" == Join(parts);
    SplitJoin(parts);
    assert p[|p| - 4..] == ".app";
  }

  /** A metadata entry is `Payload/<something>.app/Info.plist`, with nothing between. */
  lemma PlistForm(n: string)
    ensures PlistName(n) <==> exists a: string :: '/' !in a && n == "Payload/" + a + ".app/Info.plist"
  {
    hide PlistName;
    if PlistName(n) {
      var a := PlistParts(n);
    }
    if a: string :| '/' !in a && n == "Payload/" + a + ".app/Info.plist" {
      PartsPlist(a);
    }
  }

  lemma JoinThree(p: string, q: string, r: string)
    ensures Join([p, q, r]) == p + "/" + q + "/" + r
  {
    assert [p, q, r][1..] == [q, r];
    assert [q, r][1..] == [r];
    assert Join([q, r]) == q + "/" + r;
    assert p + "/" + (q + "/" + r) == p + "/" + q + "/" + r;
  }

  predicate Alnum(ch: char) {
    'A' <= ch <= 'Z' || 'a' <= ch <= 'z' || '0' <= ch <= '9'
  }

  /** Maximal runs between dots, at least two, each starting with a letter or digit. */
  predicate BundleId(s: string) {
    (exists k :: 0 < k < |s| && s[k] == '.')
    && s != "" && Alnum(s[0]) && s[|s| - 1] != '.'
    && forall k :: 0 <= k < |s| ==>
         (Alnum(s[k]) || s[k] == '-' || s[k] == '.') && (k > 0 && s[k - 1] == '.' ==> Alnum(s[k]))
  }

  // The same as a grammar: segments of letters, digits and hyphens, joined by dots.

  predicate Segment(p: string) {
    p != ""
    && ('A' <= p[0] <= 'Z' || 'a' <= p[0] <= 'z' || '0' <= p[0] <= '9')
    && forall k :: 0 <= k < |p| ==>
         'A' <= p[k] <= 'Z' || 'a' <= p[k] <= 'z' || '0' <= p[k] <= '9' || p[k] == '-'
  }

  function DotJoin(parts: seq<string>): string
    requires parts != []
  {
    if |parts| == 1 then parts[0] else parts[0] + "." + DotJoin(parts[1..])
  }

  ghost predicate Segments(parts: seq<string>) {
    parts != [] && forall k :: 0 <= k < |parts| ==> Segment(parts[k])
  }

  ghost predicate IsBundleId(s: string) {
    exists parts :: Segments(parts) && |parts| >= 2 && DotJoin(parts) == s
  }

  /** Every character is allowed, and every run between dots starts as it must. */
  predicate Dotted(s: string) {
    s != "" && Alnum(s[0]) && s[|s| - 1] != '.'
    && forall k :: 0 <= k < |s| ==>
         (Alnum(s[k]) || s[k] == '-' || s[k] == '.') && (k > 0 && s[k - 1] == '.' ==> Alnum(s[k]))
  }

  lemma {:induction false} DotSplit(s: string) returns (parts: seq<string>)
    requires Dotted(s)
    ensures Segments(parts) && DotJoin(parts) == s && (|parts| >= 2 <==> '.' in s)
  {
    if k :| 0 <= k < |s| && s[k] == '.' {
      var p := FirstDot(s, k);
      var rest := DotSplit(s[p + 1..]);
      parts := [s[..p]] + rest;
      assert parts[1..] == rest;
      assert s == s[..p] + "." + s[p + 1..];
    } else {
      parts := [s];
    }
  }

  lemma {:induction false} FirstDot(s: string, k: nat) returns (p: nat)
    requires k < |s| && s[k] == '.'
    ensures p <= k && s[p] == '.' && '.' !in s[..p]
  {
    if j :| 0 <= j < k && s[j] == '.' {
      p := FirstDot(s, j);
    } else {
      p := k;
    }
  }

  lemma {:induction false} JoinDotted(parts: seq<string>)
    requires Segments(parts)
    ensures Dotted(DotJoin(parts)) && (|parts| >= 2 ==> '.' in DotJoin(parts))
  {
    if |parts| > 1 {
      JoinDotted(parts[1..]);
      var s, p, rest := DotJoin(parts), parts[0], DotJoin(parts[1..]);
      assert s == p + "." + rest;
      assert s[|p|] == '.';
      forall k | 0 <= k < |s|
        ensures (Alnum(s[k]) || s[k] == '-' || s[k] == '.') && (k > 0 && s[k - 1] == '.' ==> Alnum(s[k]))
      {
        if k < |p| {
          assert s[k] == p[k];
        } else if k > |p| {
          assert s[k] == rest[k - |p| - 1];
        }
      }
    }
  }

  /** The test accepts exactly the identifiers of the grammar. */
  lemma BundleIdForm(s: string)
    ensures BundleId(s) <==> IsBundleId(s)
  {
    if BundleId(s) {
      var parts := DotSplit(s);
    }
    if IsBundleId(s) {
      var parts :| Segments(parts) && |parts| >= 2 && DotJoin(parts) == s;
      JoinDotted(parts);
      var k :| 0 <= k < |s| && s[k] == '.';
    }
  }

  predicate SafeMeta(m: Meta) {
    BundleId(m.id)
    && m.executable != "" && '/' !in m.executable && '\\' !in m.executable && '\0' !in m.executable
    && m.executable != "." && m.executable != ".."
  }

  /** Metadata of at most 1 MiB that names a bundle and, by a plain file name, its executable. */
  ghost predicate MetadataOk(f: Foreign, e: Entry) {
    e.size as nat <= 1048576 && e.content.Some? && |e.content.value| <= 1048576
    && f.plist(e.content.value).Some?
    && var m := f.plist(e.content.value).value;
    && IsBundleId(m.id)
    && m.executable != "" && m.executable != "." && m.executable != ".."
    && forall ch :: ch in m.executable ==> ch != '/' && ch != '\\' && ch != '\0'
  }

  // ---- The archive ----

  function Total(es: seq<Entry>): nat {
    if es == [] then 0 else Total(es[..|es| - 1]) + es[|es| - 1].size as nat
  }

  lemma {:induction false} TotalGrows(es: seq<Entry>, n: nat)
    requires n <= |es|
    ensures Total(es[..n]) <= Total(es)
    decreases |es|
  {
    if n < |es| {
      TotalGrows(es[..|es| - 1], n);
      assert es[..|es| - 1][..n] == es[..n];
    } else {
      assert es[..n] == es;
    }
  }

  /** Safe and unambiguous: no two entries meet on a file system that ignores case. */
  ghost predicate NamesOk(f: Foreign, es: seq<Entry>) {
    && (forall k :: 0 <= k < |es| ==>
          SafeName(es[k].name) && !es[k].mode.symlink && (es[k].mode.regular || es[k].mode.dir))
    && (forall j, k :: 0 <= j < k < |es| ==> f.lower(Trim(es[j].name)) != f.lower(Trim(es[k].name)))
  }

  ghost predicate PlistsOk(f: Foreign, es: seq<Entry>) {
    forall k :: 0 <= k < |es| && PlistName(es[k].name) ==> MetadataOk(f, es[k])
  }

  ghost predicate EntriesOk(f: Foreign, es: seq<Entry>) {
    NamesOk(f, es) && PlistsOk(f, es)
  }

  ghost predicate OneApp(es: seq<Entry>) {
    exists k :: 0 <= k < |es| && PlistName(es[k].name)
                && forall j :: 0 <= j < |es| && PlistName(es[j].name) ==> j == k
  }

  /** What an acceptable archive is, independent of the order of its entries. */
  ghost predicate Acceptable(file: File, limit: U64, f: Foreign) {
    file.Zip? && 1 <= |file.entries| <= 100000
    && EntriesOk(f, file.entries) && Total(file.entries) <= limit as nat && OneApp(file.entries)
  }

  /** Two metadata entries of one application would have the same name. */
  lemma SameApp(m: string, n: string)
    requires PlistName(m) && PlistName(n) && App(m) == App(n)
    ensures m == n
  {
    assert Split(m) == Split(n);
  }

  ghost predicate AppsOf(es: seq<Entry>, apps: set<string>) {
    (forall k :: 0 <= k < |es| && PlistName(es[k].name) ==> App(es[k].name) in apps)
    && forall a :: a in apps ==> exists k :: 0 <= k < |es| && PlistName(es[k].name) && App(es[k].name) == a
  }

  lemma OnlyApp(f: Foreign, es: seq<Entry>, j: nat, k: nat)
    requires EntriesOk(f, es) && j < |es| && k < |es|
    requires PlistName(es[j].name) && PlistName(es[k].name) && App(es[j].name) == App(es[k].name)
    ensures j == k
  {
    hide PlistName, App, SafeName, MetadataOk;
    SameApp(es[j].name, es[k].name);
    assert Key(f, es[j].name) == Key(f, es[k].name);
  }

  lemma CountedApps(f: Foreign, es: seq<Entry>, apps: set<string>)
    requires EntriesOk(f, es) && AppsOf(es, apps)
    ensures |apps| == 1 <==> OneApp(es)
  {
    hide EntriesOk, NamesOk, PlistsOk, PlistName, App;
    if |apps| == 1 {
      var a :| a in apps;
      assert |apps - {a}| == 0;
      assert forall b :: b in apps ==> b == a;
      var k :| 0 <= k < |es| && PlistName(es[k].name) && App(es[k].name) == a;
      forall j | 0 <= j < |es| && PlistName(es[j].name) ensures j == k {
        OnlyApp(f, es, j, k);
      }
    }
    if OneApp(es) {
      var k :| 0 <= k < |es| && PlistName(es[k].name)
               && forall j :: 0 <= j < |es| && PlistName(es[j].name) ==> j == k;
      assert apps == {App(es[k].name)};
    }
  }

  /** What the scan knows after `n` entries. */
  ghost predicate Scanned(f: Foreign, es: seq<Entry>, n: nat, seen: set<string>, expanded: nat, apps: set<string>)
    requires n <= |es|
  {
    && EntriesOk(f, es[..n])
    && (forall k :: 0 <= k < n ==> Key(f, es[k].name) in seen)
    && (forall s :: s in seen ==> exists k :: 0 <= k < n && Key(f, es[k].name) == s)
    && expanded == Total(es[..n]) && AppsOf(es[..n], apps)
  }

  ghost predicate EntryOk(f: Foreign, e: Entry) {
    SafeName(e.name) && !e.mode.symlink && (e.mode.regular || e.mode.dir) && (PlistName(e.name) ==> MetadataOk(f, e))
  }

  lemma ScanStart(f: Foreign, es: seq<Entry>)
    ensures Scanned(f, es, 0, {}, 0, {})
  {
  }

  lemma ScanEnds(f: Foreign, es: seq<Entry>, seen: set<string>, expanded: nat, apps: set<string>)
    requires Scanned(f, es, |es|, seen, expanded, apps)
    ensures EntriesOk(f, es) && expanded == Total(es) && (|apps| == 1 <==> OneApp(es))
  {
    assert es[..|es|] == es;
    CountedApps(f, es, apps);
  }

  lemma EntriesExtend(f: Foreign, es: seq<Entry>, e: Entry)
    requires EntriesOk(f, es) && EntryOk(f, e)
    requires forall k :: 0 <= k < |es| ==> Key(f, es[k].name) != Key(f, e.name)
    ensures EntriesOk(f, es + [e])
  {
    hide SafeName, MetadataOk, PlistName;
  }

  lemma AppsExtend(es: seq<Entry>, e: Entry, apps: set<string>)
    requires AppsOf(es, apps)
    ensures AppsOf(es + [e], if PlistName(e.name) then apps + {App(e.name)} else apps)
  {
    hide PlistName, App;
    var more := es + [e];
    assert forall k :: 0 <= k < |es| ==> more[k] == es[k];
    assert more[|es|] == e;
  }

  /** An entry that passes all tests extends what is known. */
  lemma ScanStep(f: Foreign, es: seq<Entry>, n: nat, seen: set<string>, expanded: nat, apps: set<string>)
    requires n < |es| && Scanned(f, es, n, seen, expanded, apps)
    requires EntryOk(f, es[n]) && Key(f, es[n].name) !in seen
    ensures Scanned(f, es, n + 1, seen + {Key(f, es[n].name)}, expanded + es[n].size as nat,
                    if PlistName(es[n].name) then apps + {App(es[n].name)} else apps)
  {
    hide SafeName, MetadataOk, PlistName, App;
    assert es[..n + 1] == es[..n] + [es[n]];
    hide EntriesOk, AppsOf;
    EntriesExtend(f, es[..n], es[n]) by {
      forall k | 0 <= k < n ensures Key(f, es[..n][k].name) != Key(f, es[n].name) {
      }
    }
    AppsExtend(es[..n], es[n], apps);
    assert Total(es[..n + 1]) == Total(es[..n]) + es[n].size as nat by {
      assert es[..n + 1][..n] == es[..n];
    }
  }

  /** An entry that fails one of them spoils the archive. */
  lemma ScanStops(f: Foreign, es: seq<Entry>, n: nat, seen: set<string>, expanded: nat, apps: set<string>)
    requires n < |es| && Scanned(f, es, n, seen, expanded, apps)
    ensures !SafeName(es[n].name) || Key(f, es[n].name) in seen ==> !NamesOk(f, es)
    ensures es[n].mode.symlink || (!es[n].mode.regular && !es[n].mode.dir) ==> !NamesOk(f, es)
    ensures PlistName(es[n].name) && !MetadataOk(f, es[n]) ==> !PlistsOk(f, es)
    ensures expanded + es[n].size as nat <= Total(es)
  {
    hide SafeName, MetadataOk, PlistName, App;
    assert es[..n + 1][..n] == es[..n];
    TotalGrows(es, n + 1);
  }

  /** At most the first byte past the limit is read. */
  function Limited(content: Bytes): Bytes {
    if |content| <= MaxMetadata then content else content[..MaxMetadata + 1]
  }

  method CheckMetadata(e: Entry, f: Foreign) returns (v: Verdict)
    ensures v == Accepted <==> MetadataOk(f, e)
    ensures v == MetadataLimit <==> e.size as nat > 1048576
    ensures v == InvalidMetadata <==>
            e.size as nat <= 1048576 && (e.content.None? || |e.content.value| > 1048576)
    ensures v == Accepted || v == MetadataLimit || v == InvalidMetadata || v == UnsafeMetadata
  {
    if e.size > 1048576 {
      return MetadataLimit;
    }
    if e.content.None? {
      return InvalidMetadata;
    }
    var data := Limited(e.content.value);
    if |data| > MaxMetadata {
      return InvalidMetadata;
    }
    var meta := f.plist(data);
    if meta.Some? {
      BundleIdForm(meta.value.id);
    }
    hide BundleId, IsBundleId;
    return if meta.Some? && SafeMeta(meta.value) then Accepted else UnsafeMetadata;
  }

  /** Accepts exactly the acceptable archives, and the size budget never wraps. */
  method ValidateIPA(file: File, limit: U64, f: Foreign) returns (v: Verdict)
    ensures v == Accepted <==> Acceptable(file, limit, f)
    ensures v == NotARegularFile <==> file.NotRegular?
    ensures v == InvalidArchive <==> file.NotZip?
    ensures v == EntryLimit <==> file.Zip? && !(1 <= |file.entries| <= 100000)
    ensures v == UnsafeEntry ==> !NamesOk(f, file.entries)
    ensures v == ExpandedLimit ==> Total(file.entries) > limit as nat
    ensures v == MetadataLimit || v == InvalidMetadata || v == UnsafeMetadata ==> !PlistsOk(f, file.entries)
    ensures v == NotOneApp <==>
            file.Zip? && 1 <= |file.entries| <= 100000 && EntriesOk(f, file.entries)
            && Total(file.entries) <= limit as nat && !OneApp(file.entries)
  {
    hide NamesOk, PlistsOk, OneApp, AppsOf, Scanned, Total;
    hide SafeName, UnsafeName, PlistName, App, Key, MetadataOk;
    if file.NotRegular? {
      return NotARegularFile;
    }
    if file.NotZip? {
      return InvalidArchive;
    }
    var es := file.entries;
    if |es| == 0 || |es| > MaxEntries {
      return EntryLimit;
    }
    var seen: set<string>, apps: set<string> := {}, {};
    var expanded: U64 := 0;
    var i := 0;
    assert Scanned(f, es, 0, seen, 0, apps) by { ScanStart(f, es); }
    while i < |es|
      invariant i <= |es| && expanded <= limit
      invariant Scanned(f, es, i, seen, expanded as nat, apps)
    {
      var e := es[i];
      var key := Key(f, e.name);
      NameTest(e.name);
      ScanStops(f, es, i, seen, expanded as nat, apps);
      if UnsafeName(e.name) || key in seen || e.mode.symlink || (!e.mode.regular && !e.mode.dir) {
        return UnsafeEntry;
      }
      if e.size > limit - expanded {
        return ExpandedLimit;
      }
      if PlistName(e.name) {
        var meta := CheckMetadata(e, f);
        if meta != Accepted {
          return meta;
        }
      }
      ScanStep(f, es, i, seen, expanded as nat, apps);
      seen, expanded := seen + {key}, expanded + e.size;
      if PlistName(e.name) {
        apps := apps + {App(e.name)};
      }
      i := i + 1;
    }
    ScanEnds(f, es, seen, expanded as nat, apps);
    return if |apps| == 1 then Accepted else NotOneApp;
  }
}
