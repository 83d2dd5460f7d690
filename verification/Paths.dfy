/** Slash-separated names: splitting, lexical cleaning, and where a name leads. */
module Paths {
  import opened Model

  function Join(parts: seq<string>): string
    requires parts != []
  {
    if |parts| == 1 then parts[0] else parts[0] + "/" + Join(parts[1..])
  }

  ghost predicate SlashFree(parts: seq<string>) {
    forall k :: 0 <= k < |parts| ==> '/' !in parts[k]
  }

  function Split(s: string): (parts: seq<string>)
    ensures parts != [] && SlashFree(parts) && Join(parts) == s
  {
    if s == "" then [""]
    else
      var rest := Split(s[1..]);
      if s[0] == '/' then [""] + rest
      else
        var parts := [[s[0]] + rest[0]] + rest[1..];
        assert forall k :: 1 <= k < |parts| ==> parts[k] == rest[k];
        assert parts[1..] == rest[1..];
        parts
  }

  /** There is only one way to split a name. */
  lemma {:induction false} SplitJoin(parts: seq<string>)
    requires parts != [] && SlashFree(parts)
    ensures Split(Join(parts)) == parts
    decreases |Join(parts)|
  {
    var s, rest := parts[0], Split(Join(parts));
    if s == "" {
      if |parts| > 1 {
        assert Join(parts)[1..] == Join(parts[1..]);
        SplitJoin(parts[1..]);
      }
    } else {
      var fewer := [s[1..]] + parts[1..];
      assert fewer[1..] == parts[1..];
      assert Join(parts)[0] == s[0] && Join(parts)[1..] == Join(fewer);
      assert s[0] in s && forall ch :: ch in s[1..] ==> ch in s;
      SplitJoin(fewer);
      assert [s[0]] + s[1..] == s;
    }
  }

  // ---- Lexical cleaning of a relative name ----

  /** What one element does to the elements kept so far. */
  function Push(kept: seq<string>, part: string): seq<string> {
    if part == "" || part == "." then kept
    else if part == ".." && kept != [] && kept[|kept| - 1] != ".." then kept[..|kept| - 1]
    else kept + [part]
  }

  function Reduce(parts: seq<string>): (kept: seq<string>)
    ensures |kept| <= |parts|
  {
    if parts == [] then [] else Push(Reduce(parts[..|parts| - 1]), parts[|parts| - 1])
  }

  /** The shortest equivalent name, as `path.Clean` defines it for a name that is not rooted. */
  function Clean(s: string): string {
    var kept := Reduce(Split(s));
    if kept == [] then "." else Join(kept)
  }

  /** No empty element, no `.`, and `..` only after nothing but `..`. */
  predicate Normal(parts: seq<string>) {
    forall k :: 0 <= k < |parts| ==>
      parts[k] != "" && parts[k] != "." && (parts[k] == ".." && k > 0 ==> parts[k - 1] == "..")
  }

  /** Cleaning leaves nothing to clean. */
  lemma {:induction false} ReducedNormal(parts: seq<string>)
    ensures Normal(Reduce(parts))
  {
    if parts != [] {
      ReducedNormal(parts[..|parts| - 1]);
      var kept := Reduce(parts[..|parts| - 1]);
      PushNormal(kept, parts[|parts| - 1]);
    }
  }

  lemma PushNormal(kept: seq<string>, part: string)
    requires Normal(kept)
    ensures Normal(Push(kept, part))
  {
  }

  lemma {:induction false} NormalReduces(parts: seq<string>)
    requires Normal(parts)
    ensures Reduce(parts) == parts
  {
    if parts != [] {
      var init := parts[..|parts| - 1];
      NormalReduces(init);
      assert parts == init + [parts[|parts| - 1]];
    }
  }

  lemma ReducedSlashFree(parts: seq<string>)
    requires SlashFree(parts)
    ensures SlashFree(Reduce(parts))
  {
  }

  /** A name is its own clean form exactly when it is `.` or its elements are normal. */
  lemma CleanFixed(s: string)
    ensures Clean(s) == s <==> s == "." || Normal(Split(s))
  {
    var parts := Split(s);
    ReducedNormal(parts);
    if Normal(parts) {
      NormalReduces(parts);
    }
    ReducedSlashFree(parts);
    SplitJoin([""]);
    SplitJoin(["."]);
    if Reduce(parts) != [] {
      SplitJoin(Reduce(parts));
    }
  }

  // ---- Where a name leads ----

  /** The directory a walk from the root ends in, or `None` once it has left the root. */
  function Walk(parts: seq<string>): Option<seq<string>> {
    if parts == [] then Some([])
    else
      var before, part := Walk(parts[..|parts| - 1]), parts[|parts| - 1];
      if before.None? || part == "" || part == "." then before
      else if part == ".." then
        if before.value == [] then None else Some(before.value[..|before.value| - 1])
      else Some(before.value + [part])
  }

  predicate Proper(part: string) {
    part != "" && part != "." && part != ".."
  }

  lemma {:induction false} WalkProper(parts: seq<string>)
    requires forall k :: 0 <= k < |parts| ==> Proper(parts[k])
    ensures Walk(parts) == Some(parts)
  {
    if parts != [] {
      WalkProper(parts[..|parts| - 1]);
      assert parts == parts[..|parts| - 1] + [parts[|parts| - 1]];
    }
  }
}
