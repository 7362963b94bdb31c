/** The part of `std::path` the resolvers use, with Unix semantics: `/` is the only
    separator and a path is absolute when it starts with `/`. Also the two list
    operations every resolver shares: de-duplication by path text and
    "first candidate that satisfies a test". */
module Paths {
  import opened Wrappers

  predicate IsAbsolute(p: string) {
    |p| > 0 && p[0] == '/'
  }

  /** `Path::join` / `PathBuf::push`: an absolute right-hand side replaces the
      base; otherwise a separator is inserted unless the base is empty or already
      ends with one (so joining `""` leaves a trailing separator). */
  function Join(base: string, rel: string): (r: string)
    ensures IsAbsolute(rel) ==> r == rel
    ensures !IsAbsolute(rel) && base != [] ==> |r| >= |base| && r[..|base|] == base
  {
    if IsAbsolute(rel) then rel
    else if base == [] then rel
    else if base[|base| - 1] == '/' then base + rel
    else base + "/" + rel
  }

  /** The pieces of `p` between separators, empty ones included. */
  function Segments(p: string): (r: seq<string>)
    ensures |r| >= 1
    ensures forall k :: 0 <= k < |r| ==> '/' !in r[k]
  {
    if p == [] then [""]
    else if p[0] == '/' then [""] + Segments(p[1..])
    else
      var rest := Segments(p[1..]);
      [[p[0]] + rest[0]] + rest[1..]
  }

  /** The segments that become `Normal` or `ParentDir` components: empty
      segments and `.` are dropped. */
  function Named(segs: seq<string>): (r: seq<string>)
    ensures |r| <= |segs|
    ensures forall k :: 0 <= k < |r| ==> r[k] != "" && r[k] != "."
  {
    if segs == [] then []
    else if segs[0] == "" || segs[0] == "." then Named(segs[1..])
    else [segs[0]] + Named(segs[1..])
  }

  /** `components().count()`: a root or a leading `.` is one component, then one
      per named segment. */
  function ComponentCount(p: string): nat {
    var segs := Segments(p);
    (if IsAbsolute(p) || (p != [] && segs[0] == ".") then 1 else 0) + |Named(segs)|
  }

  /** `Path::file_name`: the last named segment, unless it is `..`. */
  function FileName(p: string): (r: Option<string>)
    ensures r.Some? ==> r.value != "" && r.value != "." && r.value != ".." && '/' !in r.value
  {
    var named := Named(Segments(p));
    if named == [] || named[|named| - 1] == ".." then None
    else
      assert named[|named| - 1] in Named(Segments(p));
      NamedInSegments(Segments(p), named[|named| - 1]);
      Some(named[|named| - 1])
  }

  lemma {:induction false} NamedInSegments(segs: seq<string>, x: string)
    requires x in Named(segs)
    ensures x in segs
  {
    if segs != [] && x != segs[0] {
      NamedInSegments(segs[1..], x);
    }
  }

  lemma {:induction false} SegmentsWithoutSeparator(p: string)
    requires '/' !in p
    ensures Segments(p) == [p]
  {
    if p != [] {
      assert p[0] in p && '/' !in p[1..];
      SegmentsWithoutSeparator(p[1..]);
      assert [p[0]] + p[1..] == p;
    }
  }

  /** A bare name such as `whisper-cli` is a single component, which the binary
      resolver treats as "found on PATH". */
  lemma BareNameIsOneComponent(p: string)
    requires p != [] && p != "." && '/' !in p
    ensures ComponentCount(p) == 1
  {
    SegmentsWithoutSeparator(p);
  }

  /** A path with a separator between two names has more than one component. */
  lemma SeparatedNamesAreSeveralComponents(a: string, b: string)
    requires a != [] && a != "." && '/' !in a
    requires b != [] && b != "." && '/' !in b
    ensures ComponentCount(a + "/" + b) == 2
  {
    SegmentsWithoutSeparator(a);
    SegmentsWithoutSeparator(b);
    var p := a + "/" + b;
    SegmentsOfJoined(a, b);
    assert p[0] == a[0] && a[0] in a;
    assert [a, b][1..] == [b] && [b][1..] == [];
    assert Named([a, b]) == [a, b];
  }

  /** The file name of `dir/name` is `name`. */
  lemma FileNameOfJoined(a: string, b: string)
    requires '/' !in a
    requires b != [] && b != "." && b != ".." && '/' !in b
    ensures FileName(a + "/" + b) == Some(b)
  {
    SegmentsOfJoined(a, b);
    assert [a, b][1..] == [b] && [b][1..] == [];
    assert Named([b]) == [b];
  }

  lemma {:induction false} SegmentsOfJoined(a: string, b: string)
    requires '/' !in a && '/' !in b
    ensures Segments(a + "/" + b) == [a, b]
  {
    if a == [] {
      assert a + "/" + b == "/" + b;
      assert ("/" + b)[1..] == b;
      SegmentsWithoutSeparator(b);
    } else {
      assert (a + "/" + b)[1..] == a[1..] + "/" + b;
      SegmentsOfJoined(a[1..], b);
      assert [a[0]] + a[1..] == a;
    }
  }

  /** The file names of the two bundled default model paths. */
  lemma FileNameOfFastModel()
    ensures FileName("models/ggml-tiny.en-q8_0.bin") == Some("ggml-tiny.en-q8_0.bin")
  {
    assert '/' !in "ggml-tiny.en-q8_0.bin";
    FileNameOfJoined("models", "ggml-tiny.en-q8_0.bin");
    assert "models/ggml-tiny.en-q8_0.bin" == "models" + "/" + "ggml-tiny.en-q8_0.bin";
  }

  lemma FileNameOfBalancedModel()
    ensures FileName("models/ggml-base.en-q5_1.bin") == Some("ggml-base.en-q5_1.bin")
  {
    assert '/' !in "ggml-base.en-q5_1.bin";
    FileNameOfJoined("models", "ggml-base.en-q5_1.bin");
    assert "models/ggml-base.en-q5_1.bin" == "models" + "/" + "ggml-base.en-q5_1.bin";
  }

  predicate Distinct(s: seq<string>) {
    forall i, j :: 0 <= i < j < |s| ==> s[i] != s[j]
  }

  /** Keeps the first occurrence of every path and drops later repeats, in order
      (the `HashSet::insert` filter of `dedupe_paths`). */
  function Dedupe(s: seq<string>): (r: seq<string>)
    ensures Distinct(r)
    ensures forall x :: x in r <==> x in s
    ensures |r| <= |s|
  {
    if s == [] then []
    else
      var r := Dedupe(s[..|s| - 1]);
      assert forall x :: x in s <==> x in s[..|s| - 1] || x == s[|s| - 1];
      if s[|s| - 1] in r then r else r + [s[|s| - 1]]
  }

  /** De-duplicating a longer list keeps the de-duplicated shorter list in front:
      in particular the first candidate stays first. */
  lemma {:induction false} DedupeKeepsPrefix(a: seq<string>, b: seq<string>)
    ensures |Dedupe(a)| <= |Dedupe(a + b)|
    ensures Dedupe(a + b)[..|Dedupe(a)|] == Dedupe(a)
    decreases |b|
  {
    if b == [] {
      assert a + b == a;
    } else {
      var b' := b[..|b| - 1];
      DedupeKeepsPrefix(a, b');
      assert (a + b)[..|a + b| - 1] == a + b';
    }
  }

  lemma DedupeKeepsFirst(s: seq<string>)
    requires s != []
    ensures Dedupe(s) != [] && Dedupe(s)[0] == s[0]
  {
    DedupeKeepsPrefix([s[0]], s[1..]);
    assert [s[0]] + s[1..] == s;
    assert Dedupe([s[0]]) == [s[0]] by {
      assert [s[0]][..0] == [];
    }
  }

  /** A list without repeats is left as it is. */
  lemma {:induction false} DedupeOfDistinct(s: seq<string>)
    requires Distinct(s)
    ensures Dedupe(s) == s
  {
    if s != [] {
      DedupeOfDistinct(s[..|s| - 1]);
      assert s[|s| - 1] !in s[..|s| - 1];
    }
  }

  /** The position of the first occurrence of `x`. */
  function FirstIndex(s: seq<string>, x: string): (i: nat)
    requires x in s
    ensures i < |s| && s[i] == x && x !in s[..i]
  {
    if s[0] == x then 0 else 1 + FirstIndex(s[1..], x)
  }

  /** The kept paths appear in the order of their first occurrence. */
  lemma {:induction false} DedupeOrdersByFirstOccurrence(s: seq<string>, i: nat, j: nat)
    requires i < j < |Dedupe(s)|
    ensures FirstIndex(s, Dedupe(s)[i]) < FirstIndex(s, Dedupe(s)[j])
  {
    var init := s[..|s| - 1];
    var r := Dedupe(init);
    var x, y := Dedupe(s)[i], Dedupe(s)[j];
    assert x in init by {
      assert x == r[i];
    }
    FirstIndexOfPrefix(init, s, x);
    if j < |r| {
      DedupeOrdersByFirstOccurrence(init, i, j);
      FirstIndexOfPrefix(init, s, y);
    } else {
      assert y == s[|s| - 1] && y !in init;
      assert FirstIndex(s, y) == |s| - 1 by {
        assert s[..|s| - 1] == init;
      }
    }
  }

  lemma FirstIndexOfPrefix(init: seq<string>, s: seq<string>, x: string)
    requires s != [] && init == s[..|s| - 1] && x in init
    ensures FirstIndex(s, x) == FirstIndex(init, x)
  {
    var k := FirstIndex(init, x);
    assert s[..k] == init[..k];
    FirstIndexUnique(s, x, k);
  }

  lemma FirstIndexUnique(s: seq<string>, x: string, k: nat)
    requires k < |s| && s[k] == x && x !in s[..k]
    ensures FirstIndex(s, x) == k
  {
  }

  /** `for c in candidates { if p(c) { return Some(c) } } None` as a value. */
  function FirstWhere<T(==)>(s: seq<T>, p: T -> bool): (r: Option<T>)
    ensures r.Some? ==> r.value in s && p(r.value)
    ensures r.None? <==> forall i :: 0 <= i < |s| ==> !p(s[i])
    ensures r.Some? ==> exists k :: 0 <= k < |s| && s[k] == r.value
                               && forall i :: 0 <= i < k ==> !p(s[i])
  {
    if s == [] then None
    else if p(s[0]) then
      Some(s[0])
    else
      var r := FirstWhere(s[1..], p);
      assert forall i :: 1 <= i < |s| ==> s[i] == s[1..][i - 1];
      if r.Some? then
        var k :| 0 <= k < |s[1..]| && s[1..][k] == r.value && forall i :: 0 <= i < k ==> !p(s[1..][i]);
        assert s[k + 1] == r.value && forall i :: 0 <= i < k + 1 ==> !p(s[i]);
        r
      else r
  }

  /** The loop shared by the candidate resolvers: the first element of
      `candidates` that passes `test`. */
  method FirstMatch<T(==)>(candidates: seq<T>, test: T -> bool) returns (found: Option<T>)
    ensures found == FirstWhere(candidates, test)
  {
    var i := 0;
    while i < |candidates|
      invariant 0 <= i <= |candidates|
      invariant FirstWhere(candidates, test) == FirstWhere(candidates[i..], test)
    {
      if test(candidates[i]) {
        return Some(candidates[i]);
      }
      assert candidates[i..][1..] == candidates[i + 1..];
      i := i + 1;
    }
    return None;
  }

  /** The `seen`-set filter of `dedupe_paths`, run over the list once. */
  method DedupePaths(paths: seq<string>) returns (kept: seq<string>)
    ensures kept == Dedupe(paths)
  {
    var seen: set<string> := {};
    kept := [];
    var i := 0;
    while i < |paths|
      invariant 0 <= i <= |paths|
      invariant kept == Dedupe(paths[..i])
      invariant forall x :: x in seen <==> x in kept
    {
      assert paths[..i + 1][..i] == paths[..i];
      if paths[i] !in seen {
        seen := seen + {paths[i]};
        kept := kept + [paths[i]];
      }
      i := i + 1;
    }
    assert paths[..i] == paths;
  }
}
