/**
 * The project list shown by the Open and Save-as dialogs (get_projects in
 * apps/motionscope/main.py), computed over the names found in the media
 * directory.
 */
module Projects {

  /** p.split(".")[0]: the part of a file name before its first dot. */
  function Stem(name: string): (r: string)
    ensures '.' !in r && r <= name
    ensures r == name || name[|r|] == '.'
  {
    if name == [] || name[0] == '.' then [] else [name[0]] + Stem(name[1..])
  }

  /** The stem of a dot-free name followed by an extension is that name. */
  lemma {:induction false} StemOfDotted(p: string, ext: string)
    requires '.' !in p
    ensures Stem(p + "." + ext) == p
    decreases |p|
  {
    if p != [] {
      assert (p + "." + ext)[1..] == p[1..] + "." + ext;
      StemOfDotted(p[1..], ext);
    }
  }

  /** Python's string comparison: lexicographic by code point. */
  predicate Less(a: string, b: string)
  {
    if a == [] then b != []
    else b != [] && (a[0] < b[0] || (a[0] == b[0] && Less(a[1..], b[1..])))
  }

  lemma {:induction false} LessIrreflexive(a: string)
    ensures !Less(a, a)
    decreases |a|
  {
    if a != [] { LessIrreflexive(a[1..]); }
  }

  lemma {:induction false} LessTransitive(a: string, b: string, c: string)
    requires Less(a, b) && Less(b, c)
    ensures Less(a, c)
    decreases |a|
  {
    if a != [] && a[0] == b[0] && b[0] == c[0] {
      LessTransitive(a[1..], b[1..], c[1..]);
    }
  }

  lemma {:induction false} LessTotal(a: string, b: string)
    ensures a == b || Less(a, b) || Less(b, a)
    decreases |a|
  {
    if a != [] && b != [] && a[0] == b[0] {
      LessTotal(a[1..], b[1..]);
      if a[1..] == b[1..] {
        assert a == [a[0]] + a[1..] && b == [b[0]] + b[1..];
      }
    }
  }

  /** Sorted ascending with no name twice. */
  predicate StrictlySorted(s: seq<string>)
  {
    forall i, j :: 0 <= i < j < |s| ==> Less(s[i], s[j])
  }

  /** Inserts x into a sorted list unless it is already there. */
  function Insert(x: string, s: seq<string>): (r: seq<string>)
    requires StrictlySorted(s)
    ensures StrictlySorted(r)
    ensures forall y :: y in r <==> y == x || y in s
  {
    if s == [] then [x]
    else if x == s[0] then s
    else if Less(x, s[0]) then
      assert forall j :: 0 < j < |s| ==> Less(x, s[j]) by {
        forall j | 0 < j < |s| ensures Less(x, s[j]) { LessTransitive(x, s[0], s[j]); }
      }
      [x] + s
    else
      LessTotal(x, s[0]);
      var t := Insert(x, s[1..]);
      assert forall y :: y in t ==> Less(s[0], y);
      [s[0]] + t
  }

  /** sorted(set(names)) */
  function SortUnique(names: seq<string>): (r: seq<string>)
    ensures StrictlySorted(r)
    ensures forall y :: y in r <==> y in names
  {
    if names == [] then [] else Insert(names[0], SortUnique(names[1..]))
  }

  /** Stems of the names in `listed` whose `<stem>.data` is among `all`, in listing order. */
  function CandidatesOf(listed: seq<string>, all: seq<string>): seq<string>
    decreases |listed|
  {
    if listed == [] then []
    else
      var p := Stem(listed[0]);
      (if p + ".data" in all then [p] else []) + CandidatesOf(listed[1..], all)
  }

  /** p is a candidate of `listed` exactly when it is some listed name's stem and `<p>.data` is in `all`. */
  lemma {:induction false} CandidatesMembers(listed: seq<string>, all: seq<string>, p: string)
    ensures p in CandidatesOf(listed, all) <==> (exists f :: f in listed && Stem(f) == p) && p + ".data" in all
    decreases |listed|
  {
    if listed != [] {
      CandidatesMembers(listed[1..], all, p);
      if p in CandidatesOf(listed[1..], all) {
        var f :| f in listed[1..] && Stem(f) == p;
        assert f in listed;
      }
      if (exists f :: f in listed && Stem(f) == p) && p !in CandidatesOf(listed[1..], all) {
        var f :| f in listed && Stem(f) == p;
        if f != listed[0] {
          assert f in listed[1..];
        }
      }
    }
  }

  /** A stem is a candidate exactly when it is dot-free and its `.data` file is listed. */
  lemma CandidateIsProject(files: seq<string>, p: string)
    ensures p in CandidatesOf(files, files) <==> '.' !in p && p + ".data" in files
  {
    CandidatesMembers(files, files, p);
    if p in CandidatesOf(files, files) {
      var f :| f in files && Stem(f) == p;
    }
    if '.' !in p && p + ".data" in files {
      StemOfDotted(p, "data");
      assert p + ".data" == p + "." + "data";
    }
  }

  /**
   * get_projects over the directory listing: the stems that have a
   * `.data` file, without duplicates, in ascending order. A name is a
   * project exactly when it has no dot and `<name>.data` is listed.
   */
  function GetProjects(files: seq<string>): (r: seq<string>)
    ensures StrictlySorted(r)
    ensures forall p :: p in r <==> '.' !in p && p + ".data" in files
  {
    var c := CandidatesOf(files, files);
    assert forall p :: p in c <==> '.' !in p && p + ".data" in files by {
      forall p ensures p in c <==> '.' !in p && p + ".data" in files {
        CandidateIsProject(files, p);
      }
    }
    SortUnique(c)
  }

  lemma SameMembersSameEmptiness(a: seq<string>, b: seq<string>)
    requires forall y :: y in a <==> y in b
    ensures a == [] <==> b == []
  {
    if a != [] { assert a[0] in b; }
    if b != [] { assert b[0] in a; }
  }

  /** Two strictly sorted lists with the same names are the same list. */
  lemma {:induction false} SortedListsEqual(a: seq<string>, b: seq<string>)
    requires StrictlySorted(a) && StrictlySorted(b)
    requires forall y :: y in a <==> y in b
    ensures a == b
    decreases |a|
  {
    SameMembersSameEmptiness(a, b);
    if a != [] {
      assert a[0] in b;
      assert b != [];
      assert b[0] in a;
      if a[0] != b[0] {
        var j :| 0 <= j < |b| && b[j] == a[0];
        var i :| 0 <= i < |a| && a[i] == b[0];
        assert Less(b[0], a[0]) && Less(a[0], b[0]);
        LessTransitive(a[0], b[0], a[0]);
        LessIrreflexive(a[0]);
      }
      forall y ensures y in a[1..] <==> y in b[1..] {
        LessIrreflexive(a[0]);
        if y in a[1..] {
          var i :| 0 <= i < |a[1..]| && a[1..][i] == y;
          assert Less(a[0], a[i + 1]);
          assert y in b;
          var j :| 0 <= j < |b| && b[j] == y;
          assert j != 0;
          assert b[1..][j - 1] == y;
        }
        if y in b[1..] {
          var j :| 0 <= j < |b[1..]| && b[1..][j] == y;
          assert Less(b[0], b[j + 1]);
          assert y in a;
          var i :| 0 <= i < |a| && a[i] == y;
          assert i != 0;
          assert a[1..][i - 1] == y;
        }
      }
      SortedListsEqual(a[1..], b[1..]);
      assert a == [a[0]] + a[1..] && b == [b[0]] + b[1..];
    }
  }

  /**
   * The project list is determined by its members: any ascending,
   * duplicate-free list of exactly the dot-free names with a `.data` file
   * is the list get_projects returns.
   */
  lemma ProjectsUnique(files: seq<string>, r: seq<string>)
    requires StrictlySorted(r)
    requires forall p :: p in r <==> '.' !in p && p + ".data" in files
    ensures r == GetProjects(files)
  {
    SortedListsEqual(r, GetProjects(files));
  }
}
