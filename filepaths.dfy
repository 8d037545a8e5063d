/**
 * The part of Go's path cleaning that the plugin file lookups rely on: cleaning
 * a ROOTED path with '/' as the only separator. CleanRooted(rel) is the result
 * of cleaning "/" + rel: empty and "." elements are dropped, ".." removes the
 * element before it, and ".." at the root is dropped.
 */
module FilePaths {

  /** True of a path element that cleaning keeps. */
  predicate IsPlainElement(e: string)
  {
    e != "" && e != "." && e != ".." && '/' !in e
  }

  /** Splits at every '/'; "" splits into one empty element. */
  function Split(s: string): (parts: seq<string>)
    ensures |parts| >= 1
    ensures forall i :: 0 <= i < |parts| ==> '/' !in parts[i]
  {
    if s == [] then [[]]
    else
      var rest := Split(s[1..]);
      if s[0] == '/' then [[]] + rest
      else [[s[0]] + rest[0]] + rest[1..]
  }

  /** Joins elements with '/' between them. */
  function Join(parts: seq<string>): string
  {
    if |parts| == 0 then []
    else if |parts| == 1 then parts[0]
    else parts[0] + "/" + Join(parts[1..])
  }

  /** Processes the elements of a rooted path one by one, onto the elements kept so far. */
  function Resolve(kept: seq<string>, elems: seq<string>): (r: seq<string>)
    requires forall i :: 0 <= i < |kept| ==> IsPlainElement(kept[i])
    requires forall i :: 0 <= i < |elems| ==> '/' !in elems[i]
    ensures forall i :: 0 <= i < |r| ==> IsPlainElement(r[i])
    decreases |elems|
  {
    if elems == [] then kept
    else
      var e := elems[0];
      var next :=
        if e == "" || e == "." then kept
        else if e == ".." then (if kept == [] then [] else kept[..|kept| - 1])
        else kept + [e];
      Resolve(next, elems[1..])
  }

  /** The elements of the cleaned form of "/" + rel. */
  function CleanElements(rel: string): (elems: seq<string>)
    ensures forall i :: 0 <= i < |elems| ==> IsPlainElement(elems[i])
  {
    Resolve([], Split(rel))
  }

  /**
   * The cleaned form of "/" + rel: it is rooted, and none of its elements is
   * empty, "." or "..", so it never climbs above the root.
   */
  function CleanRooted(rel: string): (p: string)
    ensures |p| >= 1 && p[0] == '/'
    ensures p[1..] == Join(CleanElements(rel))
  {
    "/" + Join(CleanElements(rel))
  }

  /** Join undoes Split. */
  lemma {:induction false} JoinSplit(s: string)
    ensures Join(Split(s)) == s
  {
    if s != [] {
      JoinSplit(s[1..]);
      var rest := Split(s[1..]);
      if s[0] == '/' {
        assert Split(s) == [[]] + rest;
        assert Join(Split(s)) == [] + "/" + Join(rest);
      } else {
        if |rest| == 1 {
          assert Join(Split(s)) == [s[0]] + rest[0];
        } else {
          assert rest == [rest[0]] + rest[1..];
          assert Join(rest) == rest[0] + "/" + Join(rest[1..]);
          assert Join(Split(s)) == [s[0]] + rest[0] + "/" + Join(rest[1..]);
        }
      }
    }
  }

  /** A string without '/' is a single element. */
  lemma {:induction false} SplitNoSeparator(s: string)
    requires '/' !in s
    ensures Split(s) == [s]
  {
    if s != [] {
      assert '/' !in s[1..];
      SplitNoSeparator(s[1..]);
      assert s == [s[0]] + s[1..];
    }
  }

  /** Splitting at the first '/' of a string. */
  lemma {:induction false} SplitAtSeparator(a: string, b: string)
    requires '/' !in a
    ensures Split(a + "/" + b) == [a] + Split(b)
  {
    if a == [] {
      assert [] + "/" + b == "/" + b;
      assert ("/" + b)[1..] == b;
    } else {
      assert '/' !in a[1..];
      SplitAtSeparator(a[1..], b);
      assert (a + "/" + b)[1..] == a[1..] + "/" + b;
      assert a == [a[0]] + a[1..];
    }
  }

  /** Split undoes Join on elements without separators. */
  lemma {:induction false} SplitJoin(parts: seq<string>)
    requires |parts| >= 1
    requires forall i :: 0 <= i < |parts| ==> '/' !in parts[i]
    ensures Split(Join(parts)) == parts
  {
    if |parts| == 1 {
      SplitNoSeparator(parts[0]);
    } else {
      SplitJoin(parts[1..]);
      SplitAtSeparator(parts[0], Join(parts[1..]));
      assert parts == [parts[0]] + parts[1..];
    }
  }

  /** Plain elements pass through Resolve unchanged. */
  lemma {:induction false} ResolvePlain(kept: seq<string>, elems: seq<string>)
    requires forall i :: 0 <= i < |kept| ==> IsPlainElement(kept[i])
    requires forall i :: 0 <= i < |elems| ==> IsPlainElement(elems[i])
    requires forall i :: 0 <= i < |elems| ==> '/' !in elems[i]
    ensures Resolve(kept, elems) == kept + elems
    decreases |elems|
  {
    if elems != [] {
      ResolvePlain(kept + [elems[0]], elems[1..]);
      assert kept + [elems[0]] + elems[1..] == kept + elems;
    }
  }

  /** Cleaning a cleaned path changes nothing. */
  lemma CleanIdempotent(rel: string)
    ensures CleanRooted(CleanRooted(rel)[1..]) == CleanRooted(rel)
  {
    var elems := CleanElements(rel);
    var once := Join(elems);
    assert CleanRooted(rel)[1..] == once;
    if elems == [] {
      assert once == [];
      assert Split(once) == [[]];
      assert CleanElements(once) == Resolve([], [[]]) == [];
    } else {
      assert forall i :: 0 <= i < |elems| ==> '/' !in elems[i];
      SplitJoin(elems);
      ResolvePlain([], elems);
      assert CleanElements(once) == elems;
    }
  }

  /** A rooted path whose single element is plain is already clean. */
  lemma CleanPlain(e: string)
    requires IsPlainElement(e)
    ensures CleanRooted(e) == "/" + e
  {
    SplitNoSeparator(e);
    ResolvePlain([], [e]);
  }

  /** A repeated root separator is collapsed. */
  lemma CleanLeadingSlash(rel: string)
    ensures CleanRooted("/" + rel) == CleanRooted(rel)
  {
  }
}
