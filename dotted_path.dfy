/** Splitting a dotted key such as "a.b.c" into its segments, as
    String.prototype.split(".") does, and joining the segments back. */
module DottedPath {

  /** key.split("."): at least one segment, none of them holding a dot. An empty
      key gives one empty segment; "a." gives "a" and an empty segment. */
  function Split(s: string): (parts: seq<string>)
    ensures |parts| >= 1
    ensures forall i :: 0 <= i < |parts| ==> '.' !in parts[i]
  {
    if s == [] then [[]]
    else
      var rest := Split(s[1..]);
      if s[0] == '.' then [[]] + rest
      else [[s[0]] + rest[0]] + rest[1..]
  }

  /** parts.join("."). */
  function Join(parts: seq<string>): string
    requires |parts| >= 1
  {
    if |parts| == 1 then parts[0] else parts[0] + "." + Join(parts[1..])
  }

  /** Joining the segments of a key gives the key back. */
  lemma {:induction false} JoinSplit(s: string)
    ensures Join(Split(s)) == s
  {
    if s != [] {
      var rest := Split(s[1..]);
      JoinSplit(s[1..]);
      if s[0] == '.' {
        assert Join(Split(s)) == [] + "." + Join(rest);
      } else if |rest| == 1 {
        assert Join(Split(s)) == [s[0]] + rest[0];
      } else {
        assert Join(rest) == rest[0] + "." + Join(rest[1..]);
        assert Join(Split(s)) == ([s[0]] + rest[0]) + "." + Join(rest[1..]);
      }
      assert [s[0]] + s[1..] == s;
    }
  }

  /** Splitting a joined list of dot-free segments gives the segments back. */
  lemma {:induction false} SplitJoin(parts: seq<string>)
    requires |parts| >= 1
    requires forall i :: 0 <= i < |parts| ==> '.' !in parts[i]
    ensures Split(Join(parts)) == parts
  {
    if |parts| == 1 {
      SplitPrefix(parts[0], []);
      assert parts[0] + [] == parts[0];
      assert [parts[0]] == parts;
    } else {
      SplitJoin(parts[1..]);
      SplitPrefix(parts[0], "." + Join(parts[1..]));
      assert Split("." + Join(parts[1..])) == [[]] + parts[1..] by {
        assert ("." + Join(parts[1..]))[1..] == Join(parts[1..]);
      }
      assert parts[0] + "." + Join(parts[1..]) == parts[0] + ("." + Join(parts[1..]));
      assert parts[0] + [] == parts[0];
      assert [parts[0]] + parts[1..] == parts;
    }
  }

  /** A key without a dot is a single segment, and only such a key is. */
  lemma SplitSingle(s: string)
    ensures |Split(s)| == 1 <==> '.' !in s
    ensures '.' !in s ==> Split(s) == [s]
  {
    JoinSplit(s);
    if '.' !in s {
      SplitPrefix(s, []);
      assert s + [] == s;
    }
  }

  /** Appending ".leaf" to a key appends one segment. */
  lemma SplitAppend(key: string, leaf: string)
    requires '.' !in leaf
    ensures Split(key + "." + leaf) == Split(key) + [leaf]
  {
    var parts := Split(key);
    JoinSplit(key);
    assert Join(parts + [leaf]) == key + "." + leaf by {
      JoinSnoc(parts, leaf);
    }
    SplitJoin(parts + [leaf]);
  }

  lemma {:induction false} JoinSnoc(parts: seq<string>, leaf: string)
    requires |parts| >= 1
    ensures Join(parts + [leaf]) == Join(parts) + "." + leaf
  {
    if |parts| > 1 {
      JoinSnoc(parts[1..], leaf);
      assert (parts + [leaf])[1..] == parts[1..] + [leaf];
    }
  }

  /** A dot-free prefix joins the first segment of what follows it. */
  lemma {:induction false} SplitPrefix(a: string, t: string)
    requires '.' !in a
    ensures Split(a + t) == [a + Split(t)[0]] + Split(t)[1..]
  {
    if a != [] {
      SplitPrefix(a[1..], t);
      assert (a + t)[1..] == a[1..] + t;
      assert [a[0]] + (a[1..] + Split(t)[0]) == a + Split(t)[0];
    } else {
      assert a + t == t && a + Split(t)[0] == Split(t)[0];
      assert [Split(t)[0]] + Split(t)[1..] == Split(t);
    }
  }
}
