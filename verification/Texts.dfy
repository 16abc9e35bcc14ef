/** Strings: code-point order, and texts taken apart again at a separator. */
module Texts {

  // ---- order --------------------------------------------------------------

  /** Strictly before, as Python compares strings. */
  predicate Before(a: string, b: string) {
    b != "" && (a == "" || a[0] < b[0] || (a[0] == b[0] && Before(a[1..], b[1..])))
  }

  lemma {:induction false} Transitive(a: string, b: string, c: string)
    requires Before(a, b) && Before(b, c)
    ensures Before(a, c)
  {
    if a != "" && a[0] == b[0] == c[0] {
      Transitive(a[1..], b[1..], c[1..]);
    }
  }

  lemma {:induction false} Total(a: string, b: string)
    ensures a == b || Before(a, b) || Before(b, a)
    ensures !(Before(a, b) && Before(b, a)) && !Before(a, a)
  {
    if a != "" && b != "" {
      Total(a[1..], b[1..]);
      Total(a[1..], a[1..]);
      assert a[0] == b[0] && a[1..] == b[1..] ==> a == [a[0]] + a[1..] == b;
    } else if a != "" {
      Total(a[1..], a[1..]);
    }
  }

  /** What starts with `a` and goes on comes after it. */
  lemma {:induction false} ExtensionAfter(a: string, more: string)
    requires more != ""
    ensures Before(a, a + more)
    decreases |a|
  {
    if a != "" {
      ExtensionAfter(a[1..], more);
      assert (a + more)[1..] == a[1..] + more;
    }
  }

  ghost predicate Ascending(s: seq<string>) {
    forall i, j :: 0 <= i < j < |s| ==> Before(s[i], s[j])
  }

  lemma HasItsFirst(s: seq<string>)
    ensures s != [] ==> s[0] in s
  {}

  /** An ascending list is settled by what is in it. */
  lemma {:induction false} AscendingUnique(a: seq<string>, b: seq<string>)
    requires Ascending(a) && Ascending(b) && (forall x :: x in a <==> x in b)
    ensures a == b
    decreases |a|
  {
    if a == [] {
      HasItsFirst(b);
    } else {
      assert a[0] in b;
      assert b != [] && b[0] in a;
      var i :| 0 <= i < |b| && b[i] == a[0];
      var j :| 0 <= j < |a| && a[j] == b[0];
      Total(a[0], b[0]);
      assert a[0] == b[0];
      forall x ensures x in a[1..] <==> x in b[1..] {
        TailHas(a, x);
        TailHas(b, x);
      }
      AscendingUnique(a[1..], b[1..]);
      assert a == [a[0]] + a[1..] && b == [b[0]] + b[1..];
    }
  }

  lemma TailHas(a: seq<string>, x: string)
    requires Ascending(a) && a != []
    ensures x in a[1..] <==> x in a && x != a[0]
  {
    Total(a[0], a[0]);
    if x in a && x != a[0] {
      var i :| 0 <= i < |a| && a[i] == x;
      assert a[1..][i - 1] == x;
    }
    if x in a[1..] {
      var i :| 0 <= i < |a| - 1 && a[1..][i] == x;
      assert Before(a[0], a[i + 1]);
    }
  }

  // ---- separators ---------------------------------------------------------

  /** Each field with the separator after it. */
  function Ended(fields: seq<string>, sep: char): string {
    if fields == [] then "" else fields[0] + [sep] + Ended(fields[1..], sep)
  }

  lemma EndedFrom(fields: seq<string>, sep: char, i: nat, before: string)
    requires i < |fields|
    ensures before + Ended(fields[i..], sep) == (before + fields[i] + [sep]) + Ended(fields[i + 1..], sep)
  {
    assert fields[i..][1..] == fields[i + 1..];
    var rest := Ended(fields[i + 1..], sep);
    assert before + (fields[i] + [sep] + rest) == (before + fields[i] + [sep]) + rest;
  }

  /** The fields with the separator between them. */
  function Joined(fields: seq<string>, sep: char): string
    requires fields != []
  {
    if |fields| == 1 then fields[0] else fields[0] + [sep] + Joined(fields[1..], sep)
  }

  predicate Free(fields: seq<string>, sep: char) { forall f :: f in fields ==> sep !in f }

  lemma {:induction false} JoinedEnded(fields: seq<string>, sep: char)
    requires fields != []
    ensures Joined(fields, sep) + [sep] == Ended(fields, sep)
  {
    if |fields| > 1 {
      JoinedEnded(fields[1..], sep);
      assert fields[0] + [sep] + Joined(fields[1..], sep) + [sep]
          == fields[0] + [sep] + (Joined(fields[1..], sep) + [sep]);
    } else {
      assert fields[1..] == [];
      assert fields[0] + [sep] + "" == fields[0] + [sep];
    }
  }

  lemma NotYet(a: string, r: string, sep: char, k: nat)
    requires sep !in a
    ensures k < |a| ==> (a + [sep] + r)[k] != sep
  {
    assert k < |a| ==> a[k] in a;
  }

  lemma FirstField(a: string, b: string, r: string, s: string, sep: char)
    requires sep !in a && sep !in b && a + [sep] + r == b + [sep] + s
    ensures a == b && r == s
  {
    var x, y := a + [sep] + r, b + [sep] + s;
    NotYet(b, s, sep, |a|);
    NotYet(a, r, sep, |b|);
    assert x[|a|] == sep && y[|b|] == sep;
    assert x[..|a|] == a && y[..|b|] == b;
    assert x[|a| + 1..] == r && y[|b| + 1..] == s;
  }

  /** Fields that do not hold the separator can be read back. */
  lemma {:induction false} EndedInjective(a: seq<string>, b: seq<string>, sep: char)
    requires Free(a, sep) && Free(b, sep) && Ended(a, sep) == Ended(b, sep)
    ensures a == b
    decreases |a|
  {
    if a != [] && b != [] {
      assert a[0] in a && b[0] in b;
      FirstField(a[0], b[0], Ended(a[1..], sep), Ended(b[1..], sep), sep);
      assert forall f :: f in a[1..] ==> f in a;
      assert forall f :: f in b[1..] ==> f in b;
      EndedInjective(a[1..], b[1..], sep);
      assert a == [a[0]] + a[1..] && b == [b[0]] + b[1..];
    }
  }

  lemma JoinedInjective(a: seq<string>, b: seq<string>, sep: char)
    requires a != [] && b != [] && Free(a, sep) && Free(b, sep) && Joined(a, sep) == Joined(b, sep)
    ensures a == b
  {
    JoinedEnded(a, sep);
    JoinedEnded(b, sep);
    EndedInjective(a, b, sep);
  }

  /** What no field holds, their join does not hold either. */
  lemma {:induction false} JoinedFree(fields: seq<string>, sep: char, other: char)
    requires fields != [] && Free(fields, other) && sep != other
    ensures other !in Joined(fields, sep)
  {
    assert fields[0] in fields;
    if |fields| > 1 {
      assert forall f :: f in fields[1..] ==> f in fields;
      JoinedFree(fields[1..], sep, other);
    }
  }

  /** The pieces between separators; always at least one. */
  function Split(s: string, sep: char): (r: seq<string>)
    ensures r != []
  {
    if s == "" then [""]
    else
      var rest := Split(s[1..], sep);
      if s[0] == sep then [""] + rest else [[s[0]] + rest[0]] + rest[1..]
  }

  lemma {:induction false} SplitFirst(f: string, more: string, sep: char)
    requires sep !in f
    ensures Split(f + [sep] + more, sep) == [f] + Split(more, sep)
    ensures Split(f, sep) == [f]
  {
    var s := f + [sep] + more;
    if f == "" {
      assert s[1..] == more;
    } else {
      SplitFirst(f[1..], more, sep);
      assert s[1..] == f[1..] + [sep] + more;
      assert [f[0]] + f[1..] == f;
    }
  }

  lemma {:induction false} SplitJoined(fields: seq<string>, sep: char)
    requires fields != [] && Free(fields, sep)
    ensures Split(Joined(fields, sep), sep) == fields
  {
    assert fields[0] in fields;
    if |fields| == 1 {
      SplitFirst(fields[0], "", sep);
      assert fields == [fields[0]];
    } else {
      assert forall f :: f in fields[1..] ==> f in fields;
      var more := Joined(fields[1..], sep);
      SplitJoined(fields[1..], sep);
      SplitFirst(fields[0], more, sep);
      assert Joined(fields, sep) == fields[0] + [sep] + more;
      assert fields == [fields[0]] + fields[1..];
    }
  }

  lemma {:induction false} SplitEnded(fields: seq<string>, sep: char)
    requires Free(fields, sep)
    ensures Split(Ended(fields, sep), sep) == fields + [""]
  {
    if fields != [] {
      assert fields[0] in fields;
      assert forall f :: f in fields[1..] ==> f in fields;
      SplitEnded(fields[1..], sep);
      SplitFirst(fields[0], Ended(fields[1..], sep), sep);
      assert fields == [fields[0]] + fields[1..];
    }
  }

  /** No piece holds the separator, and put together again they are the text. */
  lemma {:induction false} SplitFree(s: string, sep: char)
    ensures Free(Split(s, sep), sep)
  {
    if s != "" {
      SplitFree(s[1..], sep);
      var rest := Split(s[1..], sep);
      assert forall f :: f in rest[1..] ==> f in rest;
      assert rest[0] in rest;
    }
  }

  lemma {:induction false} JoinedSplit(s: string, sep: char)
    ensures Joined(Split(s, sep), sep) == s
  {
    if s != "" {
      var rest := Split(s[1..], sep);
      JoinedSplit(s[1..], sep);
      if s[0] == sep {
        assert ([""] + rest)[1..] == rest;
        assert s == [sep] + s[1..];
      } else {
        var all := [[s[0]] + rest[0]] + rest[1..];
        assert all[1..] == rest[1..];
        assert s == [s[0]] + s[1..];
        if |rest| > 1 {
          var more := Joined(rest[1..], sep);
          assert [s[0]] + (rest[0] + [sep] + more) == [s[0]] + rest[0] + [sep] + more;
        }
      }
    }
  }

  lemma {:induction false} JoinedAppend(a: seq<string>, b: seq<string>, sep: char)
    requires a != [] && b != []
    ensures Joined(a + b, sep) == Joined(a, sep) + [sep] + Joined(b, sep)
  {
    assert (a + b)[1..] == a[1..] + b;
    if |a| > 1 {
      JoinedAppend(a[1..], b, sep);
      var x, y := Joined(a[1..], sep), Joined(b, sep);
      assert a[0] + [sep] + (x + [sep] + y) == (a[0] + [sep] + x) + [sep] + y;
    } else {
      assert a + b == [a[0]] + b && a[1..] + b == b;
    }
  }

  lemma FirstOfMany(ch: char, x: seq<string>, y: seq<string>)
    requires x != []
    ensures [[ch] + (x + y)[0]] + (x + y)[1..] == ([[ch] + x[0]] + x[1..]) + y
    ensures [""] + (x + y) == ([""] + x) + y
  {}

  lemma {:induction false} SplitAppend(a: string, b: string, sep: char)
    ensures Split(a + [sep] + b, sep) == Split(a, sep) + Split(b, sep)
  {
    var s := a + [sep] + b;
    if a == "" {
      assert s[1..] == b;
    } else {
      SplitAppend(a[1..], b, sep);
      assert s[1..] == a[1..] + [sep] + b;
      FirstOfMany(a[0], Split(a[1..], sep), Split(b, sep));
    }
  }

  // ---- sorted() -----------------------------------------------------------

  function Inserted<T>(s: seq<T>, x: T, key: T -> string): (r: seq<T>)
    ensures multiset(r) == multiset(s) + multiset{x}
  {
    if s == [] || !Before(key(s[0]), key(x)) then
      assert multiset([x] + s) == multiset{x} + multiset(s);
      [x] + s
    else
      assert s == [s[0]] + s[1..];
      [s[0]] + Inserted(s[1..], x, key)
  }

  function Sorted<T>(s: seq<T>, key: T -> string): (r: seq<T>)
    ensures multiset(r) == multiset(s)
  {
    if s == [] then []
    else
      assert s == [s[0]] + s[1..];
      Inserted(Sorted(s[1..], key), s[0], key)
  }

  ghost predicate Ordered<T>(s: seq<T>, key: T -> string) {
    forall i, j :: 0 <= i < j < |s| ==> !Before(key(s[j]), key(s[i]))
  }

  lemma {:induction false} InsertedOrdered<T>(s: seq<T>, x: T, key: T -> string)
    requires Ordered(s, key)
    ensures Ordered(Inserted(s, x, key), key)
  {
    var r := Inserted(s, x, key);
    if s == [] {
    } else if !Before(key(s[0]), key(x)) {
      forall j | 0 < j < |r| ensures !Before(key(r[j]), key(r[0])) {
        NotBeforeChain(key(x), key(s[0]), key(s[j - 1]));
      }
    } else {
      InsertedOrdered(s[1..], x, key);
      var t := Inserted(s[1..], x, key);
      forall j | 0 < j < |r| ensures !Before(key(r[j]), key(r[0])) {
        assert t[j - 1] in multiset(t);
        assert t[j - 1] in s[1..] || t[j - 1] == x;
        Total(key(s[0]), key(x));
      }
    }
  }

  lemma NotBeforeChain(a: string, b: string, c: string)
    requires !Before(b, a) && (b == c || !Before(c, b))
    ensures !Before(c, a)
  {
    Total(a, b);
    Total(b, c);
    if Before(c, a) {
      if a != b {
        Transitive(c, a, b);
      }
    }
  }

  lemma {:induction false} SortedOrdered<T>(s: seq<T>, key: T -> string)
    ensures Ordered(Sorted(s, key), key)
  {
    if s != [] {
      SortedOrdered(s[1..], key);
      InsertedOrdered(Sorted(s[1..], key), s[0], key);
    }
  }
}
