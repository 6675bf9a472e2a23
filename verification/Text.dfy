/**
 The few string operations of Python the modelled code relies on: str.strip and
 the order sorted() uses, which compares code points.
 */
module Text {

  // ----- str.strip -----

  /** The characters str.isspace accepts. */
  predicate White(c: char) {
    || '\U{0009}' <= c <= '\U{000D}' || '\U{001C}' <= c <= '\U{0020}' || c == '\U{0085}' || c == '\U{00A0}'
    || c == '\U{1680}' || '\U{2000}' <= c <= '\U{200A}' || c == '\U{2028}' || c == '\U{2029}' || c == '\U{202F}'
    || c == '\U{205F}' || c == '\U{3000}'
  }

  predicate Trimmed(s: string) {
    s != "" ==> !White(s[0]) && !White(s[|s| - 1])
  }

  function LeftStrip(s: string): string {
    if s != "" && White(s[0]) then LeftStrip(s[1..]) else s
  }

  function RightStrip(s: string): string {
    if s != "" && White(s[|s| - 1]) then RightStrip(s[..|s| - 1]) else s
  }

  function Strip(s: string): string { RightStrip(LeftStrip(s)) }

  lemma StripTrimmed(s: string)
    requires Trimmed(s)
    ensures LeftStrip(s) == s && RightStrip(s) == s && Strip(s) == s
  {
  }

  lemma {:induction false} LeftStripCases(s: string)
    ensures |LeftStrip(s)| <= |s| && LeftStrip(s) == s[|s| - |LeftStrip(s)|..]
    ensures forall i :: 0 <= i < |s| - |LeftStrip(s)| ==> White(s[i])
    ensures LeftStrip(s) != "" ==> !White(LeftStrip(s)[0])
  {
    if s != "" && White(s[0]) {
      LeftStripCases(s[1..]);
      var n := |s| - |LeftStrip(s)|;
      forall i | 0 <= i < n ensures White(s[i]) {
        if i > 0 { assert s[1..][i - 1] == s[i]; }
      }
    }
  }

  lemma {:induction false} RightStripCases(s: string)
    ensures |RightStrip(s)| <= |s| && RightStrip(s) == s[..|RightStrip(s)|]
    ensures forall i :: |RightStrip(s)| <= i < |s| ==> White(s[i])
    ensures RightStrip(s) != "" ==> !White(RightStrip(s)[|RightStrip(s)| - 1])
  {
    if s != "" && White(s[|s| - 1]) {
      RightStripCases(s[..|s| - 1]);
    }
  }

  lemma StripIsTrimmed(s: string)
    ensures Trimmed(Strip(s))
    ensures Strip(s) == "" <==> forall c :: c in s ==> White(c)
  {
    var l := LeftStrip(s);
    LeftStripCases(s);
    RightStripCases(l);
    if Strip(s) == "" {
      forall c | c in s ensures White(c) {
        var i :| 0 <= i < |s| && s[i] == c;
      }
    } else {
      assert Strip(s)[0] == l[0] && l[0] in s;
    }
  }

  // ----- Splitting at slashes -----

  function Split(s: string): (parts: seq<string>)
    ensures |parts| >= 1
  {
    if s == "" then [""]
    else
      var rest := Split(s[1..]);
      if s[0] == '/' then [""] + rest
      else [[s[0]] + rest[0]] + rest[1..]
  }

  lemma {:induction false} SplitHead(a: string, b: string)
    requires '/' !in a
    ensures Split(a + "/" + b) == [a] + Split(b)
  {
    if a == "" {
      assert a + "/" + b == "/" + b;
      assert ("/" + b)[1..] == b;
    } else {
      SplitHead(a[1..], b);
      var s := a + "/" + b;
      assert s[1..] == a[1..] + "/" + b;
      assert s[0] == a[0] && a[0] in a;
      assert [a[0]] + a[1..] == a;
    }
  }

  lemma {:induction false} SplitAtom(a: string)
    requires '/' !in a
    ensures Split(a) == [a]
  {
    if a != "" {
      SplitAtom(a[1..]);
      assert a[0] in a;
      assert [a[0]] + a[1..] == a;
    }
  }

  lemma SplitTwo(a: string, b: string)
    requires '/' !in a && '/' !in b
    ensures Split(a + "/" + b) == [a, b]
  {
    SplitHead(a, b);
    SplitAtom(b);
  }

  lemma SplitThree(a: string, b: string, c: string)
    requires '/' !in a && '/' !in b && '/' !in c
    ensures Split(a + "/" + (b + "/" + c)) == [a, b, c]
  {
    SplitHead(a, b + "/" + c);
    SplitTwo(b, c);
  }

  lemma {:induction false} PartsHoldTheChars(s: string, c: char)
    requires c in s && c != '/'
    ensures exists p :: p in Split(s) && c in p
  {
    var parts := Split(s);
    var rest := Split(s[1..]);
    if s[0] == c {
      assert c in parts[0];
    } else {
      assert c in s[1..];
      PartsHoldTheChars(s[1..], c);
      var p :| p in rest && c in p;
      var k :| 0 <= k < |rest| && rest[k] == p;
      if s[0] == '/' {
        assert parts[k + 1] == p;
      } else if k == 0 {
        assert c in parts[0];
      } else {
        assert parts[k] == p;
      }
    }
  }

  // ----- The order of sorted() -----

  predicate Before(a: string, b: string) {
    b != "" && (a == "" || a[0] < b[0] || (a[0] == b[0] && Before(a[1..], b[1..])))
  }

  lemma {:induction false} BeforeTotal(a: string, b: string)
    ensures Before(a, b) || a == b || Before(b, a)
    ensures !(Before(a, b) && (a == b || Before(b, a)))
  {
    if a != "" && b != "" {
      BeforeTotal(a[1..], b[1..]);
      assert a == [a[0]] + a[1..] && b == [b[0]] + b[1..];
    }
  }

  lemma {:induction false} BeforeTransitive(a: string, b: string, c: string)
    requires Before(a, b) && Before(b, c)
    ensures Before(a, c)
  {
    if a != "" && a[0] == b[0] && b[0] == c[0] {
      BeforeTransitive(a[1..], b[1..], c[1..]);
    }
  }

  predicate Ascending(s: seq<string>) {
    forall i, j :: 0 <= i < j < |s| ==> Before(s[i], s[j])
  }

  /** A set has one listing in order. */
  lemma {:induction false} ListingIsUnique(s: seq<string>, t: seq<string>)
    requires Ascending(s) && Ascending(t)
    requires forall x :: x in s <==> x in t
    ensures s == t
  {
    if s != [] { assert s[0] in s; }
    if t != [] { assert t[0] in t; }
    if s != [] {
      var i :| 0 <= i < |t| && t[i] == s[0];
      var j :| 0 <= j < |s| && s[j] == t[0];
      BeforeTotal(s[0], t[0]);
      assert s[0] == t[0];
      forall x ensures x in s[1..] <==> x in t[1..] {
        BeforeTotal(s[0], x);
        TailHolds(s, x);
        TailHolds(t, x);
      }
      ListingIsUnique(s[1..], t[1..]);
      assert s == [s[0]] + s[1..] && t == [t[0]] + t[1..];
    }
  }

  lemma TailHolds(s: seq<string>, x: string)
    requires Ascending(s) && s != []
    ensures x in s[1..] <==> x in s && x != s[0]
  {
    if x in s[1..] {
      var i :| 0 <= i < |s[1..]| && s[1..][i] == x;
      assert s[i + 1] == x;
      BeforeTotal(s[0], x);
    }
    if x in s && x != s[0] {
      var i :| 0 <= i < |s| && s[i] == x;
      assert s[1..][i - 1] == x;
    }
  }

  /** sorted() over a set of strings. */
  method Sorted(items: set<string>) returns (list: seq<string>)
    ensures Ascending(list)
    ensures forall x :: x in list <==> x in items
  {
    list := [];
    var rest := items;
    while rest != {}
      invariant rest <= items
      invariant Ascending(list)
      invariant forall x :: x in list <==> x in items - rest
      decreases |rest|
    {
      var x :| x in rest;
      ghost var had := list;
      list := Insert(list, x);
      rest := rest - {x};
    }
  }

  method Insert(list: seq<string>, x: string) returns (more: seq<string>)
    requires Ascending(list) && x !in list
    ensures Ascending(more)
    ensures forall y :: y in more <==> y == x || y in list
  {
    var k := 0;
    while k < |list| && Before(list[k], x)
      invariant 0 <= k <= |list|
      invariant forall i :: 0 <= i < k ==> Before(list[i], x)
    {
      k := k + 1;
    }
    more := list[..k] + [x] + list[k..];
    if k < |list| {
      BeforeTotal(list[k], x);
      assert list[k] != x by { assert list[k] in list; }
      forall j | k <= j < |list| ensures Before(x, list[j]) {
        if j > k { BeforeTransitive(x, list[k], list[j]); }
      }
    }
    forall y ensures y in more <==> y == x || y in list {
      if y in list {
        var i :| 0 <= i < |list| && list[i] == y;
        assert more[if i < k then i else i + 1] == y;
      }
      if y == x { assert more[k] == x; }
    }
  }
}
