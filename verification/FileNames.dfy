/**
 Which relative names the data-volume archive stores (safe_name), with the rule
 said once more on the characters of the name and proved to be the same.
 */
module FileNames {
  import opened Text

  const MARKER := ".newcrown-restore-incomplete"

  // ----- safe_name -----

  function UpperAscii(s: string): string {
    seq(|s|, i requires 0 <= i < |s| => if 'a' <= s[i] <= 'z' then s[i] - 'a' + 'A' else s[i])
  }

  function BeforeDot(s: string): string {
    if s == "" || s[0] == '.' then "" else [s[0]] + BeforeDot(s[1..])
  }

  predicate Reserved(stem: string) {
    || stem == "CON" || stem == "PRN" || stem == "AUX" || stem == "NUL"
    || (|stem| == 4 && (stem[..3] == "COM" || stem[..3] == "LPT") && '1' <= stem[3] <= '9')
  }

  predicate SafePart(part: string) {
    && part != "" && part != "." && part != ".." && part != MARKER
    && part[|part| - 1] != ' ' && part[|part| - 1] != '.'
    && (forall c :: c in part ==> c >= ' ' && c != ':' && c != '*' && c != '?' && c != '"' && c != '<' && c != '>' && c != '|')
    && !Reserved(UpperAscii(BeforeDot(part)))
  }

  /** safe_name: canonical, relative, portable, and nowhere the incomplete marker. */
  predicate SafeName(name: string) {
    name != "" && '\\' !in name && forall part :: part in Split(name) ==> SafePart(part)
  }

  lemma MarkerIsUnsafe()
    ensures !SafeName(MARKER)
  {
    SplitAtom(MARKER);
    assert MARKER in Split(MARKER);
  }

  // ----- The same on the characters of the name -----

  /** The stretch of the name between two slashes, or a slash and an end. */
  predicate PartAt(name: string, i: int, j: int) {
    && 0 <= i <= j <= |name| && '/' !in name[i..j]
    && (i == 0 || name[i - 1] == '/') && (j == |name| || name[j] == '/')
  }

  ghost predicate IsPart(name: string, part: string) {
    exists i, j :: PartAt(name, i, j) && part == name[i..j]
  }

  const DEVICES: set<string> := {"CON", "PRN", "AUX", "NUL"} + set p, c | p in {"COM", "LPT"} && c in "123456789" :: p + [c]

  /** The same letters, capital or small, as those of `capitals`. */
  predicate InAnyCase(s: string, capitals: string) {
    |s| == |capitals| && forall i :: 0 <= i < |s| ==> s[i] == capitals[i] || ('A' <= capitals[i] <= 'Z' && s[i] == capitals[i] - 'A' + 'a')
  }

  /** What stands in front of the first dot is a device of some operating system. */
  predicate NamesDevice(part: string) {
    exists n :: 0 <= n <= |part| && '.' !in part[..n] && (n == |part| || part[n] == '.') && exists d :: d in DEVICES && InAnyCase(part[..n], d)
  }

  predicate Portable(c: char) {
    c >= ' ' && c !in {':', '*', '?', '"', '<', '>', '|'}
  }

  predicate GoodPart(part: string) {
    && part !in {"", ".", "..", ".newcrown-restore-incomplete"}
    && part[|part| - 1] !in {' ', '.'} && (forall c :: c in part ==> Portable(c)) && !NamesDevice(part)
  }

  ghost predicate GoodName(name: string) {
    name != "" && '\\' !in name && forall part :: IsPart(name, part) ==> GoodPart(part)
  }

  lemma {:induction false} FirstPart(s: string)
    ensures var p := Split(s)[0]; |p| <= |s| && p == s[..|p|] && '/' !in p && (|p| < |s| ==> s[|p|] == '/')
  {
    if s != "" && s[0] != '/' {
      FirstPart(s[1..]);
      assert Split(s)[0] == [s[0]] + Split(s[1..])[0];
    }
  }

  lemma {:induction false} PartsAreSplit(s: string, i: int, j: int)
    requires PartAt(s, i, j)
    ensures s[i..j] in Split(s) && (i == 0 ==> s[i..j] == Split(s)[0]) && (i > 0 ==> s[i..j] in Split(s)[1..])
  {
    if i == 0 {
      FirstPart(s);
      SameStretch(s, j, |Split(s)[0]|);
    } else {
      assert s[1..][i - 1..j - 1] == s[i..j];
      assert i == 1 || s[1..][i - 2] == s[i - 1];
      assert PartAt(s[1..], i - 1, j - 1);
      PartsAreSplit(s[1..], i - 1, j - 1);
      assert Split(s)[1..] == if s[0] == '/' then Split(s[1..]) else Split(s[1..])[1..];
    }
  }

  lemma NoSlashBefore(s: string, j: nat)
    requires j <= |s| && '/' !in s[..j]
    ensures forall x :: 0 <= x < j ==> s[x] != '/'
  {
    forall x | 0 <= x < j ensures s[x] != '/' { assert s[..j][x] in s[..j]; }
  }

  lemma SameStretch(s: string, j: nat, k: nat)
    requires j <= |s| && k <= |s| && '/' !in s[..j] && '/' !in s[..k]
    requires (j == |s| || s[j] == '/') && (k == |s| || s[k] == '/')
    ensures j == k
  {
    NoSlashBefore(s, j);
    NoSlashBefore(s, k);
  }

  lemma {:induction false} SplitIsParts(s: string, k: nat) returns (i: int, j: int)
    requires k < |Split(s)|
    ensures PartAt(s, i, j) && s[i..j] == Split(s)[k] && (k > 0 ==> i > 0)
  {
    if k == 0 {
      FirstPart(s);
      i, j := 0, |Split(s)[0]|;
    } else {
      var rest := Split(s[1..]);
      var a, b := SplitIsParts(s[1..], if s[0] == '/' then k - 1 else k);
      i, j := a + 1, b + 1;
      assert s[1..][a..b] == s[i..j];
      assert a == 0 || s[1..][a - 1] == s[i - 1];
    }
  }

  lemma PartsExactly(name: string, part: string)
    ensures part in Split(name) <==> IsPart(name, part)
  {
    if part in Split(name) {
      var k :| 0 <= k < |Split(name)| && Split(name)[k] == part;
      var i, j := SplitIsParts(name, k);
    }
    if i, j :| PartAt(name, i, j) && part == name[i..j] { PartsAreSplit(name, i, j); }
    hide PartAt, Split;
  }

  lemma {:induction false} StemExactly(part: string, n: nat)
    requires n <= |part| && '.' !in part[..n] && (n == |part| || part[n] == '.')
    ensures BeforeDot(part) == part[..n]
  {
    if n > 0 {
      assert part[..n][0] == part[0];
      assert part[1..][..n - 1] == part[..n][1..];
      StemExactly(part[1..], n - 1);
    }
  }

  lemma {:induction false} StemIsStem(part: string)
    ensures var n := |BeforeDot(part)|; n <= |part| && BeforeDot(part) == part[..n] && '.' !in part[..n] && (n == |part| || part[n] == '.')
  {
    if part != "" && part[0] != '.' { StemIsStem(part[1..]); }
  }

  lemma ReservedExactly(stem: string)
    ensures Reserved(UpperAscii(stem)) <==> exists d :: d in DEVICES && InAnyCase(stem, d)
  {
    var u := UpperAscii(stem);
    forall d | d in DEVICES ensures InAnyCase(stem, d) <==> u == d { UpperIsAnyCase(stem, d); }
    ReservedAreDevices(u);
    hide Reserved, UpperAscii, DEVICES, InAnyCase;
  }

  lemma UpperIsAnyCase(stem: string, d: string)
    requires d in DEVICES
    ensures InAnyCase(stem, d) <==> UpperAscii(stem) == d
  {
    assert forall i :: 0 <= i < |d| ==> !('a' <= d[i] <= 'z');
    hide DEVICES;
  }

  lemma ReservedAreDevices(u: string)
    ensures Reserved(u) <==> u in DEVICES
  {
    if Reserved(u) && |u| == 4 {
      assert u == u[..3] + [u[3]];
      assert "123456789"[u[3] as int - '1' as int] == u[3];
    }
    if p, c :| p in {"COM", "LPT"} && c in "123456789" && u == p + [c] { assert u[..3] == p; }
  }

  lemma PartIsGood(part: string)
    ensures SafePart(part) <==> GoodPart(part)
  {
    StemIsStem(part);
    ReservedExactly(BeforeDot(part));
    if NamesDevice(part) {
      var n :| 0 <= n <= |part| && '.' !in part[..n] && (n == |part| || part[n] == '.') && exists d :: d in DEVICES && InAnyCase(part[..n], d);
      StemExactly(part, n);
    }
    hide Reserved, UpperAscii, BeforeDot, DEVICES, InAnyCase;
  }

  /**
   A name is stored exactly when it has no backslash and no part that is empty,
   a dot or two, the marker, ends in a blank or a dot, holds a control character
   or one of : * ? " < > |, or names a device in capital or small letters.
   */
  lemma SafeExactly(name: string)
    ensures SafeName(name) <==> GoodName(name)
  {
    forall part ensures part in Split(name) <==> IsPart(name, part) { PartsExactly(name, part); }
    forall part ensures SafePart(part) <==> GoodPart(part) { PartIsGood(part); }
    hide IsPart, GoodPart, SafePart, Split;
  }

  // ----- Names everybody would use -----

  predicate Plain(c: char) {
    'a' <= c <= 'z' || 'A' <= c <= 'Z' || '0' <= c <= '9' || c == '-' || c == '_'
  }

  /** Letters, digits, hyphens and underscores, dots but at the end, and no device in front of a dot. */
  predicate PlainPart(part: string) {
    && part != "" && part != ".newcrown-restore-incomplete" && Plain(part[|part| - 1])
    && (forall c :: c in part ==> Plain(c) || c == '.') && !NamesDevice(part)
  }

  ghost predicate PlainName(name: string) {
    name != "" && forall part :: IsPart(name, part) ==> PlainPart(part)
  }

  lemma PlainIsSafe(name: string)
    requires PlainName(name)
    ensures SafeName(name)
  {
    forall part | IsPart(name, part) ensures GoodPart(part) {
      assert part !in {"", ".", ".."};
    }
    if '\\' in name {
      PartsHoldTheChars(name, '\\');
      var p :| p in Split(name) && '\\' in p;
      PartsExactly(name, p);
      assert false;
    }
    SafeExactly(name);
    hide IsPart, NamesDevice, SafeName;
  }
}
