/** The string operations the collectors rely on, over sequences of Unicode code points. */
module Strings {
  import opened Results

  // ---------------------------------------------------------------- order

  /** Lexicographic order by code point, which is also the byte order of the UTF-8 encodings. */
  predicate Le(a: string, b: string) {
    a == [] || (b != [] && (a[0] < b[0] || (a[0] == b[0] && Le(a[1..], b[1..]))))
  }

  lemma {:induction false} LeRefl(a: string)
    ensures Le(a, a)
  {
    if a != [] {
      LeRefl(a[1..]);
    }
  }

  lemma {:induction false} LeTotal(a: string, b: string)
    ensures Le(a, b) || Le(b, a)
  {
    if a != [] && b != [] && a[0] == b[0] {
      LeTotal(a[1..], b[1..]);
    }
  }

  lemma {:induction false} LeAntisymmetric(a: string, b: string)
    requires Le(a, b) && Le(b, a)
    ensures a == b
  {
    if a != [] {
      LeAntisymmetric(a[1..], b[1..]);
      assert a == [a[0]] + a[1..] && b == [b[0]] + b[1..];
    }
  }

  lemma {:induction false} LeTransitive(a: string, b: string, c: string)
    requires Le(a, b) && Le(b, c)
    ensures Le(a, c)
  {
    if a != [] && a[0] == b[0] == c[0] {
      LeTransitive(a[1..], b[1..], c[1..]);
    }
  }

  lemma {:induction false} LePrefix(prefix: string, a: string, b: string)
    ensures Le(prefix + a, prefix + b) <==> Le(a, b)
  {
    if prefix == "" {
      assert prefix + a == a && prefix + b == b;
    } else {
      LePrefix(prefix[1..], a, b);
      assert (prefix + a)[1..] == prefix[1..] + a && (prefix + b)[1..] == prefix[1..] + b;
    }
  }

  // ---------------------------------------------------------------- prefixes

  function TrimPrefix(s: string, prefix: string): string {
    if prefix <= s then s[|prefix|..] else s
  }

  /** The part of a key after its table prefix, or None when the key lacks the prefix or has nothing after it. */
  function Suffix(key: string, prefix: string): Option<string> {
    if prefix < key then Some(key[|prefix|..]) else None
  }

  lemma SuffixProperties(key: string, prefix: string)
    requires Suffix(key, prefix).Some?
    ensures key == prefix + Suffix(key, prefix).value && Suffix(key, prefix).value != ""
  {
  }

  /** Different keys of one table have different suffixes. */
  lemma SuffixTellsKey(a: string, b: string, prefix: string)
    requires Suffix(a, prefix).Some? && Suffix(b, prefix).Some? && TrimPrefix(a, prefix) == TrimPrefix(b, prefix)
    ensures a == b
  {
    SuffixProperties(a, prefix);
    SuffixProperties(b, prefix);
  }

  /** The source's test for a malformed key: nothing is left, or nothing was cut off. */
  lemma TrimPrefixIsSuffix(key: string, prefix: string)
    requires prefix != ""
    ensures (TrimPrefix(key, prefix) == "" || TrimPrefix(key, prefix) == key) <==> Suffix(key, prefix).None?
    ensures Suffix(key, prefix).Some? ==> TrimPrefix(key, prefix) == Suffix(key, prefix).value
  {
    if prefix <= key {
      assert |TrimPrefix(key, prefix)| < |key|;
      if prefix != key {
        assert |prefix| < |key|;
      }
    }
  }

  // ---------------------------------------------------------------- trimming

  function TrimLeft(s: string, cut: char -> bool): string {
    if s != "" && cut(s[0]) then TrimLeft(s[1..], cut) else s
  }

  function TrimRight(s: string, cut: char -> bool): string {
    if s != "" && cut(s[|s| - 1]) then TrimRight(s[..|s| - 1], cut) else s
  }

  function Trim(s: string, cut: char -> bool): string {
    TrimRight(TrimLeft(s, cut), cut)
  }

  predicate IsSpace(c: char) {
    c in " \t\n\r\U{b}\U{c}\U{85}\U{a0}\U{1680}\U{2028}\U{2029}\U{202f}\U{205f}\U{3000}"
        || '\U{2000}' <= c <= '\U{200a}'
  }

  function TrimSpace(s: string): string {
    Trim(s, IsSpace)
  }

  /** No character of `cut` at either end. */
  predicate Bare(s: string, cut: char -> bool) {
    s == "" || (!cut(s[0]) && !cut(s[|s| - 1]))
  }

  lemma {:induction false} TrimLeftProperties(s: string, cut: char -> bool)
    ensures var r := TrimLeft(s, cut);
            |r| <= |s| && r == s[|s| - |r|..] && (r == "" || !cut(r[0]))
    ensures TrimLeft(s, cut) == s <==> s == "" || !cut(s[0])
  {
    if s != "" && cut(s[0]) {
      TrimLeftProperties(s[1..], cut);
    }
  }

  lemma {:induction false} TrimRightProperties(s: string, cut: char -> bool)
    ensures var r := TrimRight(s, cut);
            |r| <= |s| && r == s[..|r|] && (r == "" || !cut(r[|r| - 1]))
    ensures TrimRight(s, cut) == s <==> s == "" || !cut(s[|s| - 1])
  {
    if s != "" && cut(s[|s| - 1]) {
      TrimRightProperties(s[..|s| - 1], cut);
    }
  }

  /** Trimming yields a bare part of the input, and changes the input exactly when it is not bare. */
  lemma TrimProperties(s: string, cut: char -> bool)
    ensures Bare(Trim(s, cut), cut)
    ensures |Trim(s, cut)| <= |s| && (forall c :: c in Trim(s, cut) ==> c in s)
    ensures Trim(s, cut) == s <==> Bare(s, cut)
    ensures !Bare(s, cut) ==> |Trim(s, cut)| < |s|
  {
    var l := TrimLeft(s, cut);
    TrimLeftProperties(s, cut);
    TrimRightProperties(l, cut);
    var r := Trim(s, cut);
    assert r == l[..|r|];
    if r != "" {
      assert r[0] == l[0];
    }
    if |r| == |s| {
      assert l == s;
      assert r == s;
    }
  }

  /** What trims to nothing consists of trimmed characters only. */
  lemma TrimmedAway(s: string, cut: char -> bool)
    requires Trim(s, cut) == ""
    ensures forall c :: c in s ==> cut(c)
  {
    var l := TrimLeft(s, cut);
    TrimLeftProperties(s, cut);
    if l != "" {
      TrimRightKeeps(l, cut);
      assert false;
    }
    TrimLeftAway(s, cut);
  }

  /** Trimming leaves nothing exactly when there are only trimmed characters. */
  lemma TrimmedAwayExactly(s: string, cut: char -> bool)
    ensures Trim(s, cut) == "" <==> forall c :: c in s ==> cut(c)
  {
    TrimProperties(s, cut);
    if Trim(s, cut) == "" {
      TrimmedAway(s, cut);
    } else {
      assert Trim(s, cut)[0] in s;
    }
  }

  lemma {:induction false} TrimRightKeeps(s: string, cut: char -> bool)
    requires s != "" && !cut(s[0])
    ensures TrimRight(s, cut) != ""
  {
    if cut(s[|s| - 1]) {
      TrimRightKeeps(s[..|s| - 1], cut);
    }
  }

  lemma {:induction false} TrimLeftAway(s: string, cut: char -> bool)
    requires TrimLeft(s, cut) == ""
    ensures forall c :: c in s ==> cut(c)
  {
    if s != "" {
      TrimLeftAway(s[1..], cut);
    }
  }

  // ---------------------------------------------------------------- letter case

  function LowerChar(c: char): char {
    if 'A' <= c <= 'Z' then c + ' ' else c
  }

  function ToLower(s: string): (r: string)
    ensures |r| == |s|
  {
    seq(|s|, i requires 0 <= i < |s| => LowerChar(s[i]))
  }

  /** Text without capitals that begins and ends with a small letter is left alone by trimming and lower-casing. */
  lemma LowerTextStays(s: string)
    requires s != "" && 'a' <= s[0] <= 'z' && 'a' <= s[|s| - 1] <= 'z'
    requires forall i :: 0 <= i < |s| ==> !('A' <= s[i] <= 'Z')
    ensures TrimSpace(s) == s && ToLower(s) == s
  {
    TrimProperties(s, IsSpace);
  }

  // ---------------------------------------------------------------- splitting and joining

  /** The text before and after the first separator. */
  function Cut(s: string, sep: char): Option<(string, string)> {
    if s == "" then None
    else if s[0] == sep then Some(("", s[1..]))
    else
      match Cut(s[1..], sep)
      case None => None
      case Some(pair) => Some(([s[0]] + pair.0, pair.1))
  }

  lemma {:induction false} CutProperties(s: string, sep: char)
    ensures Cut(s, sep).None? <==> sep !in s
    ensures Cut(s, sep).Some? ==>
      var pair := Cut(s, sep).value;
      s == pair.0 + [sep] + pair.1 && sep !in pair.0 && |pair.1| < |s|
  {
    if s != "" {
      assert s == [s[0]] + s[1..];
      if s[0] != sep {
        CutProperties(s[1..], sep);
      }
    }
  }

  lemma {:induction false} CutUnique(a: string, sep: char, b: string)
    requires sep !in a
    ensures Cut(a + [sep] + b, sep) == Some((a, b))
  {
    var s := a + [sep] + b;
    if a == "" {
      assert s[1..] == b;
    } else {
      assert s[1..] == a[1..] + [sep] + b;
      CutUnique(a[1..], sep, b);
      assert s[0] == a[0] && a == [a[0]] + a[1..];
    }
  }

  /** All the parts between separators; a string without separators is one part. */
  function Split(s: string, sep: char): seq<string>
    decreases |s|
  {
    CutProperties(s, sep);
    match Cut(s, sep)
    case None => [s]
    case Some(pair) => [pair.0] + Split(pair.1, sep)
  }

  lemma {:induction false} SplitProperties(s: string, sep: char)
    ensures |Split(s, sep)| >= 1
    ensures forall p :: p in Split(s, sep) ==> sep !in p
    decreases |s|
  {
    CutProperties(s, sep);
    if Cut(s, sep).Some? {
      SplitProperties(Cut(s, sep).value.1, sep);
    }
  }

  /** Splitting distributes over a separator, wherever further separators are. */
  lemma {:induction false} SplitAppend(a: string, sep: char, b: string)
    ensures Split(a + [sep] + b, sep) == Split(a, sep) + Split(b, sep)
    decreases |a|
  {
    CutProperties(a, sep);
    match Cut(a, sep)
    case None => CutUnique(a, sep, b);
    case Some(pair) =>
      assert a + [sep] + b == pair.0 + [sep] + (pair.1 + [sep] + b);
      CutUnique(pair.0, sep, pair.1 + [sep] + b);
      SplitAppend(pair.1, sep, b);
  }

  /** Splitting loses nothing. */
  lemma {:induction false} SplitInjective(a: string, b: string, sep: char)
    requires Split(a, sep) == Split(b, sep)
    ensures a == b
    decreases |a|
  {
    CutProperties(a, sep);
    CutProperties(b, sep);
    if Cut(a, sep).Some? {
      SplitProperties(Cut(a, sep).value.1, sep);
    }
    if Cut(b, sep).Some? {
      SplitProperties(Cut(b, sep).value.1, sep);
    }
    assert Split(a, sep)[0] == Split(b, sep)[0];
    if Cut(a, sep).Some? {
      assert Split(a, sep)[1..] == Split(Cut(a, sep).value.1, sep);
      assert Split(b, sep)[1..] == Split(Cut(b, sep).value.1, sep);
      SplitInjective(Cut(a, sep).value.1, Cut(b, sep).value.1, sep);
    }
  }

  function Join(parts: seq<string>, sep: char): string {
    if |parts| == 0 then ""
    else if |parts| == 1 then parts[0]
    else parts[0] + [sep] + Join(parts[1..], sep)
  }

  lemma {:induction false} SplitJoin(parts: seq<string>, sep: char)
    requires |parts| >= 1
    requires forall p :: p in parts ==> sep !in p
    ensures Split(Join(parts, sep), sep) == parts
  {
    CutProperties(parts[0], sep);
    if |parts| > 1 {
      CutUnique(parts[0], sep, Join(parts[1..], sep));
      SplitJoin(parts[1..], sep);
      assert parts == [parts[0]] + parts[1..];
    }
  }

  /** Comparing joined text compares the lists, provided the parts are non-empty and free of the separator. */
  lemma JoinInjective(a: seq<string>, b: seq<string>, sep: char)
    requires forall p :: p in a || p in b ==> sep !in p && p != ""
    ensures Join(a, sep) == Join(b, sep) <==> a == b
  {
    assert Split("", sep) == [""] && [""][0] == "";
    if a != [] {
      assert a[0] in a;
      SplitJoin(a, sep);
    }
    if b != [] {
      assert b[0] in b;
      SplitJoin(b, sep);
    }
  }
}
