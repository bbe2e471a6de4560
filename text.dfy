/**
  String helpers standing in for the java.lang.String calls the modelled code makes:
  `replaceAll("\\s+", "_")`, `split("\\s+")`, `toUpperCase()` and `equalsIgnoreCase`.
  Case mapping is over ASCII letters only.
 */
module Text {

  /** The characters of the regular-expression class `\s`: space, \t, \n, \u000B, \f and \r. */
  predicate IsWhitespace(c: char) {
    c == ' ' || c == '\t' || c == '\n' || c == '\U{B}' || c == '\U{C}' || c == '\r'
  }

  predicate HasNoWhitespace(s: string) {
    forall i :: 0 <= i < |s| ==> !IsWhitespace(s[i])
  }

  /** The characters of `s` that are not whitespace, in order. */
  function DropWhitespace(s: string): string {
    if s == [] then []
    else if IsWhitespace(s[0]) then DropWhitespace(s[1..])
    else [s[0]] + DropWhitespace(s[1..])
  }

  /** Drops the leading whitespace run of `s`. */
  function SkipWhitespace(s: string): (r: string)
    ensures |r| <= |s|
    ensures r == [] || !IsWhitespace(r[0])
    ensures DropWhitespace(r) == DropWhitespace(s)
  {
    if s != [] && IsWhitespace(s[0]) then SkipWhitespace(s[1..]) else s
  }

  /** `s.replaceAll("\\s+", "_")`: every maximal run of whitespace becomes one underscore. */
  function CollapseWhitespace(s: string): string
    decreases |s|
  {
    if s == [] then []
    else if IsWhitespace(s[0]) then "_" + CollapseWhitespace(SkipWhitespace(s))
    else [s[0]] + CollapseWhitespace(s[1..])
  }

  /** The collapsed string holds no whitespace, and its non-underscore characters are exactly the input's
      non-whitespace, non-underscore characters, in order. */
  lemma {:induction false} CollapseWhitespaceSound(s: string)
    ensures HasNoWhitespace(CollapseWhitespace(s))
    ensures |CollapseWhitespace(s)| <= |s|
    ensures DropChar(CollapseWhitespace(s), '_') == DropChar(DropWhitespace(s), '_')
    decreases |s|
  {
    if s == [] {
    } else if IsWhitespace(s[0]) {
      var rest := SkipWhitespace(s);
      CollapseWhitespaceSound(rest);
      SkipOnlyWhitespace(s);
      assert DropWhitespace(s) == DropWhitespace(rest);
      assert CollapseWhitespace(s) == "_" + CollapseWhitespace(rest);
      assert DropChar("_" + CollapseWhitespace(rest), '_') == DropChar(CollapseWhitespace(rest), '_');
    } else {
      CollapseWhitespaceSound(s[1..]);
      assert CollapseWhitespace(s) == [s[0]] + CollapseWhitespace(s[1..]);
      assert ([s[0]] + CollapseWhitespace(s[1..]))[1..] == CollapseWhitespace(s[1..]);
      assert DropWhitespace(s) == [s[0]] + DropWhitespace(s[1..]);
      assert ([s[0]] + DropWhitespace(s[1..]))[1..] == DropWhitespace(s[1..]);
    }
  }

  /** The skipped prefix is a non-empty run of whitespace when `s` starts with whitespace. */
  lemma SkipOnlyWhitespace(s: string)
    requires s != [] && IsWhitespace(s[0])
    ensures |SkipWhitespace(s)| < |s|
  {
  }

  /** A string without whitespace is left unchanged. */
  lemma {:induction false} CollapseWhitespaceIdentity(s: string)
    requires HasNoWhitespace(s)
    ensures CollapseWhitespace(s) == s
  {
    if s != [] {
      assert !IsWhitespace(s[0]);
      CollapseWhitespaceIdentity(s[1..]);
      assert s == [s[0]] + s[1..];
    }
  }

  /** `s` without every occurrence of `c`. */
  function DropChar(s: string, c: char): string {
    if s == [] then []
    else if s[0] == c then DropChar(s[1..], c)
    else [s[0]] + DropChar(s[1..], c)
  }

  lemma {:induction false} DropCharAppend(a: string, b: string, c: char)
    ensures DropChar(a + b, c) == DropChar(a, c) + DropChar(b, c)
  {
    if a == [] {
      assert a + b == b;
    } else {
      assert (a + b)[0] == a[0];
      assert (a + b)[1..] == a[1..] + b;
      DropCharAppend(a[1..], b, c);
    }
  }

  /** The name the test runners give a test case: id and name with each whitespace run replaced by `_`,
      joined by `__`. */
  function TestName(id: string, name: string): string {
    CollapseWhitespace(id) + "__" + CollapseWhitespace(name)
  }

  /** A test name holds no whitespace; apart from underscores it spells the id's and then the name's
      non-whitespace characters; ids and names without whitespace are kept as they are. */
  lemma TestNameSound(id: string, name: string)
    ensures HasNoWhitespace(TestName(id, name))
    ensures DropChar(TestName(id, name), '_') == DropChar(DropWhitespace(id), '_') + DropChar(DropWhitespace(name), '_')
    ensures HasNoWhitespace(id) && HasNoWhitespace(name) ==> TestName(id, name) == id + "__" + name
  {
    var a := CollapseWhitespace(id);
    var b := CollapseWhitespace(name);
    var t := TestName(id, name);
    assert t == a + ("__" + b);
    assert HasNoWhitespace(t) by {
      CollapseWhitespaceSound(id);
      CollapseWhitespaceSound(name);
      forall i | 0 <= i < |t|
        ensures !IsWhitespace(t[i])
      {
        if i < |a| {
          assert t[i] == a[i];
        } else if i < |a| + 2 {
          assert t[i] == '_';
        } else {
          assert t[i] == b[i - |a| - 2];
        }
      }
    }
    assert DropChar(t, '_') == DropChar(DropWhitespace(id), '_') + DropChar(DropWhitespace(name), '_') by {
      CollapseWhitespaceSound(id);
      CollapseWhitespaceSound(name);
      DropCharAppend(a, "__" + b, '_');
      DropCharAppend("__", b, '_');
      assert DropChar("__", '_') == [];
    }
    if HasNoWhitespace(id) && HasNoWhitespace(name) {
      CollapseWhitespaceIdentity(id);
      CollapseWhitespaceIdentity(name);
    }
  }

  /** ASCII upper case of one character. */
  function UpperChar(c: char): char {
    if 'a' <= c <= 'z' then (c as int - 'a' as int + 'A' as int) as char else c
  }

  /** `s.toUpperCase()` restricted to ASCII letters. */
  function ToUpper(s: string): (r: string)
    ensures |r| == |s|
    ensures forall i :: 0 <= i < |s| ==> r[i] == UpperChar(s[i])
  {
    seq(|s|, i requires 0 <= i < |s| => UpperChar(s[i]))
  }

  /** No ASCII lower-case letter. */
  predicate IsUpperCase(s: string) {
    forall i :: 0 <= i < |s| ==> !('a' <= s[i] <= 'z')
  }

  /** `toUpperCase` leaves no lower-case letter, keeps the text apart from case, and changes nothing
      else: whitespace stays where it was. */
  lemma ToUpperSound(s: string)
    ensures IsUpperCase(ToUpper(s))
    ensures EqualsIgnoreCase(ToUpper(s), s)
    ensures forall i :: 0 <= i < |s| ==> (IsWhitespace(ToUpper(s)[i]) <==> IsWhitespace(s[i]))
  {
    var u := ToUpper(s);
    assert ToUpper(u) == u by {
      forall i | 0 <= i < |u|
        ensures ToUpper(u)[i] == u[i]
      {
        assert u[i] == UpperChar(s[i]);
      }
    }
  }

  /** `a.equalsIgnoreCase(b)` restricted to ASCII letters. */
  predicate EqualsIgnoreCase(a: string, b: string) {
    ToUpper(a) == ToUpper(b)
  }

  /** The pieces of `s` between whitespace runs, as `split` finds them before trailing empty strings are
      dropped: a leading run yields a leading empty piece, a trailing run a trailing empty piece. */
  function Pieces(s: string): (r: seq<string>)
    ensures |r| >= 1
    ensures forall i :: 0 <= i < |r| ==> HasNoWhitespace(r[i])
    ensures forall i :: 0 < i < |r| - 1 ==> r[i] != []
    decreases |s|
  {
    if s == [] then [[]]
    else if IsWhitespace(s[0]) then
      var rest := Pieces(SkipWhitespace(s));
      [[]] + rest
    else
      var rest := Pieces(s[1..]);
      [[s[0]] + rest[0]] + rest[1..]
  }

  /** Drops the trailing empty strings of a list. */
  function DropTrailingEmpty(xs: seq<string>): (r: seq<string>)
    ensures |r| <= |xs| && r == xs[..|r|]
    ensures r == [] || r[|r| - 1] != []
    ensures forall i :: |r| <= i < |xs| ==> xs[i] == []
  {
    if xs == [] then []
    else if xs[|xs| - 1] == [] then DropTrailingEmpty(xs[..|xs| - 1])
    else xs
  }

  /** `s.split("\\s+")`: a string without whitespace is its own single piece; otherwise the pieces
      between whitespace runs, with the trailing empty strings removed. */
  function Split(s: string): seq<string> {
    if HasNoWhitespace(s) then [s] else DropTrailingEmpty(Pieces(s))
  }

  function Concat(xs: seq<string>): string {
    if xs == [] then [] else xs[0] + Concat(xs[1..])
  }

  lemma {:induction false} ConcatAppend(xs: seq<string>, ys: seq<string>)
    ensures Concat(xs + ys) == Concat(xs) + Concat(ys)
  {
    if xs == [] {
      assert xs + ys == ys;
    } else {
      assert (xs + ys)[1..] == xs[1..] + ys;
      ConcatAppend(xs[1..], ys);
    }
  }

  lemma {:induction false} PiecesConcat(s: string)
    ensures Concat(Pieces(s)) == DropWhitespace(s)
    decreases |s|
  {
    if s == [] {
    } else if IsWhitespace(s[0]) {
      PiecesConcat(SkipWhitespace(s));
      SkipOnlyWhitespace(s);
      var rest := Pieces(SkipWhitespace(s));
      assert ([[]] + rest)[1..] == rest;
    } else {
      PiecesConcat(s[1..]);
      var rest := Pieces(s[1..]);
      var r := [[s[0]] + rest[0]] + rest[1..];
      assert r[1..] == rest[1..];
      assert Concat(rest) == rest[0] + Concat(rest[1..]);
      assert Concat(r) == [s[0]] + rest[0] + Concat(rest[1..]);
    }
  }

  lemma {:induction false} DropTrailingEmptyConcat(xs: seq<string>)
    ensures Concat(DropTrailingEmpty(xs)) == Concat(xs)
    decreases |xs|
  {
    if xs != [] && xs[|xs| - 1] == [] {
      var init := xs[..|xs| - 1];
      DropTrailingEmptyConcat(init);
      assert xs == init + [xs[|xs| - 1]];
      ConcatAppend(init, [xs[|xs| - 1]]);
      assert Concat([xs[|xs| - 1]]) == [];
    }
  }

  lemma {:induction false} DropWhitespaceIdentity(s: string)
    requires HasNoWhitespace(s)
    ensures DropWhitespace(s) == s
  {
    if s != [] {
      DropWhitespaceIdentity(s[1..]);
      assert s == [s[0]] + s[1..];
    }
  }

  /** The pieces `split("\\s+")` returns hold no whitespace, none but the first is empty, and together
      they spell the input with its whitespace removed. */
  lemma SplitSound(s: string)
    ensures forall i :: 0 <= i < |Split(s)| ==> HasNoWhitespace(Split(s)[i])
    ensures forall i :: 0 < i < |Split(s)| ==> Split(s)[i] != []
    ensures Concat(Split(s)) == DropWhitespace(s)
  {
    if HasNoWhitespace(s) {
      DropWhitespaceIdentity(s);
      assert Concat([s]) == s + Concat([]);
    } else {
      var p := Pieces(s);
      var d := DropTrailingEmpty(p);
      assert Split(s) == d;
      assert forall i :: 0 <= i < |d| ==> d[i] == p[i];
      assert forall i :: 0 < i < |d| ==> d[i] != [] by {
        forall i | 0 < i < |d|
          ensures d[i] != []
        {
          if i == |d| - 1 {
            assert d[|d| - 1] != [];
          } else {
            assert i < |p| - 1;
          }
        }
      }
      assert Concat(d) == DropWhitespace(s) by {
        PiecesConcat(s);
        DropTrailingEmptyConcat(p);
      }
    }
  }
}
