/** ASCII character classes and the helpers of Go's `strings` package that the backend relies on. */
module Chars {

  predicate IsLower(c: char) { 'a' <= c <= 'z' }
  predicate IsUpper(c: char) { 'A' <= c <= 'Z' }
  predicate IsLetter(c: char) { IsLower(c) || IsUpper(c) }
  predicate IsDigit(c: char) { '0' <= c <= '9' }
  predicate IsAlnum(c: char) { IsLetter(c) || IsDigit(c) }

  /** `unicode.IsSpace` on ASCII: tab, line feed, vertical tab, form feed, carriage return and space. */
  predicate IsSpace(c: char) { c == ' ' || '\t' <= c <= '\r' }

  /** The RE2 class `\s`, which is `[\t\n\f\r ]` (no vertical tab). */
  predicate IsRegexSpace(c: char) { c == ' ' || c == '\t' || c == '\n' || c == '\U{000C}' || c == '\r' }

  /** Every character of `s` is listed in `allowed`, as a regular-expression character class `[...]+` spells it. */
  predicate AllIn(s: string, allowed: string) { forall i :: 0 <= i < |s| ==> s[i] in allowed }

  predicate AllDigits(s: string) { forall i :: 0 <= i < |s| ==> IsDigit(s[i]) }
  predicate AllAlnum(s: string) { forall i :: 0 <= i < |s| ==> IsAlnum(s[i]) }
  predicate AllLetters(s: string) { forall i :: 0 <= i < |s| ==> IsLetter(s[i]) }
  predicate NoSpace(s: string) { forall i :: 0 <= i < |s| ==> !IsSpace(s[i]) }

  function ToLowerChar(c: char): (r: char)
    ensures !IsUpper(r)
    ensures IsLetter(c) <==> IsLetter(r)
    ensures IsSpace(c) <==> IsSpace(r)
  {
    if IsUpper(c) then (c as int + 32) as char else c
  }

  function ToUpperChar(c: char): (r: char)
    ensures !IsLower(r)
    ensures IsLetter(c) <==> IsLetter(r)
    ensures IsSpace(c) <==> IsSpace(r)
  {
    if IsLower(c) then (c as int - 32) as char else c
  }

  /** `strings.ToLower` on ASCII text. */
  function Lower(s: string): (r: string)
    ensures |r| == |s|
    ensures forall i :: 0 <= i < |s| ==> r[i] == ToLowerChar(s[i])
  {
    seq(|s|, i requires 0 <= i < |s| => ToLowerChar(s[i]))
  }

  /** `strings.ToUpper` on ASCII text. */
  function Upper(s: string): (r: string)
    ensures |r| == |s|
    ensures forall i :: 0 <= i < |s| ==> r[i] == ToUpperChar(s[i])
  {
    seq(|s|, i requires 0 <= i < |s| => ToUpperChar(s[i]))
  }

  lemma LowerIdempotent(s: string)
    ensures Lower(Lower(s)) == Lower(s)
  {
  }

  /** Two strings are equal up to ASCII case, as `strings.ToLower(a) == strings.ToLower(b)` or `strings.EqualFold`. */
  predicate EqualFold(a: string, b: string) { Lower(a) == Lower(b) }

  function HasSuffix(s: string, suffix: string): bool
  {
    |suffix| <= |s| && s[|s| - |suffix|..] == suffix
  }

  function TrimLeft(s: string): (r: string)
    ensures |r| <= |s| && r == s[|s| - |r|..]
    ensures r == [] || !IsSpace(r[0])
    ensures forall i :: 0 <= i < |s| - |r| ==> IsSpace(s[i])
    decreases |s|
  {
    if |s| > 0 && IsSpace(s[0]) then TrimLeft(s[1..]) else s
  }

  function TrimRight(s: string): (r: string)
    ensures |r| <= |s| && r == s[..|r|]
    ensures r == [] || !IsSpace(r[|r| - 1])
    ensures forall i :: |r| <= i < |s| ==> IsSpace(s[i])
    decreases |s|
  {
    if |s| > 0 && IsSpace(s[|s| - 1]) then TrimRight(s[..|s| - 1]) else s
  }

  /** `strings.TrimSpace`: the longest middle part of `s` without surrounding white space. */
  function TrimSpace(s: string): (r: string)
    ensures |r| <= |s|
    ensures r == [] || (!IsSpace(r[0]) && !IsSpace(r[|r| - 1]))
  {
    TrimRight(TrimLeft(s))
  }

  /** `r` is the slice of `s` that starts at `a`, and only white space lies before and after it. */
  predicate MiddleSlice(s: string, a: nat, r: string) {
    a + |r| <= |s| && r == s[a..a + |r|] &&
    (forall i :: 0 <= i < a ==> IsSpace(s[i])) && (forall i :: a + |r| <= i < |s| ==> IsSpace(s[i]))
  }

  /** The trimmed text is the middle slice of `s` after its leading white space. */
  lemma TrimSpaceIsMiddle(s: string)
    ensures MiddleSlice(s, |s| - |TrimLeft(s)|, TrimSpace(s))
  {
    var l := TrimLeft(s);
    var r := TrimRight(l);
    assert l == s[|s| - |l|..] && forall i :: 0 <= i < |s| - |l| ==> IsSpace(s[i]);
    assert r == l[..|r|] && forall i :: |r| <= i < |l| ==> IsSpace(l[i]);
    MiddleOfSlices(s, l, r);
  }

  /** A prefix `r` of a suffix `l` of `s`, with white space only around them, is a middle slice of `s`. */
  lemma MiddleOfSlices(s: string, l: string, r: string)
    requires |l| <= |s| && l == s[|s| - |l|..] && |r| <= |l| && r == l[..|r|]
    requires forall i :: 0 <= i < |s| - |l| ==> IsSpace(s[i])
    requires forall i :: |r| <= i < |l| ==> IsSpace(l[i])
    ensures MiddleSlice(s, |s| - |l|, r)
  {
    var a := |s| - |l|;
    forall i | a + |r| <= i < |s| ensures IsSpace(s[i]) { assert s[i] == l[i - a]; }
  }

  /** A string that neither starts nor ends with white space is its own trimmed form. */
  lemma TrimSpaceOfTrimmed(s: string)
    requires s == [] || (!IsSpace(s[0]) && !IsSpace(s[|s| - 1]))
    ensures TrimSpace(s) == s
  {
  }

  lemma TrimSpaceIdempotent(s: string)
    ensures TrimSpace(TrimSpace(s)) == TrimSpace(s)
  {
    TrimSpaceOfTrimmed(TrimSpace(s));
  }

  function IndexOf(s: string, c: char): (k: nat)
    requires c in s
    ensures k < |s| && s[k] == c && c !in s[..k]
  {
    if s[0] == c then 0 else 1 + IndexOf(s[1..], c)
  }

  /** `strings.Split(s, string(sep))`: the pieces between separators; the empty string gives one empty piece. */
  function Split(s: string, sep: char): (r: seq<string>)
    ensures |r| >= 1
    ensures forall i :: 0 <= i < |r| ==> sep !in r[i]
    decreases |s|
  {
    if sep !in s then [s]
    else
      var k := IndexOf(s, sep);
      [s[..k]] + Split(s[k + 1..], sep)
  }

  /** Length of the leading run of non-space characters. */
  function WordEnd(t: string): (k: nat)
    ensures k <= |t|
    ensures forall j :: 0 <= j < k ==> !IsSpace(t[j])
    ensures k < |t| ==> IsSpace(t[k])
  {
    if |t| == 0 || IsSpace(t[0]) then 0 else 1 + WordEnd(t[1..])
  }

  /** Every element is a non-empty word without white space. */
  predicate Words(ws: seq<string>) { forall i :: 0 <= i < |ws| ==> ws[i] != [] && NoSpace(ws[i]) }

  lemma WordsCons(w: string, rest: seq<string>)
    requires w != [] && NoSpace(w) && Words(rest)
    ensures Words([w] + rest)
  {
    var r := [w] + rest;
    forall i | 0 <= i < |r| ensures r[i] != [] && NoSpace(r[i]) {
      if i > 0 { assert r[i] == rest[i - 1]; }
    }
  }

  /** `strings.Fields`: the maximal runs of non-space characters, in order. */
  function Fields(s: string): (r: seq<string>)
    ensures Words(r)
    ensures r == [] <==> TrimLeft(s) == []
    decreases |s|
  {
    var t := TrimLeft(s);
    if t == [] then []
    else
      var k := WordEnd(t);
      assert 0 < k;
      var w := t[..k];
      assert NoSpace(w);
      var rest := Fields(t[k..]);
      WordsCons(w, rest);
      [w] + rest
  }

  /** `strings.Join(ws, sep)`. */
  function Join(ws: seq<string>, sep: string): string
  {
    if |ws| == 0 then "" else if |ws| == 1 then ws[0] else ws[0] + sep + Join(ws[1..], sep)
  }

  /** No white space at either end, none doubled, and every white-space character a plain space. */
  predicate SingleSpaced(t: string) {
    (t != [] ==> !IsSpace(t[0]) && !IsSpace(t[|t| - 1])) &&
    (forall i :: 0 < i < |t| ==> !IsSpace(t[i - 1]) || !IsSpace(t[i])) &&
    (forall i :: 0 <= i < |t| ==> IsSpace(t[i]) ==> t[i] == ' ')
  }

  /** `Fields` looks only at the text after the leading white space. */
  lemma FieldsAfterTrim(x: string, y: string)
    requires TrimLeft(x) == TrimLeft(y)
    ensures Fields(x) == Fields(y)
  {
  }

  /** A text that starts with a word: that word, then the words of the rest. */
  lemma FieldsStep(s: string)
    requires s != [] && !IsSpace(s[0])
    ensures Fields(s) == [s[..WordEnd(s)]] + Fields(s[WordEnd(s)..])
  {
    assert TrimLeft(s) == s;
  }

  /** A text cut around one of its characters is the part before, that character, and the part after. */
  lemma SplitAround(s: string, k: nat)
    requires k < |s|
    ensures s == s[..k] + [s[k]] + s[k + 1..]
  {
  }

  /** What follows a space inside a single-spaced text is single-spaced again. */
  lemma SingleSpacedAfter(s: string, k: nat)
    requires SingleSpaced(s) && k < |s| && IsSpace(s[k])
    ensures SingleSpaced(s[k + 1..])
  {
    var u := s[k + 1..];
    forall i | 0 < i < |u| ensures !IsSpace(u[i - 1]) || !IsSpace(u[i]) { assert u[i - 1] == s[k + i] && u[i] == s[k + 1 + i]; }
    forall i | 0 <= i < |u| ensures IsSpace(u[i]) ==> u[i] == ' ' { assert u[i] == s[k + 1 + i]; }
  }

  /** The words of a single-spaced text, joined by single spaces, give the text back: they are its maximal runs, in order. */
  lemma {:induction false} FieldsOfSingleSpaced(s: string)
    requires SingleSpaced(s)
    ensures Join(Fields(s), " ") == s
    decreases |s|
  {
    if s != [] {
      var k := WordEnd(s);
      if k == |s| {
        FieldsStep(s);
        assert s[k..] == [];
      } else {
        SingleSpacedAfter(s, k);
        FieldsOfSingleSpaced(s[k + 1..]);
        FieldsJoinStep(s, k);
      }
    }
  }

  /** One word, one space, then words that join back to the rest: the whole text joins back. */
  lemma FieldsJoinStep(s: string, k: nat)
    requires s != [] && !IsSpace(s[0]) && k == WordEnd(s) < |s| && s[k] == ' '
    requires s[k + 1..] != [] && !IsSpace(s[k + 1])
    requires Join(Fields(s[k + 1..]), " ") == s[k + 1..]
    ensures Join(Fields(s), " ") == s
  {
    var u := s[k + 1..];
    var w := s[..k];
    assert TrimLeft(u) == u;
    var rest := Fields(u);
    assert Fields(s) == [w] + rest by {
      FieldsStep(s);
      FieldsAfterSpace(s, k);
    }
    assert [s[k]] == " ";
    calc {
      Join(Fields(s), " ");
      Join([w] + rest, " ");
      { JoinCons(w, rest, " "); }
      w + " " + Join(rest, " ");
      w + " " + u;
      { SplitAround(s, k); }
      s;
    }
  }

  /** A space in front changes nothing about the words. */
  lemma FieldsAfterSpace(s: string, k: nat)
    requires k < |s| && IsSpace(s[k])
    ensures Fields(s[k..]) == Fields(s[k + 1..])
  {
    assert s[k..][1..] == s[k + 1..];
    FieldsAfterTrim(s[k..], s[k + 1..]);
  }

  lemma JoinCons(w: string, rest: seq<string>, sep: string)
    requires rest != []
    ensures Join([w] + rest, sep) == w + sep + Join(rest, sep)
  {
    assert ([w] + rest)[1..] == rest;
  }

  /** Words joined by single spaces are single-spaced. */
  lemma {:induction false} JoinWordsSingleSpaced(ws: seq<string>)
    requires Words(ws)
    ensures SingleSpaced(Join(ws, " "))
    ensures ws != [] ==> Join(ws, " ") != [] && Join(ws, " ")[0] == ws[0][0]
  {
    if |ws| >= 2 {
      var w := ws[0];
      assert Words(ws[1..]) by {
        forall i | 0 <= i < |ws[1..]| ensures ws[1..][i] != [] && NoSpace(ws[1..][i]) { assert ws[1..][i] == ws[i + 1]; }
      }
      JoinWordsSingleSpaced(ws[1..]);
      var j := Join(ws[1..], " ");
      var t := w + " " + j;
      assert Join(ws, " ") == t;
      assert w != [] && NoSpace(w);
      forall i | 0 <= i < |t| ensures IsSpace(t[i]) ==> t[i] == ' ' {
        if i > |w| { assert t[i] == j[i - |w| - 1]; }
      }
      forall i | 0 < i < |t| ensures !IsSpace(t[i - 1]) || !IsSpace(t[i]) {
        if i < |w| {
          assert t[i] == w[i];
        } else if i == |w| {
          assert t[i - 1] == w[|w| - 1];
        } else if i == |w| + 1 {
          assert t[i] == j[0];
        } else {
          assert t[i] == j[i - |w| - 1] && t[i - 1] == j[i - 1 - |w| - 1];
        }
      }
      assert t[|t| - 1] == j[|j| - 1];
    } else if |ws| == 1 {
      var w := ws[0];
      assert w != [] && NoSpace(w);
    }
  }
}
