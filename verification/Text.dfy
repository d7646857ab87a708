/** Options, results and the string helpers the handlers are built from. */
module Text {

  datatype Option<+T> = None | Some(value: T)

  datatype Result<+T> = Ok(value: T) | Err(error: string)

  const NUL: char := '\0'

  predicate NulFree(s: string) { NUL !in s }

  // ---- splitting and joining on one separator character ----

  function Join(parts: seq<string>, sep: char): string
  {
    if parts == [] then ""
    else if |parts| == 1 then parts[0]
    else parts[0] + [sep] + Join(parts[1..], sep)
  }

  function Split(s: string, sep: char): (parts: seq<string>)
    ensures |parts| >= 1
    ensures forall p :: p in parts ==> sep !in p
  {
    if s == "" then [""]
    else
      var rest := Split(s[1..], sep);
      if s[0] == sep then [""] + rest else [[s[0]] + rest[0]] + rest[1..]
  }

  lemma {:induction false} JoinSplit(s: string, sep: char)
    ensures Join(Split(s, sep), sep) == s
  {
    if s != "" {
      JoinSplit(s[1..], sep);
      var rest := Split(s[1..], sep);
      if s[0] == sep {
        assert ([""] + rest)[1..] == rest;
      } else {
        assert ([[s[0]] + rest[0]] + rest[1..])[1..] == rest[1..];
      }
    }
  }

  lemma {:induction false} SplitWord(w: string, sep: char)
    requires sep !in w
    ensures Split(w, sep) == [w]
  {
    if w != "" {
      SplitWord(w[1..], sep);
      assert w == [w[0]] + w[1..];
    }
  }

  lemma {:induction false} SplitConcat(a: string, b: string, sep: char)
    ensures Split(a + [sep] + b, sep) == Split(a, sep) + Split(b, sep)
  {
    var s := a + [sep] + b;
    if a == "" {
      assert s[1..] == b;
    } else {
      assert s[1..] == a[1..] + [sep] + b;
      SplitConcat(a[1..], b, sep);
    }
  }

  /** Splitting undoes joining for any non-empty list of separator-free parts. */
  lemma {:induction false} SplitJoin(parts: seq<string>, sep: char)
    requires |parts| >= 1
    requires forall p :: p in parts ==> sep !in p
    ensures Split(Join(parts, sep), sep) == parts
  {
    SplitWord(parts[0], sep);
    if |parts| > 1 {
      SplitJoin(parts[1..], sep);
      SplitConcat(parts[0], Join(parts[1..], sep), sep);
    }
  }

  lemma {:induction false} JoinConcat(a: seq<string>, b: seq<string>, sep: char)
    requires a != [] && b != []
    ensures Join(a + b, sep) == Join(a, sep) + [sep] + Join(b, sep)
  {
    if |a| == 1 {
      assert (a + b)[1..] == b;
    } else {
      assert (a + b)[1..] == a[1..] + b;
      JoinConcat(a[1..], b, sep);
    }
  }

  /** A separator-free head makes "head, separator, tail" uniquely readable. */
  lemma HeadTailInjective(h1: string, t1: string, h2: string, t2: string, sep: char)
    requires sep !in h1 && sep !in h2
    requires h1 + [sep] + t1 == h2 + [sep] + t2
    ensures h1 == h2 && t1 == t2
  {
    var s := h1 + [sep] + t1;
    assert s[|h1|] == sep && s[|h2|] == sep;
    assert s[..|h1|] == h1 && s[..|h2|] == h2;
    assert |h1| == |h2|;
    assert s[|h1| + 1..] == t1 && s[|h2| + 1..] == t2;
  }

  // ---- prefixes, suffixes, white space and case ----

  predicate HasSuffix(s: string, suffix: string)
  {
    |suffix| <= |s| && s[|s| - |suffix|..] == suffix
  }

  function TrimSuffixChar(s: string, c: char): string
  {
    if s != "" && s[|s| - 1] == c then s[..|s| - 1] else s
  }

  /** The white-space characters of the Unicode standard, as Go's unicode.IsSpace lists them. */
  predicate IsSpace(c: char)
  {
    || c == ' ' || 9 <= c as int <= 13 || c as int == 0x85 || c as int == 0xA0
    || c as int == 0x1680 || 0x2000 <= c as int <= 0x200A
    || c as int == 0x2028 || c as int == 0x2029 || c as int == 0x202F
    || c as int == 0x205F || c as int == 0x3000
  }

  predicate SpaceFree(s: string)
  {
    forall c :: c in s ==> !IsSpace(c)
  }

  function TrimLeft(s: string): string
  {
    if s != "" && IsSpace(s[0]) then TrimLeft(s[1..]) else s
  }

  function TrimRight(s: string): string
  {
    if s != "" && IsSpace(s[|s| - 1]) then TrimRight(s[..|s| - 1]) else s
  }

  function TrimSpace(s: string): string { TrimRight(TrimLeft(s)) }

  lemma TrimSpaceFree(s: string)
    requires SpaceFree(s)
    ensures TrimSpace(s) == s
  {
    if s != "" {
      assert s[0] in s && s[|s| - 1] in s;
    }
  }

  function LowerChar(c: char): char
  {
    if 'A' <= c <= 'Z' then ((c as int) + 32) as char else c
  }

  /** strings.ToLower on ASCII text. */
  function ToLower(s: string): (r: string)
    ensures |r| == |s|
    ensures forall i :: 0 <= i < |s| ==> r[i] == LowerChar(s[i])
  {
    if s == "" then "" else [LowerChar(s[0])] + ToLower(s[1..])
  }

  /** Two characters outside ASCII fold to an ASCII letter: the long s and the Kelvin sign. */
  function FoldChar(c: char): char
  {
    if c as int == 0x17F then 's' else if c as int == 0x212A then 'k' else LowerChar(c)
  }

  /** strings.EqualFold, where at least one side is ASCII. */
  predicate EqualFold(a: string, b: string)
  {
    |a| == |b| && forall i :: 0 <= i < |a| ==> FoldChar(a[i]) == FoldChar(b[i])
  }

  // ---- fields: maximal runs of non-space characters ----

  function FieldsFrom(s: string, word: string): (fields: seq<string>)
    requires SpaceFree(word)
    ensures forall f :: f in fields ==> f != "" && SpaceFree(f)
    decreases s
  {
    var done := if word == "" then [] else [word];
    if s == "" then done
    else if IsSpace(s[0]) then done + FieldsFrom(s[1..], "")
    else FieldsFrom(s[1..], word + [s[0]])
  }

  function Fields(s: string): (fields: seq<string>)
    ensures forall f :: f in fields ==> f != "" && SpaceFree(f)
  {
    FieldsFrom(s, "")
  }

  lemma {:induction false} FieldsFromWord(word: string, w: string, rest: string)
    requires SpaceFree(word) && SpaceFree(w)
    ensures FieldsFrom(w + rest, word) == FieldsFrom(rest, word + w)
    decreases w
  {
    if w == "" {
      assert w + rest == rest && word + w == word;
    } else {
      assert w[0] in w;
      assert (w + rest)[1..] == w[1..] + rest;
      assert word + w == (word + [w[0]]) + w[1..];
      FieldsFromWord(word + [w[0]], w[1..], rest);
    }
  }

  /** A list of blank-free, non-empty words survives being joined by spaces and split into fields. */
  lemma {:induction false} FieldsJoin(ws: seq<string>)
    requires forall w :: w in ws ==> w != "" && SpaceFree(w)
    ensures Fields(Join(ws, ' ')) == ws
  {
    if ws == [] {
    } else if |ws| == 1 {
      FieldsFromWord("", ws[0], "");
      assert ws[0] + "" == ws[0] && "" + ws[0] == ws[0];
    } else {
      var rest := Join(ws[1..], ' ');
      FieldsFromWord("", ws[0], " " + rest);
      assert Join(ws, ' ') == ws[0] + (" " + rest);
      assert "" + ws[0] == ws[0];
      assert (" " + rest)[1..] == rest;
      FieldsJoin(ws[1..]);
    }
  }

  // ---- duplicate removal, keeping first occurrences ----

  ghost predicate Distinct(xs: seq<string>)
  {
    forall i, j :: 0 <= i < j < |xs| ==> xs[i] != xs[j]
  }

  function Dedup(xs: seq<string>): (r: seq<string>)
    ensures Distinct(r)
    ensures forall x :: x in r <==> x in xs
  {
    if xs == [] then []
    else
      var last := xs[|xs| - 1];
      assert xs == xs[..|xs| - 1] + [last];
      var r := Dedup(xs[..|xs| - 1]);
      if last in r then r else r + [last]
  }

  lemma {:induction false} DedupDistinct(xs: seq<string>)
    requires Distinct(xs)
    ensures Dedup(xs) == xs
  {
    if xs != [] {
      DedupDistinct(xs[..|xs| - 1]);
      assert xs == xs[..|xs| - 1] + [xs[|xs| - 1]];
    }
  }
}

/** What the string primitives mean, independently of how they are computed. */
module TextLaws {
  import opened Text

  /** Among ASCII characters exactly blank, tab, newline, vertical tab, form feed and return separate words. */
  lemma AsciiSpaces(c: char)
    requires c as int < 128
    ensures IsSpace(c) <==> c == ' ' || c == '\t' || c == '\n' || c == '\r' || c as int == 11 || c as int == 12
  {
  }

  predicate AllSpace(s: string) { forall c :: c in s ==> IsSpace(c) }

  /** Trimming takes white space off both ends, all of it and nothing else. */
  lemma TrimTakesSpace(s: string) returns (front: string, back: string)
    ensures s == front + TrimSpace(s) + back && AllSpace(front) && AllSpace(back)
    ensures var t := TrimSpace(s); t != "" ==> !IsSpace(t[0]) && !IsSpace(t[|t| - 1])
  {
    front := TrimLeftTakesSpace(s);
    back := TrimRightTakesSpace(TrimLeft(s));
    var t := TrimSpace(s);
    assert TrimLeft(s) == t + back;
    if t != "" { assert TrimLeft(s)[0] == t[0]; }
    assert front + (t + back) == front + t + back;
  }

  lemma {:induction false} TrimLeftTakesSpace(s: string) returns (front: string)
    ensures s == front + TrimLeft(s) && AllSpace(front)
    ensures TrimLeft(s) != "" ==> !IsSpace(TrimLeft(s)[0])
  {
    front := "";
    if s != "" && IsSpace(s[0]) {
      var rest := TrimLeftTakesSpace(s[1..]);
      front := [s[0]] + rest;
    }
  }

  lemma {:induction false} TrimRightTakesSpace(s: string) returns (back: string)
    ensures s == TrimRight(s) + back && AllSpace(back)
    ensures TrimRight(s) != "" ==> !IsSpace(TrimRight(s)[|TrimRight(s)| - 1])
  {
    back := "";
    if s != "" && IsSpace(s[|s| - 1]) {
      var n := |s| - 1;
      var rest := TrimRightTakesSpace(s[..n]);
      back := rest + [s[n]];
      assert s == s[..n] + [s[n]];
    }
  }

  /** White space before a word is skipped, and a word ends at the first white space after it. */
  lemma FieldsAreWords(space: char, word: string, rest: string)
    requires IsSpace(space)
    ensures Fields("") == [] && Fields([space] + rest) == Fields(rest)
    ensures word != "" && SpaceFree(word) ==>
      Fields(word) == [word] && Fields(word + ([space] + rest)) == [word] + Fields(rest)
  {
    assert ([space] + rest)[1..] == rest;
    if word != "" && SpaceFree(word) {
      FieldsFromWord("", word, "");
      FieldsFromWord("", word, [space] + rest);
      assert word + "" == word && "" + word == word;
    }
  }

  /** Duplicates are removed in favour of the first occurrence: what a prefix keeps stays in front. */
  lemma {:induction false} DedupKeepsFirst(xs: seq<string>, n: nat)
    requires n <= |xs|
    ensures Dedup(xs[..n]) <= Dedup(xs)
    decreases |xs| - n
  {
    if n < |xs| {
      DedupKeepsFirst(xs, n + 1);
      assert xs[..n + 1][..n] == xs[..n];
    } else {
      assert xs[..n] == xs;
    }
  }

  predicate Ascii(s: string) { forall c :: c in s ==> c as int < 128 }

  /** On ASCII text, equal under folding means equal in lower case, where only the letters A to Z change. */
  lemma FoldIsLower(a: string, b: string)
    requires Ascii(a) && Ascii(b)
    ensures EqualFold(a, b) <==> ToLower(a) == ToLower(b)
  {
    if ToLower(a) == ToLower(b) {
      forall i | 0 <= i < |a| ensures FoldChar(a[i]) == FoldChar(b[i]) {
        assert a[i] in a && b[i] in b && ToLower(a)[i] == ToLower(b)[i];
      }
    }
    if EqualFold(a, b) {
      forall i | 0 <= i < |a| ensures ToLower(a)[i] == ToLower(b)[i] {
        assert a[i] in a && b[i] in b && FoldChar(a[i]) == FoldChar(b[i]);
      }
    }
  }

  /** Lower case: letters A to Z become a to z in order, all other characters stay. */
  lemma LowerMeans(s: string, i: nat)
    requires i < |s|
    ensures |ToLower(s)| == |s|
    ensures if 'A' <= s[i] <= 'Z' then ToLower(s)[i] as int - 'a' as int == s[i] as int - 'A' as int
        else ToLower(s)[i] == s[i]
  {
  }
}
