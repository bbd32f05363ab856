/**
 * String primitives shared by the model: Python's ASCII character classes and
 * its str.lower / strip / split / startswith / endswith / `in` / join, written
 * as recursive functions over `seq<char>`.
 */
module Text {

  /** Python's str.isspace() restricted to ASCII: space, \t \n \v \f \r and \x1c-\x1f. */
  predicate IsSpace(c: char) {
    c == ' ' || ('\t' <= c <= '\r') || ('\U{1C}' <= c <= '\U{1F}')
  }

  predicate IsUpper(c: char) { 'A' <= c <= 'Z' }

  predicate IsLower(c: char) { 'a' <= c <= 'z' }

  predicate IsAlpha(c: char) { IsUpper(c) || IsLower(c) }

  predicate IsDigit(c: char) { '0' <= c <= '9' }

  /** The regular-expression class \w over ASCII. */
  predicate IsWordChar(c: char) { IsAlpha(c) || IsDigit(c) || c == '_' }

  predicate NoSpace(s: string) { forall i | 0 <= i < |s| :: !IsSpace(s[i]) }

  predicate AllSpace(s: string) { forall i | 0 <= i < |s| :: IsSpace(s[i]) }

  /** n blanks: the indentation inside the source's HTML templates. */
  function Pad(n: nat): string { seq(n, _ => ' ') }

  /** One line of an HTML template: a newline, the indentation, the text. */
  function Line(indent: nat, text: string): string
  {
    "\n" + Pad(indent) + text
  }

  function LowerChar(c: char): char {
    if IsUpper(c) then (c as int + 32) as char else c
  }

  /** str.lower() on ASCII text. */
  function Lower(s: string): (r: string)
    ensures |r| == |s|
    ensures forall i | 0 <= i < |s| :: r[i] == LowerChar(s[i])
  {
    if s == [] then [] else [LowerChar(s[0])] + Lower(s[1..])
  }

  /** Number of whitespace characters that start s. */
  function LeadingSpaces(s: string): (n: nat)
    ensures n <= |s| && AllSpace(s[..n]) && (n == |s| || !IsSpace(s[n]))
    decreases |s|
  {
    if s == [] || !IsSpace(s[0]) then 0 else 1 + LeadingSpaces(s[1..])
  }

  /** Number of whitespace characters that end s. */
  function TrailingSpaces(s: string): (n: nat)
    ensures n <= |s| && AllSpace(s[|s| - n..]) && (n == |s| || !IsSpace(s[|s| - n - 1]))
    decreases |s|
  {
    if s == [] || !IsSpace(s[|s| - 1]) then 0
    else
      var n := TrailingSpaces(s[..|s| - 1]);
      assert s[|s| - 1 - n..] == s[..|s| - 1][|s| - 1 - n..] + [s[|s| - 1]];
      1 + n
  }

  /** str.lstrip(): the suffix left after dropping leading whitespace. */
  function StripLeft(s: string): (r: string)
    ensures |r| <= |s| && r == s[|s| - |r|..]
    ensures AllSpace(s[..|s| - |r|])
    ensures r == [] || !IsSpace(r[0])
  {
    s[LeadingSpaces(s)..]
  }

  /** str.rstrip(): the prefix left after dropping trailing whitespace. */
  function StripRight(s: string): (r: string)
    ensures |r| <= |s| && r == s[..|r|]
    ensures AllSpace(s[|r|..])
    ensures r == [] || !IsSpace(r[|r| - 1])
  {
    s[..|s| - TrailingSpaces(s)]
  }

  /** str.strip(): empty exactly for blank input, otherwise starts and ends with a non-blank. */
  function Strip(s: string): (r: string)
    ensures r == [] <==> AllSpace(s)
    ensures r == [] || (!IsSpace(r[0]) && !IsSpace(r[|r| - 1]))
    ensures |r| <= |s|
  {
    StripBlank(s);
    StripRight(StripLeft(s))
  }

  /** Stripping both ends leaves nothing exactly when the text is blank. */
  lemma StripBlank(s: string)
    ensures StripRight(StripLeft(s)) == [] <==> AllSpace(s)
  {
    var n := LeadingSpaces(s);
    if n < |s| {
      KeptStart(s[n..]);
    } else {
      assert s[..n] == s;
    }
  }

  /** Text starting with a non-blank keeps that character under rstrip. */
  lemma KeptStart(l: string)
    requires l != [] && !IsSpace(l[0])
    ensures StripRight(l) != []
  {
    var t := TrailingSpaces(l);
    assert AllSpace(l[|l| - t..]);
  }

  /** Text that already has no surrounding whitespace is left unchanged by Strip. */
  lemma StripNoop(s: string)
    requires s == [] || (!IsSpace(s[0]) && !IsSpace(s[|s| - 1]))
    ensures Strip(s) == s
  {
  }

  /** Strip cuts one slice out of s: what StripLeft dropped, then the kept text. */
  lemma StripInside(s: string)
    ensures var d := |s| - |StripLeft(s)|;
      d + |Strip(s)| <= |s| && Strip(s) == s[d..d + |Strip(s)|]
  {
    PrefixOfSuffix(s, StripLeft(s), Strip(s));
  }

  /** A prefix of a suffix is one slice of the whole. */
  lemma PrefixOfSuffix(s: string, l: string, r: string)
    requires |l| <= |s| && l == s[|s| - |l|..]
    requires |r| <= |l| && r == l[..|r|]
    ensures r == s[|s| - |l|..|s| - |l| + |r|]
  {
  }

  /** Length of the run of non-whitespace characters that starts s. */
  function TokenLength(s: string): (n: nat)
    ensures n <= |s| && NoSpace(s[..n]) && (n == |s| || IsSpace(s[n]))
    decreases |s|
  {
    if s == [] || IsSpace(s[0]) then 0 else 1 + TokenLength(s[1..])
  }

  /** str.split() without argument: the maximal runs of non-whitespace characters, in order. */
  function Words(s: string): (ws: seq<string>)
    ensures forall i | 0 <= i < |ws| :: ws[i] != [] && NoSpace(ws[i])
    ensures ws == [] <==> AllSpace(s)
    decreases |s|
  {
    if s == [] then []
    else if IsSpace(s[0]) then Words(s[1..])
    else
      var n := TokenLength(s);
      assert s[0] == s[..n][0];
      [s[..n]] + Words(s[n..])
  }

  /**
   * The first word of a non-blank text is the non-blank run that follows its
   * leading whitespace, and it ends at whitespace or at the end of the text.
   */
  lemma {:induction false} FirstWord(s: string)
    requires !AllSpace(s)
    ensures var w := Words(s)[0]; var t := StripLeft(s);
      StartsWith(t, w) && (|w| == |t| || IsSpace(t[|w|]))
    decreases |s|
  {
    if IsSpace(s[0]) {
      FirstWord(s[1..]);
    }
  }
  /**
   * The first word is pinned down by where it sits: a non-empty run without
   * whitespace at the front of the left-stripped text, ending at whitespace
   * or at the end of the text.
   */
  lemma FirstWordUnique(s: string, w: string)
    requires !AllSpace(s) && w != [] && NoSpace(w)
    requires var t := StripLeft(s); StartsWith(t, w) && (|w| == |t| || IsSpace(t[|w|]))
    ensures w == Words(s)[0]
  {
    FirstWord(s);
    var t := StripLeft(s);
    RunIsToken(t, w);
    RunIsToken(t, Words(s)[0]);
  }

  /** A whitespace-free run at the front of t that ends at whitespace or at the end is t's first token. */
  lemma {:induction false} RunIsToken(t: string, w: string)
    requires StartsWith(t, w) && NoSpace(w) && (|w| == |t| || IsSpace(t[|w|]))
    ensures TokenLength(t) == |w|
    decreases |w|
  {
    if w != [] {
      assert t[0] == w[0];
      assert t[1..][..|w| - 1] == w[1..];
      assert |w| == |t| || IsSpace(t[1..][|w| - 1]);
      RunIsToken(t[1..], w[1..]);
    }
  }


  predicate StartsWith(s: string, p: string) { |p| <= |s| && s[..|p|] == p }

  predicate EndsWith(s: string, p: string) { |p| <= |s| && s[|s| - |p|..] == p }

  /** Python's `t in s` on strings. */
  predicate Contains(s: string, t: string)
    decreases |s|
  {
    StartsWith(s, t) || (s != [] && Contains(s[1..], t))
  }

  predicate OccursAt(s: string, t: string, i: int) {
    0 <= i && i + |t| <= |s| && s[i..i + |t|] == t
  }

  /** Contains means: t occurs at some position of s. */
  lemma {:induction false} ContainsIff(s: string, t: string)
    ensures Contains(s, t) <==> exists i :: OccursAt(s, t, i)
    decreases |s|
  {
    if s != [] {
      ContainsIff(s[1..], t);
      if exists i :: OccursAt(s, t, i) {
        var i :| OccursAt(s, t, i);
        if i > 0 {
          assert s[1..][i - 1..i - 1 + |t|] == s[i..i + |t|];
          assert OccursAt(s[1..], t, i - 1);
        }
      }
      if StartsWith(s, t) { assert OccursAt(s, t, 0); }
      if Contains(s[1..], t) && !StartsWith(s, t) {
        var i :| OccursAt(s[1..], t, i);
        assert s[i + 1..i + 1 + |t|] == s[1..][i..i + |t|];
        assert OccursAt(s, t, i + 1);
      }
    } else {
      if StartsWith(s, t) { assert OccursAt(s, t, 0); }
    }
  }

  /** any(keyword in s for keyword in keywords). */
  predicate AnyIn(s: string, keywords: seq<string>)
  {
    exists i | 0 <= i < |keywords| :: Contains(s, keywords[i])
  }

  /** A text lacking some character of t cannot contain t. */
  lemma {:induction false} MissingChar(s: string, t: string, c: char)
    requires c in t && c !in s
    ensures !Contains(s, t)
    decreases |s|
  {
    if s != [] {
      MissingChar(s[1..], t, c);
    }
  }

  /** A one-character text is contained exactly where that character occurs. */
  lemma {:induction false} ContainsChar(s: string, c: char)
    ensures Contains(s, [c]) <==> c in s
    decreases |s|
  {
    if s != [] {
      ContainsChar(s[1..], c);
      assert s == [s[0]] + s[1..];
    }
  }

  /** The parts written one after another. */
  function Concat(parts: seq<string>): string
  {
    if parts == [] then [] else parts[0] + Concat(parts[1..])
  }

  /** sep.join(parts) in Python, parts.join(sep) in JavaScript. */
  function JoinWith(parts: seq<string>, sep: string): string
    decreases |parts|
  {
    if parts == [] then []
    else if |parts| == 1 then parts[0]
    else parts[0] + sep + JoinWith(parts[1..], sep)
  }

  /** Where parts[i] begins inside JoinWith(parts, sep). */
  function PartOffset(parts: seq<string>, sep: string, i: nat): nat
    requires i <= |parts|
    decreases i
  {
    if i == 0 then 0 else |parts[0]| + |sep| + PartOffset(parts[1..], sep, i - 1)
  }

  /** Part i of JoinWith(parts, sep) sits at PartOffset(i). */
  lemma {:induction false} JoinedPartAt(parts: seq<string>, sep: string, i: nat)
    requires i < |parts|
    ensures var j := JoinWith(parts, sep); var o := PartOffset(parts, sep, i);
      o + |parts[i]| <= |j| && j[o..o + |parts[i]|] == parts[i]
    decreases i
  {
    if |parts| > 1 {
      var head := parts[0] + sep;
      var rest := JoinWith(parts[1..], sep);
      assert JoinWith(parts, sep) == head + rest;
      if i == 0 {
        assert (head + rest)[..|parts[0]|] == parts[0];
      } else {
        JoinedPartAt(parts[1..], sep, i - 1);
        var o := PartOffset(parts[1..], sep, i - 1);
        ShiftedSlice(head, rest, o, o + |parts[i]|);
      }
    }
  }

  /** Every part but the last is followed by the separator, and the next part begins right after. */
  lemma {:induction false} JoinedSepAt(parts: seq<string>, sep: string, i: nat)
    requires i + 1 < |parts|
    ensures var o := PartOffset(parts, sep, i);
      PartOffset(parts, sep, i + 1) == o + |parts[i]| + |sep|
      && OccursAt(JoinWith(parts, sep), sep, o + |parts[i]|)
    decreases i
  {
    var head := parts[0] + sep;
    var rest := JoinWith(parts[1..], sep);
    assert JoinWith(parts, sep) == head + rest;
    if i == 0 {
      assert (head + rest)[|parts[0]|..|parts[0]| + |sep|] == sep;
    } else {
      JoinedSepAt(parts[1..], sep, i - 1);
      var o := PartOffset(parts[1..], sep, i - 1);
      ShiftedSlice(head, rest, o + |parts[i]|, o + |parts[i]| + |sep|);
    }
  }

  /** The last part ends the joined text. */
  lemma {:induction false} JoinedLength(parts: seq<string>, sep: string)
    requires parts != []
    ensures |JoinWith(parts, sep)| == PartOffset(parts, sep, |parts| - 1) + |parts[|parts| - 1]|
    decreases |parts|
  {
    if |parts| > 1 {
      JoinedLength(parts[1..], sep);
    }
  }

  lemma ShiftedSlice(a: string, b: string, x: nat, y: nat)
    requires x <= y <= |b|
    ensures (a + b)[|a| + x..|a| + y] == b[x..y]
  {
  }

  /**
   * JoinWith in full: every part sits at its offset, each part but the last is
   * followed by the separator and then the next part, and the last part ends
   * the text.
   */
  lemma JoinedInOrder(parts: seq<string>, sep: string)
    ensures forall i | 0 <= i < |parts| :: OccursAt(JoinWith(parts, sep), parts[i], PartOffset(parts, sep, i))
    ensures forall i | 0 <= i < |parts| - 1 ::
      PartOffset(parts, sep, i + 1) == PartOffset(parts, sep, i) + |parts[i]| + |sep|
      && OccursAt(JoinWith(parts, sep), sep, PartOffset(parts, sep, i) + |parts[i]|)
    ensures parts != [] ==> |JoinWith(parts, sep)| == PartOffset(parts, sep, |parts| - 1) + |parts[|parts| - 1]|
  {
    forall i | 0 <= i < |parts|
      ensures OccursAt(JoinWith(parts, sep), parts[i], PartOffset(parts, sep, i))
    {
      JoinedPartAt(parts, sep, i);
    }
    forall i | 0 <= i < |parts| - 1
      ensures PartOffset(parts, sep, i + 1) == PartOffset(parts, sep, i) + |parts[i]| + |sep|
      ensures OccursAt(JoinWith(parts, sep), sep, PartOffset(parts, sep, i) + |parts[i]|)
    {
      JoinedSepAt(parts, sep, i);
    }
    if parts != [] {
      JoinedLength(parts, sep);
    }
  }

  /** A join of parts whose first part is non-empty starts with that part's first character. */
  lemma JoinedStart(parts: seq<string>, sep: string)
    requires parts != [] && parts[0] != []
    ensures JoinWith(parts, sep) != [] && JoinWith(parts, sep)[0] == parts[0][0]
  {
    JoinedPartAt(parts, sep, 0);
  }

  /** Position of the first c in s. */
  function IndexOf(s: string, c: char): (i: nat)
    requires c in s
    ensures i < |s| && s[i] == c && c !in s[..i]
  {
    if s[0] == c then 0
    else
      var j := IndexOf(s[1..], c);
      assert s[..j + 1] == [s[0]] + s[1..][..j];
      j + 1
  }

  /** str.split(sep) with a one-character separator: the pieces between separators, never none. */
  function SplitOn(s: string, sep: char): (parts: seq<string>)
    ensures parts != []
    ensures forall i | 0 <= i < |parts| :: sep !in parts[i]
    decreases |s|
  {
    if sep !in s then [s]
    else
      var i := IndexOf(s, sep);
      [s[..i]] + SplitOn(s[i + 1..], sep)
  }

  /** Joining the pieces back with the separator gives the original text. */
  lemma {:induction false} SplitJoin(s: string, sep: char)
    ensures JoinWith(SplitOn(s, sep), [sep]) == s
    decreases |s|
  {
    if sep in s {
      var i := IndexOf(s, sep);
      var rest := SplitOn(s[i + 1..], sep);
      SplitJoin(s[i + 1..], sep);
      assert SplitOn(s, sep) == [s[..i]] + rest;
      assert ([s[..i]] + rest)[1..] == rest;
      assert JoinWith(SplitOn(s, sep), [sep]) == s[..i] + [sep] + JoinWith(rest, [sep]);
      assert s == s[..i] + [sep] + s[i + 1..];
    }
  }

  /** Applies f to every element, keeping the order. */
  function MapSeq<T>(items: seq<T>, f: T -> string): (r: seq<string>)
    ensures |r| == |items|
    ensures forall i | 0 <= i < |items| :: r[i] == f(items[i])
  {
    seq(|items|, i requires 0 <= i < |items| => f(items[i]))
  }

  /**
   * The source's `for item in items: parts.append(render(item))` loop: one
   * rendered part per item, in input order.
   */
  method RenderEach<T>(items: seq<T>, render: T -> string) returns (parts: seq<string>)
    ensures parts == MapSeq(items, render)
  {
    parts := [];
    for i := 0 to |items|
      invariant |parts| == i
      invariant forall k | 0 <= k < i :: parts[k] == render(items[k])
    {
      parts := parts + [render(items[i])];
    }
  }

  /** Association lists: a Python dict or JavaScript object as its ordered entries. */
  predicate HasKey<V>(table: seq<(string, V)>, k: string)
  {
    exists i | 0 <= i < |table| :: table[i].0 == k
  }

  /** The value of the first entry for k. */
  function FirstValue<V>(table: seq<(string, V)>, k: string): V
    requires HasKey(table, k)
    decreases |table|
  {
    if table[0].0 == k then table[0].1
    else
      assert HasKey(table[1..], k) by {
        var i :| 0 <= i < |table| && table[i].0 == k;
        assert table[1..][i - 1].0 == k;
      }
      FirstValue(table[1..], k)
  }

  /** The looked-up value is the value of an entry with that key. */
  lemma {:induction false} FirstValueMember<V>(table: seq<(string, V)>, k: string)
    requires HasKey(table, k)
    ensures exists i | 0 <= i < |table| :: table[i] == (k, FirstValue(table, k))
    decreases |table|
  {
    if table[0].0 != k {
      FirstValueMember(table[1..], k);
      var i :| 0 <= i < |table| - 1 && table[1..][i] == (k, FirstValue(table[1..], k));
      assert table[i + 1] == (k, FirstValue(table, k));
    } else {
      assert table[0] == (k, FirstValue(table, k));
    }
  }
}
