/**
 * Literal placeholder substitution. Every generator in the system fills a
 * template by replacing each `{{KEY}}` token, one table entry after the
 * other, with Python's str.replace or a global literal JavaScript replace.
 */
module Replace {
  import opened Text

  /**
   * s.replace(p, r): scan from the left, replace each occurrence of p and
   * resume after it (occurrences never overlap); an empty p inserts r before
   * every character and at the end.
   */
  function ReplaceAll(s: string, p: string, r: string): string
    decreases |s|
  {
    if p == [] then (if s == [] then r else r + [s[0]] + ReplaceAll(s[1..], p, r))
    else if StartsWith(s, p) then r + ReplaceAll(s[|p|..], p, r)
    else if s == [] then []
    else [s[0]] + ReplaceAll(s[1..], p, r)
  }

  /** A text without an occurrence of p is returned unchanged. */
  lemma {:induction false} ReplaceAbsent(s: string, p: string, r: string)
    requires !Contains(s, p)
    ensures ReplaceAll(s, p, r) == s
    decreases |s|
  {
    if s != [] {
      ReplaceAbsent(s[1..], p, r);
    }
  }

  /** Replacing a pattern by itself changes nothing. */
  lemma {:induction false} ReplaceSelf(s: string, p: string)
    ensures ReplaceAll(s, p, p) == s
    decreases |s|
  {
    if p == [] {
      if s != [] {
        ReplaceSelf(s[1..], p);
      }
    } else if StartsWith(s, p) {
      ReplaceSelf(s[|p|..], p);
      assert s == s[..|p|] + s[|p|..];
    } else if s != [] {
      ReplaceSelf(s[1..], p);
    }
  }

  /** s.replace(c, ''): every c is removed and every other character is kept. */
  lemma {:induction false} RemoveChar(s: string, c: char)
    ensures c !in ReplaceAll(s, [c], "")
    ensures forall d | d != c :: d in ReplaceAll(s, [c], "") <==> d in s
    decreases |s|
  {
    if s != [] {
      RemoveChar(s[1..], c);
      assert s == [s[0]] + s[1..];
    }
  }

  /** Where no occurrence starts, the first character is copied and the scan moves on. */
  lemma ReplaceStep(s: string, p: string, r: string)
    requires p != [] && s != [] && !StartsWith(s, p)
    ensures ReplaceAll(s, p, r) == [s[0]] + ReplaceAll(s[1..], p, r)
  {
  }

  /** A prefix that cannot start an occurrence of p is copied through. */
  lemma {:induction false} ReplaceSkipPrefix(a: string, b: string, p: string, r: string)
    requires p != [] && p[0] !in a
    ensures ReplaceAll(a + b, p, r) == a + ReplaceAll(b, p, r)
    decreases |a|
  {
    if a != [] {
      assert !StartsWith(a + b, p) by {
        if |p| <= |a + b| {
          assert (a + b)[..|p|][0] == a[0] != p[0];
        }
      }
      assert (a + b)[0] == a[0] && (a + b)[1..] == a[1..] + b;
      ReplaceStep(a + b, p, r);
      ReplaceSkipPrefix(a[1..], b, p, r);
      assert a == [a[0]] + a[1..];
    } else {
      assert a + b == b;
    }
  }

  /** An occurrence at the front is replaced and the scan resumes after it. */
  lemma ReplaceAtStart(p: string, b: string, r: string)
    requires p != []
    ensures ReplaceAll(p + b, p, r) == r + ReplaceAll(b, p, r)
  {
    assert (p + b)[..|p|] == p;
    assert (p + b)[|p|..] == b;
  }

  /**
   * When p's first character occurs nowhere else in p, no occurrence of p
   * can begin inside a prefix that does not contain p: the first occurrence
   * after such a prefix is the first one replaced.
   */
  lemma {:induction false} ReplaceBeforeFirst(a: string, p: string, b: string, r: string)
    requires p != [] && p[0] !in p[1..] && !Contains(a, p)
    ensures ReplaceAll(a + (p + b), p, r) == a + (r + ReplaceAll(b, p, r))
    decreases |a|
  {
    var q := p + b;
    if a == [] {
      assert a + q == q && a + (r + ReplaceAll(b, p, r)) == r + ReplaceAll(b, p, r);
      ReplaceAtStart(p, b, r);
    } else {
      NoStartInside(a, p, b);
      ReplaceStep(a + q, p, r);
      DropHead(a, q);
      assert !Contains(a[1..], p);
      ReplaceBeforeFirst(a[1..], p, b, r);
      DropHead(a, r + ReplaceAll(b, p, r));
    }
  }

  /** The first character of a + q is a's, and the rest is a's rest followed by q. */
  lemma DropHead(a: string, q: string)
    requires a != []
    ensures (a + q)[0] == a[0] && (a + q)[1..] == a[1..] + q
    ensures a + q == [a[0]] + (a[1..] + q)
  {
    assert a == [a[0]] + a[1..];
  }

  /** Under the same conditions no occurrence of p starts at the front of a + (p + b). */
  lemma NoStartInside(a: string, p: string, b: string)
    requires p != [] && p[0] !in p[1..] && !Contains(a, p) && a != []
    ensures !StartsWith(a + (p + b), p)
  {
    var s := a + (p + b);
    if |p| <= |a| {
      assert !StartsWith(a, p);
      assert s[..|p|] == a[..|p|];
    } else {
      assert p[1..][|a| - 1] == p[|a|];
      assert s[..|p|][|a|] == p[0];
    }
  }

  /** The placeholder token the templates use for a key. */
  function Token(key: string): string
  {
    "{{" + key + "}}"
  }

  predicate BraceFree(s: string) { '{' !in s && '}' !in s }

  /** The token of a brace-free key never starts inside another such token. */
  lemma TokenNotAtStart(k: string, k2: string, b: string)
    requires k != k2 && BraceFree(k) && BraceFree(k2)
    ensures !StartsWith(Token(k2) + b, Token(k))
  {
    var s := Token(k2) + b;
    var p := Token(k);
    if |p| <= |s| {
      var j: nat;
      if |k| < |k2| {
        j := 2 + |k|;
        assert p[j] == '}' && s[j] == k2[|k|];
      } else if |k| > |k2| {
        j := 2 + |k2|;
        assert s[j] == '}' && p[j] == k[|k2|];
      } else {
        var i :| 0 <= i < |k| && k[i] != k2[i];
        j := 2 + i;
        assert p[j] == k[i] && s[j] == k2[i];
      }
      assert s[..|p|][j] != p[j];
    }
  }

  /** Nor does it start at the second brace of a token. */
  lemma TokenNotAtSecond(k: string, k2: string, b: string)
    requires BraceFree(k2)
    ensures !StartsWith("{" + (k2 + "}}" + b), Token(k))
  {
    var s := "{" + (k2 + "}}" + b);
    var p := Token(k);
    if |p| <= |s| {
      assert s[1] != '{';
      assert s[..|p|][1] != p[1];
    }
  }

  /** One token cannot be mistaken for the token of another brace-free key. */
  lemma TokenMismatch(k: string, k2: string, b: string, v: string)
    requires k != k2 && BraceFree(k) && BraceFree(k2)
    ensures ReplaceAll(Token(k2) + b, Token(k), v) == Token(k2) + ReplaceAll(b, Token(k), v)
  {
    var p := Token(k);
    var s0 := Token(k2) + b;
    var s1 := "{" + (k2 + "}}" + b);
    TokenNotAtStart(k, k2, b);
    assert s0[0] == '{' && s0[1..] == s1;
    ReplaceStep(s0, p, v);
    AfterFirstBrace(k, k2, b, v);
    assert Token(k2) == "{" + ("{" + (k2 + "}}"));
  }

  /** The rest of the token, after its first brace, is copied through as well. */
  lemma AfterFirstBrace(k: string, k2: string, b: string, v: string)
    requires BraceFree(k2)
    ensures ReplaceAll("{" + (k2 + "}}" + b), Token(k), v) == "{" + ((k2 + "}}") + ReplaceAll(b, Token(k), v))
  {
    var p := Token(k);
    var s1 := "{" + (k2 + "}}" + b);
    TokenNotAtSecond(k, k2, b);
    assert s1[0] == '{' && s1[1..] == (k2 + "}}") + b;
    ReplaceStep(s1, p, v);
    ReplaceSkipPrefix(k2 + "}}", b, p, v);
  }

  /** A template as the text between tokens and the tokens themselves. */
  datatype Piece = Lit(text: string) | Tok(key: string)

  function PieceText(x: Piece): string
  {
    match x
    case Lit(t) => t
    case Tok(k) => Token(k)
  }

  function Render(t: seq<Piece>): string
    decreases |t|
  {
    if t == [] then [] else PieceText(t[0]) + Render(t[1..])
  }

  /** No brace in the literal text, nor in any key. */
  predicate Plain(t: seq<Piece>)
  {
    forall i | 0 <= i < |t| :: BraceFree(if t[i].Lit? then t[i].text else t[i].key)
  }

  /** Every token of key k turned into the literal v. */
  function Fill(t: seq<Piece>, k: string, v: string): seq<Piece>
  {
    seq(|t|, i requires 0 <= i < |t| => if t[i] == Tok(k) then Lit(v) else t[i])
  }

  /**
   * On a plain template, one str.replace of a token does exactly what
   * filling that token in the template does.
   */
  lemma {:induction false} ReplaceRender(t: seq<Piece>, k: string, v: string)
    requires Plain(t) && BraceFree(k)
    ensures ReplaceAll(Render(t), Token(k), v) == Render(Fill(t, k, v))
    decreases |t|
  {
    var p := Token(k);
    if t != [] {
      var rest := Render(t[1..]);
      assert Plain(t[1..]);
      ReplaceRender(t[1..], k, v);
      assert Fill(t, k, v)[1..] == Fill(t[1..], k, v);
      assert BraceFree(if t[0].Lit? then t[0].text else t[0].key);
      match t[0]
      case Lit(x) =>
        ReplaceSkipPrefix(x, rest, p, v);
      case Tok(k2) =>
        if k2 == k {
          ReplaceAtStart(p, rest, v);
        } else {
          TokenMismatch(k, k2, rest, v);
        }
    }
  }

  /** Apply the table's replacements one entry after the other, in table order. */
  function SubstituteTokens(s: string, table: seq<(string, string)>): string
    decreases |table|
  {
    if table == [] then s
    else SubstituteTokens(ReplaceAll(s, Token(table[0].0), table[0].1), table[1..])
  }

  /**
   * The replacement loop shared by the three generators:
   * `for key, value in table: content = content.replace(token(key), value)`.
   */
  method ReplaceEach(content: string, table: seq<(string, string)>) returns (out: string)
    ensures out == SubstituteTokens(content, table)
  {
    out := content;
    for i := 0 to |table|
      invariant SubstituteTokens(out, table[i..]) == SubstituteTokens(content, table)
    {
      assert table[i..][1..] == table[i + 1..];
      out := ReplaceAll(out, Token(table[i].0), table[i].1);
    }
  }

  predicate TableBraceFree(table: seq<(string, string)>)
  {
    forall i | 0 <= i < |table| :: BraceFree(table[i].0) && BraceFree(table[i].1)
  }

  function FillAll(t: seq<Piece>, table: seq<(string, string)>): seq<Piece>
    decreases |table|
  {
    if table == [] then t else FillAll(Fill(t, table[0].0, table[0].1), table[1..])
  }

  /**
   * Filling by the whole table: a token whose key is in the table becomes the
   * value of the key's first entry, every other piece stays as it was.
   */
  lemma {:induction false} FillAllPieces(t: seq<Piece>, table: seq<(string, string)>)
    ensures |FillAll(t, table)| == |t|
    ensures forall i | 0 <= i < |t| ::
      FillAll(t, table)[i] == (if t[i].Tok? && HasKey(table, t[i].key) then Lit(FirstValue(table, t[i].key)) else t[i])
    decreases |table|
  {
    if table != [] {
      var t1 := Fill(t, table[0].0, table[0].1);
      FillAllPieces(t1, table[1..]);
      forall i | 0 <= i < |t|
        ensures FillAll(t, table)[i] == (if t[i].Tok? && HasKey(table, t[i].key) then Lit(FirstValue(table, t[i].key)) else t[i])
      {
        if t[i].Tok? && t[i].key != table[0].0 {
          if HasKey(table, t[i].key) {
            var j :| 0 <= j < |table| && table[j].0 == t[i].key;
            assert table[1..][j - 1].0 == t[i].key;
          }
          if HasKey(table[1..], t[i].key) {
            var j :| 0 <= j < |table| - 1 && table[1..][j].0 == t[i].key;
            assert table[j + 1].0 == t[i].key;
          }
        } else if t[i].Tok? {
          assert table[0].0 == t[i].key;
        }
      }
    }
  }

  /**
   * Sequential substitution on a plain template with brace-free keys and
   * values fills every table token and leaves every other token in place.
   */
  lemma {:induction false} SubstituteRender(t: seq<Piece>, table: seq<(string, string)>)
    requires Plain(t) && TableBraceFree(table)
    ensures SubstituteTokens(Render(t), table) == Render(FillAll(t, table))
    decreases |table|
  {
    if table != [] {
      ReplaceRender(t, table[0].0, table[0].1);
      var t1 := Fill(t, table[0].0, table[0].1);
      assert Plain(t1) by {
        forall i | 0 <= i < |t1|
          ensures BraceFree(if t1[i].Lit? then t1[i].text else t1[i].key)
        {
          assert BraceFree(if t[i].Lit? then t[i].text else t[i].key);
        }
      }
      assert TableBraceFree(table[1..]) by {
        forall i | 0 <= i < |table| - 1
          ensures BraceFree(table[1..][i].0) && BraceFree(table[1..][i].1)
        {
          assert table[1..][i] == table[i + 1];
        }
      }
      SubstituteRender(t1, table[1..]);
    }
  }

  /**
   * Sequential replacement is not recursion-safe: a value inserted by an
   * earlier entry is itself rewritten by a later one.
   */
  lemma ChainedReplacement()
    ensures SubstituteTokens("{{A}}", [("A", "{{B}}"), ("B", "x")]) == "x"
  {
    ReplaceAtStart(Token("A"), "", "{{B}}");
    assert Token("A") + "" == "{{A}}";
    ReplaceAtStart(Token("B"), "", "x");
    assert Token("B") + "" == "{{B}}";
  }

  /**
   * Literal braces around a token can join with the inserted value into a
   * token that survives substitution.
   */
  lemma ResidualToken()
    ensures SubstituteTokens("{{{{K}}}}", [("K", "K")]) == "{{K}}"
  {
    var p := Token("K");
    var s := "{{{{K}}}}";
    assert s[..|p|][2] != p[2];
    assert s[1..][..|p|][2] != p[2];
    assert s[1..][1..] == p + "}}";
    ReplaceAtStart(p, "}}", "K");
    ReplaceAbsent("}}", p, "K");
  }
}
