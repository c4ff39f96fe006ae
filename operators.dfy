/**
 * The operator rewrite of the advanced-results middleware: every whole word
 * `gt`, `gte`, `lt`, `lte` or `in` of the filter's JSON text gets a `$` in
 * front of it, turning query keys such as `price[lte]` into MongoDB
 * operators. A word is a maximal run of `[A-Za-z0-9_]`; that is what `\b` on
 * both sides of the alternation means.
 */
module Operators {
  import opened SeqFacts
  import opened QueryValue

  const OperatorWords: set<string> := {"gt", "gte", "lt", "lte", "in"}

  /** The characters `\b` treats as word characters. */
  predicate IsWordChar(c: char) {
    ('A' <= c <= 'Z') || ('a' <= c <= 'z') || ('0' <= c <= '9') || c == '_'
  }

  predicate NoWordChar(s: string) {
    forall i :: 0 <= i < |s| ==> !IsWordChar(s[i])
  }

  /** The length of the word at the start of `s` (0 if `s` starts with a non-word character). */
  function WordLen(s: string): (n: nat)
    ensures n <= |s|
    ensures n == |s| || !IsWordChar(s[n])
    ensures s != [] && IsWordChar(s[0]) ==> n > 0
  {
    if s != [] && IsWordChar(s[0]) then 1 + WordLen(s[1..]) else 0
  }

  /** The leading word consists of word characters. */
  lemma {:induction false} WordLenWord(s: string)
    ensures forall i :: 0 <= i < WordLen(s) ==> IsWordChar(s[i])
  {
    if s != [] && IsWordChar(s[0]) {
      WordLenWord(s[1..]);
    }
  }

  /** The leading word, taken on its own, is one whole word. */
  lemma {:induction false} LeadingWord(s: string)
    ensures WordLen(s[..WordLen(s)]) == WordLen(s)
  {
    if s != [] && IsWordChar(s[0]) {
      LeadingWord(s[1..]);
      assert s[..WordLen(s)][1..] == s[1..][..WordLen(s[1..])];
    }
  }

  /** A word followed by a non-word character (or nothing) ends there. */
  lemma {:induction false} WordLenConcat(a: string, b: string)
    requires WordLen(a) == |a|
    requires b == [] || !IsWordChar(b[0])
    ensures WordLen(a + b) == |a|
  {
    if a == [] {
      EmptyLeft(a, b);
    } else {
      WordLenConcat(a[1..], b);
      Peel(a, b);
    }
  }

  /** A word that is not the whole text also ends inside any extension of it. */
  lemma {:induction false} WordLenPrefix(a: string, b: string)
    requires WordLen(a) < |a|
    ensures WordLen(a + b) == WordLen(a)
  {
    if IsWordChar(a[0]) {
      WordLenPrefix(a[1..], b);
      Peel(a, b);
    }
  }

  /** What `match => '$' + match` does to one word. */
  function Mark(w: string): string {
    if w in OperatorWords then "$" + w else w
  }

  /** queryStr.replace(/\b(gt|gte|lt|lte|in)\b/g, match => `$${match}`) */
  function Rewrite(s: string): string
    decreases |s|
  {
    if s == [] then []
    else if !IsWordChar(s[0]) then [s[0]] + Rewrite(s[1..])
    else
      var n := WordLen(s);
      Mark(s[..n]) + Rewrite(s[n..])
  }

  /** A text starting with a non-word character keeps it in front. */
  lemma {:induction false} RewriteNonWordHead(c: char, s: string)
    requires !IsWordChar(c)
    ensures Rewrite([c] + s) == [c] + Rewrite(s)
  {
    assert ([c] + s)[1..] == s;
  }

  /** Text without word characters is left alone. */
  lemma {:induction false} RewriteNoWord(s: string)
    requires NoWordChar(s)
    ensures Rewrite(s) == s
  {
    if s != [] {
      RewriteNoWord(s[1..]);
    }
  }

  /** A whole word is marked as a unit. */
  lemma {:induction false} RewriteWord(w: string)
    requires w != [] && WordLen(w) == |w|
    ensures Rewrite(w) == Mark(w)
  {
    WordLenConcat(w, []);
    assert w + [] == w;
    assert w[..|w|] == w && w[|w|..] == [];
  }

  lemma {:induction false} RewriteConcatNonWordHead(a: string, b: string)
    requires a != [] && !IsWordChar(a[0])
    requires Rewrite(a[1..] + b) == Rewrite(a[1..]) + Rewrite(b)
    ensures Rewrite(a + b) == Rewrite(a) + Rewrite(b)
  {
    Peel(a, b);
  }

  lemma {:induction false} RewriteConcatWordHead(a: string, b: string)
    requires a != [] && IsWordChar(a[0])
    requires WordLen(a + b) == WordLen(a)
    requires Rewrite(a[WordLen(a)..] + b) == Rewrite(a[WordLen(a)..]) + Rewrite(b)
    ensures Rewrite(a + b) == Rewrite(a) + Rewrite(b)
  {
    Peel(a, b);
    CutLeft(a, b, WordLen(a));
  }

  /**
   * The rewrite works word by word: it distributes over a concatenation
   * whose seam does not fall inside a word.
   */
  lemma {:induction false} RewriteConcat(a: string, b: string)
    requires a == [] || b == [] || !IsWordChar(a[|a| - 1]) || !IsWordChar(b[0])
    ensures Rewrite(a + b) == Rewrite(a) + Rewrite(b)
    decreases |a|
  {
    if a == [] {
      EmptyLeft(a, b);
    } else if b == [] {
      EmptyRight(a, b);
    } else if !IsWordChar(a[0]) {
      RewriteConcat(a[1..], b);
      RewriteConcatNonWordHead(a, b);
    } else {
      var m := WordLen(a);
      if m < |a| {
        WordLenPrefix(a, b);
      } else {
        WordLenWord(a);
        WordLenConcat(a, b);
      }
      RewriteConcat(a[m..], b);
      RewriteConcatWordHead(a, b);
    }
  }

  // ---------------------------------------------------------------------------
  // The inserted dollars can be taken out again

  /** Removes one `$` in front of every whole operator word. */
  function Unrewrite(t: string): string
    decreases |t|
  {
    if t == [] then []
    else if t[0] == '$' && t[1..][..WordLen(t[1..])] in OperatorWords then
      var n := WordLen(t[1..]);
      t[1..1 + n] + Unrewrite(t[1 + n..])
    else if !IsWordChar(t[0]) then [t[0]] + Unrewrite(t[1..])
    else
      var n := WordLen(t);
      t[..n] + Unrewrite(t[n..])
  }

  /** A text starting with a word splits into that word and a rest that does not start with one. */
  lemma {:induction false} SplitLeadingWord(s: string)
    requires s != [] && IsWordChar(s[0])
    ensures var n := WordLen(s);
      && 0 < n && s == s[..n] + s[n..] && WordLen(s[..n]) == n
      && (s[n..] == [] || !IsWordChar(s[n..][0]))
  {
    LeadingWord(s);
  }

  /** Rewriting a text that starts with a whole word. */
  lemma {:induction false} RewriteWordThen(w: string, rest: string)
    requires w != [] && WordLen(w) == |w|
    requires rest == [] || !IsWordChar(rest[0])
    ensures Rewrite(w + rest) == Mark(w) + Rewrite(rest)
  {
    WordLenConcat(w, rest);
    var t := w + rest;
    assert t[..|w|] == w && t[|w|..] == rest;
  }

  /** The text the rewrite produces never starts with a bare operator word. */
  lemma {:induction false} RewriteHeadNotOperator(s: string)
    ensures var r := Rewrite(s); r[..WordLen(r)] !in OperatorWords
  {
    var r := Rewrite(s);
    if s == [] || !IsWordChar(s[0]) {
      assert r == [] || !IsWordChar(r[0]);
    } else {
      SplitLeadingWord(s);
      var n := WordLen(s);
      var w := s[..n];
      var rest := Rewrite(s[n..]);
      assert r == Mark(w) + rest;
      if w in OperatorWords {
        assert r[0] == '$';
      } else {
        assert rest == [] || !IsWordChar(rest[0]);
        WordLenConcat(w, rest);
        assert r[..WordLen(r)] == w;
      }
    }
  }

  lemma {:induction false} UnrewriteDollarWord(w: string, rest: string)
    requires w in OperatorWords && WordLen(w) == |w|
    requires rest == [] || !IsWordChar(rest[0])
    ensures Unrewrite("$" + w + rest) == w + Unrewrite(rest)
  {
    var t := "$" + w + rest;
    Assoc("$", w, rest);
    Peel("$", w + rest);
    WordLenConcat(w, rest);
    CutLeft(w, rest, |w|);
    DropSlice(t, 1, |w|);
  }

  lemma {:induction false} UnrewriteWordThen(w: string, rest: string)
    requires w != [] && WordLen(w) == |w|
    requires rest == [] || !IsWordChar(rest[0])
    ensures Unrewrite(w + rest) == w + Unrewrite(rest)
  {
    var t := w + rest;
    WordLenConcat(w, rest);
    assert t[0] == w[0];
    assert t[..|w|] == w && t[|w|..] == rest;
  }

  lemma {:induction false} UnrewriteNonWordThen(c: char, rest: string)
    requires !IsWordChar(c)
    requires c == '$' ==> rest[..WordLen(rest)] !in OperatorWords
    ensures Unrewrite([c] + rest) == [c] + Unrewrite(rest)
  {
    var t := [c] + rest;
    assert t[0] == c && t[1..] == rest;
  }

  /** Removing the inserted `$` characters gives back the original text. */
  lemma {:induction false} UnrewriteRewrite(s: string)
    ensures Unrewrite(Rewrite(s)) == s
    decreases |s|
  {
    if s == [] {
    } else if !IsWordChar(s[0]) {
      UnrewriteRewrite(s[1..]);
      RewriteHeadNotOperator(s[1..]);
      RewriteNonWordHead(s[0], s[1..]);
      assert [s[0]] + s[1..] == s;
      UnrewriteNonWordThen(s[0], Rewrite(s[1..]));
    } else {
      SplitLeadingWord(s);
      var n := WordLen(s);
      var w := s[..n];
      var rest := Rewrite(s[n..]);
      UnrewriteRewrite(s[n..]);
      assert rest == [] || !IsWordChar(rest[0]);
      if w in OperatorWords {
        assert Rewrite(s) == "$" + w + rest;
        UnrewriteDollarWord(w, rest);
      } else {
        assert Rewrite(s) == w + rest;
        UnrewriteWordThen(w, rest);
      }
    }
  }

  /** Every character but `$` is kept, in order. */
  function DropDollars(s: string): (r: string)
    ensures '$' !in r
  {
    if s == [] then [] else (if s[0] == '$' then [] else [s[0]]) + DropDollars(s[1..])
  }

  lemma {:induction false} DropDollarsConcat(a: string, b: string)
    ensures DropDollars(a + b) == DropDollars(a) + DropDollars(b)
  {
    if a == [] {
      EmptyLeft(a, b);
    } else {
      DropDollarsConcat(a[1..], b);
      Peel(a, b);
    }
  }

  lemma {:induction false} DropDollarsNonWordStep(s: string)
    requires s != [] && !IsWordChar(s[0])
    requires DropDollars(Rewrite(s[1..])) == DropDollars(s[1..])
    ensures DropDollars(Rewrite(s)) == DropDollars(s)
  {
    RewriteNonWordHead(s[0], s[1..]);
    HeadTail(s);
    DropDollarsConcat([s[0]], Rewrite(s[1..]));
    DropDollarsConcat([s[0]], s[1..]);
  }

  lemma {:induction false} DropDollarsMark(w: string)
    ensures DropDollars(Mark(w)) == DropDollars(w)
  {
    if w in OperatorWords {
      DropDollarsConcat("$", w);
    }
  }

  lemma {:induction false} DropDollarsWordStep(s: string, n: nat)
    requires s != [] && IsWordChar(s[0]) && n == WordLen(s)
    requires DropDollars(Rewrite(s[n..])) == DropDollars(s[n..])
    ensures DropDollars(Rewrite(s)) == DropDollars(s)
  {
    var w := s[..n];
    DropDollarsConcat(Mark(w), Rewrite(s[n..]));
    DropDollarsConcat(w, s[n..]);
    DropDollarsMark(w);
    TakeDrop(s, n);
  }

  /** The rewrite inserts nothing but `$` characters. */
  lemma {:induction false} RewriteOnlyInsertsDollars(s: string)
    ensures DropDollars(Rewrite(s)) == DropDollars(s)
    decreases |s|
  {
    if s == [] {
    } else if !IsWordChar(s[0]) {
      RewriteOnlyInsertsDollars(s[1..]);
      DropDollarsNonWordStep(s);
    } else {
      var n := WordLen(s);
      RewriteOnlyInsertsDollars(s[n..]);
      DropDollarsWordStep(s, n);
    }
  }

  // ---------------------------------------------------------------------------
  // Examples

  /** `gte` is one word: it becomes `$gte`, not `$gt` followed by `e`. */
  lemma {:induction false} RewriteGte()
    ensures Rewrite("gte") == "$gte"
  {
    RewriteWord("gte");
  }

  /** A text made of word characters only is one word. */
  lemma {:induction false} AllWordChars(w: string)
    requires forall i :: 0 <= i < |w| ==> IsWordChar(w[i])
    ensures WordLen(w) == |w|
  {
    if w != [] {
      AllWordChars(w[1..]);
    }
  }

  /** Words that merely contain or start with an operator are untouched. */
  lemma {:induction false} RewriteLongerWord()
    ensures Rewrite("ingredient") == "ingredient"
  {
    RewritePlainWord("ingredient");
  }

  lemma {:induction false} RewriteOperatorPrefixedWord()
    ensures Rewrite("gtx") == "gtx"
  {
    RewritePlainWord("gtx");
  }

  lemma {:induction false} RewritePlainWord(w: string)
    requires w != [] && w !in OperatorWords
    requires forall i :: 0 <= i < |w| ==> IsWordChar(w[i])
    ensures Rewrite(w) == w
  {
    AllWordChars(w);
    RewriteWord(w);
  }

  /** The rewrite is not idempotent: an existing `$gt` becomes `$$gt`. */
  lemma {:induction false} RewriteNotIdempotent()
    ensures Rewrite("$gt") == "$$gt"
    ensures Rewrite(Rewrite("gt")) != Rewrite("gt")
  {
    RewriteWord("gt");
    RewriteNonWordHead('$', "gt");
  }

  // ---------------------------------------------------------------------------
  // The rewrite on JSON text is the rewrite of every key and string value

  /** Every key and every string of `v` rewritten. */
  function RewriteStrings(v: QVal): QVal
    decreases v, 1
  {
    match v
    case Str(s) => Str(Rewrite(s))
    case Arr(xs) => Arr(RewriteItems(xs))
    case Obj(es) => Obj(RewriteEntries(es))
  }

  function RewriteItems(xs: seq<QVal>): (r: seq<QVal>)
    ensures |r| == |xs|
    decreases xs, 0
  {
    if xs == [] then [] else [RewriteStrings(xs[0])] + RewriteItems(xs[1..])
  }

  function RewriteEntries(es: seq<Entry>): (r: seq<Entry>)
    ensures |r| == |es|
    decreases es, 0
  {
    if es == [] then []
    else [Entry(Rewrite(es[0].key), RewriteStrings(es[0].value))] + RewriteEntries(es[1..])
  }

  lemma {:induction false} RewriteNoControl(s: string)
    requires NoControlText(s)
    ensures NoControlText(Rewrite(s))
    decreases |s|
  {
    if s != [] {
      if !IsWordChar(s[0]) {
        RewriteNoControl(s[1..]);
      } else {
        var n := WordLen(s);
        RewriteNoControl(s[n..]);
        var m := Mark(s[..n]);
        assert NoControlText(m);
        var r := m + Rewrite(s[n..]);
        assert forall i :: 0 <= i < |r| ==> r[i] == if i < |m| then m[i] else Rewrite(s[n..])[i - |m|];
      }
    }
  }

  lemma {:induction false} EscapeConcat(a: string, b: string)
    ensures Escape(a + b) == Escape(a) + Escape(b)
  {
    if a == [] {
      EmptyLeft(a, b);
    } else {
      EscapeConcat(a[1..], b);
      Peel(a, b);
      Assoc(EscapeChar(a[0]), Escape(a[1..]), Escape(b));
    }
  }

  /** Text of word characters and `$` needs no escaping. */
  lemma {:induction false} EscapePlain(s: string)
    requires forall i :: 0 <= i < |s| ==> IsWordChar(s[i]) || s[i] == '$'
    ensures Escape(s) == s
  {
    if s != [] {
      EscapePlain(s[1..]);
      assert [s[0]] + s[1..] == s;
    }
  }

  /** A non-word character escapes to non-word characters. */
  lemma {:induction false} EscapeNonWordChar(c: char)
    requires !IsControl(c) && !IsWordChar(c)
    ensures NoWordChar(EscapeChar(c))
  {
  }

  lemma {:induction false} EscapeRewriteNonWordStep(s: string)
    requires s != [] && !IsWordChar(s[0]) && NoControlText(s)
    requires Rewrite(Escape(s[1..])) == Escape(Rewrite(s[1..]))
    ensures Rewrite(Escape(s)) == Escape(Rewrite(s))
  {
    var e := EscapeChar(s[0]);
    EscapeNonWordChar(s[0]);
    assert Escape(s) == e + Escape(s[1..]);
    RewriteConcat(e, Escape(s[1..]));
    RewriteNoWord(e);
    RewriteNonWordHead(s[0], s[1..]);
    assert [s[0]] + s[1..] == s;
    EscapeConcat([s[0]], Rewrite(s[1..]));
    assert Escape([s[0]]) == e + Escape([]);
  }

  lemma {:induction false} EscapeRewriteWordStep(s: string)
    requires s != [] && IsWordChar(s[0]) && NoControlText(s)
    requires Rewrite(Escape(s[WordLen(s)..])) == Escape(Rewrite(s[WordLen(s)..]))
    ensures Rewrite(Escape(s)) == Escape(Rewrite(s))
  {
    SplitLeadingWord(s);
    var n := WordLen(s);
    var w := s[..n];
    var rest := s[n..];
    WordLenWord(w);
    EscapeConcat(w, rest);
    EscapePlain(w);
    var tail := Escape(rest);
    if rest != [] {
      assert rest[0] == s[n] && !IsControl(rest[0]);
      EscapeNonWordChar(rest[0]);
      assert tail == EscapeChar(rest[0]) + Escape(rest[1..]);
      assert !IsWordChar(tail[0]);
    }
    RewriteWordThen(w, tail);
    EscapeConcat(Mark(w), Rewrite(rest));
    EscapePlain(Mark(w));
  }

  /** Without control characters, escaping neither creates nor breaks words. */
  lemma {:induction false} EscapeRewrite(s: string)
    requires NoControlText(s)
    ensures Rewrite(Escape(s)) == Escape(Rewrite(s))
    decreases |s|
  {
    if s != [] {
      if !IsWordChar(s[0]) {
        EscapeRewrite(s[1..]);
        EscapeRewriteNonWordStep(s);
      } else {
        var n := WordLen(s);
        assert NoControlText(s[n..]);
        EscapeRewrite(s[n..]);
        EscapeRewriteWordStep(s);
      }
    }
  }

  /** Rewriting a delimited piece between two non-word characters. */
  lemma {:induction false} RewriteBetween(open: char, x: string, close: char)
    requires !IsWordChar(open) && !IsWordChar(close)
    ensures Rewrite([open] + x + [close]) == [open] + Rewrite(x) + [close]
  {
    RewriteConcat([open] + x, [close]);
    RewriteNonWordHead(open, x);
    RewriteNoWord([close]);
  }

  lemma {:induction false} QuoteRewrite(s: string)
    requires NoControlText(s)
    ensures Rewrite(Quote(s)) == Quote(Rewrite(s))
  {
    EscapeRewrite(s);
    RewriteBetween('"', Escape(s), '"');
  }

  /** Every JSON text starts and ends with punctuation. */
  lemma {:induction false} StringifyDelimited(v: QVal)
    ensures var t := Stringify(v); t != [] && !IsWordChar(t[0]) && !IsWordChar(t[|t| - 1])
  {
  }

  /**
   * Rewriting the JSON text of a query object is the same as rewriting every
   * key and every string in it, provided no string holds a control character.
   */
  lemma {:induction false} StringifyRewrite(v: QVal)
    requires NoControl(v)
    ensures Rewrite(Stringify(v)) == Stringify(RewriteStrings(v))
    decreases v, 1
  {
    match v
    case Str(s) =>
      QuoteRewrite(s);
    case Arr(xs) =>
      ItemsRewrite(xs);
      RewriteBetween('[', Items(xs), ']');
    case Obj(es) =>
      MembersRewrite(es);
      RewriteBetween('{', Members(es), '}');
  }

  lemma {:induction false} ItemsRewrite(xs: seq<QVal>)
    requires forall i :: 0 <= i < |xs| ==> NoControl(xs[i])
    ensures Rewrite(Items(xs)) == Items(RewriteItems(xs))
    decreases xs, 0
  {
    if xs != [] {
      StringifyRewrite(xs[0]);
      RewriteItemsHead(xs);
      if |xs| > 1 {
        ItemsRewrite(xs[1..]);
        ItemsRewriteStep(xs);
      }
    }
  }

  lemma {:induction false} RewriteItemsHead(xs: seq<QVal>)
    requires xs != []
    ensures var ys := RewriteItems(xs); ys[0] == RewriteStrings(xs[0]) && ys[1..] == RewriteItems(xs[1..])
  {
    Peel([RewriteStrings(xs[0])], RewriteItems(xs[1..]));
  }

  lemma {:induction false} RewriteEntriesHead(es: seq<Entry>)
    requires es != []
    ensures var fs := RewriteEntries(es);
      fs[0] == Entry(Rewrite(es[0].key), RewriteStrings(es[0].value)) && fs[1..] == RewriteEntries(es[1..])
  {
    Peel([Entry(Rewrite(es[0].key), RewriteStrings(es[0].value))], RewriteEntries(es[1..]));
  }

  /** Rewriting across a separator that follows a piece ending in punctuation. */
  lemma {:induction false} RewriteAcross(t: string, c: char, u: string)
    requires t != [] && !IsWordChar(t[|t| - 1]) && !IsWordChar(c)
    ensures Rewrite(t + ([c] + u)) == Rewrite(t) + ([c] + Rewrite(u))
  {
    RewriteConcat(t, [c] + u);
    RewriteNonWordHead(c, u);
  }

  /** The same, with the rewritten pieces given. */
  lemma {:induction false} JoinRewrite(t: string, c: char, u: string, t': string, u': string)
    requires t != [] && !IsWordChar(t[|t| - 1]) && !IsWordChar(c)
    requires Rewrite(t) == t' && Rewrite(u) == u'
    ensures Rewrite(t + ([c] + u)) == t' + ([c] + u')
  {
    RewriteAcross(t, c, u);
  }

  lemma {:induction false} ItemsCons(xs: seq<QVal>)
    requires |xs| > 1
    ensures Items(xs) == Stringify(xs[0]) + ([','] + Items(xs[1..]))
  {
    Assoc(Stringify(xs[0]), [','], Items(xs[1..]));
  }

  lemma {:induction false} ItemsRewriteStep(xs: seq<QVal>)
    requires |xs| > 1
    requires Rewrite(Stringify(xs[0])) == Stringify(RewriteStrings(xs[0]))
    requires Rewrite(Items(xs[1..])) == Items(RewriteItems(xs[1..]))
    ensures Rewrite(Items(xs)) == Items(RewriteItems(xs))
  {
    var ys := RewriteItems(xs);
    RewriteItemsHead(xs);
    ItemsCons(xs);
    ItemsCons(ys);
    StringifyDelimited(xs[0]);
    JoinRewrite(Stringify(xs[0]), ',', Items(xs[1..]), Stringify(ys[0]), Items(ys[1..]));
  }

  /** A member is its quoted key, a colon and the value's text, which it ends with. */
  lemma {:induction false} MemberShape(e: Entry)
    ensures Member(e) == Quote(e.key) + ([':'] + Stringify(e.value))
    ensures var m := Member(e); m != [] && !IsWordChar(m[|m| - 1])
  {
    Assoc(Quote(e.key), [':'], Stringify(e.value));
    StringifyDelimited(e.value);
  }

  lemma {:induction false} QuoteDelimited(s: string)
    ensures var q := Quote(s); q != [] && !IsWordChar(q[|q| - 1])
  {
  }

  lemma {:induction false} MemberRewrite(e: Entry)
    requires NoControlEntry(e)
    ensures Rewrite(Member(e)) == Member(Entry(Rewrite(e.key), RewriteStrings(e.value)))
    decreases e, 2
  {
    QuoteRewrite(e.key);
    StringifyRewrite(e.value);
    MemberShape(e);
    MemberShape(Entry(Rewrite(e.key), RewriteStrings(e.value)));
    QuoteDelimited(e.key);
    RewriteAcross(Quote(e.key), ':', Stringify(e.value));
  }

  lemma {:induction false} MembersCons(es: seq<Entry>)
    requires |es| > 1
    ensures Members(es) == Member(es[0]) + ([','] + Members(es[1..]))
  {
    Assoc(Member(es[0]), [','], Members(es[1..]));
  }

  lemma {:induction false} MembersRewrite(es: seq<Entry>)
    requires forall i :: 0 <= i < |es| ==> NoControlEntry(es[i])
    ensures Rewrite(Members(es)) == Members(RewriteEntries(es))
    decreases es, 0
  {
    if es != [] {
      MemberRewrite(es[0]);
      RewriteEntriesHead(es);
      if |es| > 1 {
        MembersRewrite(es[1..]);
        MembersRewriteStep(es);
      }
    }
  }

  lemma {:induction false} MembersRewriteStep(es: seq<Entry>)
    requires |es| > 1
    requires Rewrite(Member(es[0])) == Member(Entry(Rewrite(es[0].key), RewriteStrings(es[0].value)))
    requires Rewrite(Members(es[1..])) == Members(RewriteEntries(es[1..]))
    ensures Rewrite(Members(es)) == Members(RewriteEntries(es))
  {
    var fs := RewriteEntries(es);
    RewriteEntriesHead(es);
    MembersCons(es);
    MembersCons(fs);
    MemberShape(es[0]);
    JoinRewrite(Member(es[0]), ',', Members(es[1..]), Member(fs[0]), Members(fs[1..]));
  }

  /**
   * With a control character the correspondence breaks: JSON.stringify writes
   * a newline as `\n`, whose `n` joins the operator word after it, so the
   * operator is not rewritten in the text although it is in the value.
   */
  lemma {:induction false} EscapedNewlineHidesOperator(w: string)
    requires w in OperatorWords && ['n'] + w !in OperatorWords
    requires forall i :: 0 <= i < |w| ==> IsWordChar(w[i])
    ensures Rewrite(Stringify(Str(['\n'] + w))) == Stringify(Str(['\n'] + w))
    ensures Rewrite(Stringify(Str(['\n'] + w))) != Stringify(RewriteStrings(Str(['\n'] + w)))
  {
    NewlineTextUnchanged(w);
    NewlineValueRewritten(w);
  }

  lemma {:induction false} EscapeNewlineThen(w: string)
    requires forall i :: 0 <= i < |w| ==> IsWordChar(w[i]) || w[i] == '$'
    ensures Escape(['\n'] + w) == ['\\', 'n'] + w
  {
    EscapeConcat(['\n'], w);
    EscapePlain(w);
    Singleton('\n');
  }

  lemma {:induction false} NewlineTextUnchanged(w: string)
    requires ['n'] + w !in OperatorWords
    requires forall i :: 0 <= i < |w| ==> IsWordChar(w[i])
    ensures Rewrite(Quote(['\n'] + w)) == Quote(['\n'] + w)
  {
    var u := ['n'] + w;
    QuoteNewline(w);
    assert forall i :: 0 <= i < |u| ==> IsWordChar(u[i]);
    RewriteEscapedWord(u);
  }

  lemma {:induction false} QuoteNewline(w: string)
    requires forall i :: 0 <= i < |w| ==> IsWordChar(w[i])
    ensures Quote(['\n'] + w) == ['"', '\\'] + ((['n'] + w) + ['"'])
  {
    EscapeNewlineThen(w);
  }

  /** A plain word after a backslash, inside quotes, is left alone. */
  lemma {:induction false} RewriteEscapedWord(u: string)
    requires u != [] && u !in OperatorWords
    requires forall i :: 0 <= i < |u| ==> IsWordChar(u[i])
    ensures Rewrite(['"', '\\'] + (u + ['"'])) == ['"', '\\'] + (u + ['"'])
  {
    RewritePlainWord(u);
    RewriteNoWord(['"', '\\']);
    RewriteNoWord(['"']);
    RewriteConcat(u, ['"']);
    RewriteConcat(['"', '\\'], u + ['"']);
  }

  lemma {:induction false} NewlineValueRewritten(w: string)
    requires w in OperatorWords
    requires forall i :: 0 <= i < |w| ==> IsWordChar(w[i])
    ensures |Quote(Rewrite(['\n'] + w))| == |Quote(['\n'] + w)| + 1
  {
    AllWordChars(w);
    RewriteWord(w);
    RewriteNonWordHead('\n', w);
    var d := ['$'] + w;
    assert forall i :: 0 <= i < |d| ==> IsWordChar(d[i]) || d[i] == '$';
    EscapeNewlineThen(d);
    EscapeNewlineThen(w);
  }
}
