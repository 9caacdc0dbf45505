/** The text of an alerting expression determines the expression: tokens are read off
    the text in one way only, and grouped expressions with the same tokens are the same. */
module PromQLText {
  import opened Base
  import opened Digits
  import opened PromQL

  datatype Token =
    | Lit(literal: Decimal)
    | Sum(what: Aggregate, selector: string, window: Window)
    | Console(url: string)
    | Open
    | Close
    | Oper(before: string, op: Op, after: string)

  function Tokens(e: Expr): (ts: seq<Token>)
    ensures |ts| > 0
  {
    match e
    case Number(literal) => [Lit(literal)]
    case SumOf(what, selector, window) => [Sum(what, selector, window)]
    case ConsoleCount(url) => [Console(url)]
    case Paren(inner) => [Open] + Tokens(inner) + [Close]
    case Bin(left, before, op, after, right) => Tokens(left) + [Oper(before, op, after)] + Tokens(right)
  }

  // ----- tokens determine grouped expressions -----

  function Level(t: Token): int { if t.Open? then 1 else if t.Close? then -1 else 0 }

  /** How many parentheses are open after the tokens. */
  function Depth(ts: seq<Token>): int { if ts == [] then 0 else Depth(ts[..|ts| - 1]) + Level(ts[|ts| - 1]) }

  lemma {:induction false} DepthJoins(a: seq<Token>, b: seq<Token>)
    ensures Depth(a + b) == Depth(a) + Depth(b)
  {
    if b == [] {
      assert a + b == a;
    } else {
      DepthJoins(a, b[..|b| - 1]);
      assert (a + b)[..|a + b| - 1] == a + b[..|b| - 1];
    }
  }

  lemma DepthOfOne(t: Token)
    ensures Depth([t]) == Level(t)
  {
    assert [t][..0] == [];
  }

  /** No beginning of an expression's tokens closes more than it opens, and all of them close everything. */
  lemma {:induction false} Balanced(e: Expr, k: nat)
    requires k <= |Tokens(e)|
    ensures Depth(Tokens(e)[..k]) >= 0 && Depth(Tokens(e)) == 0
    decreases e, 0
  {
    var ts := Tokens(e);
    assert ts[..|ts|] == ts;
    match e
    case Paren(inner) =>
      BalancedParen(inner, k);
    case Bin(left, before, op, after, right) =>
      Balanced(left, if k <= |Tokens(left)| then k else 0);
      Balanced(right, if k > |Tokens(left)| then k - |Tokens(left)| - 1 else 0);
      DepthOfBin(Tokens(left), Oper(before, op, after), Tokens(right), k);
    case _ =>
      DepthOfOne(ts[0]);
      assert k == 0 || ts[..k] == [ts[0]];
  }

  lemma {:induction false} BalancedParen(inner: Expr, k: nat)
    requires k <= |Tokens(Paren(inner))|
    ensures Depth(Tokens(Paren(inner))[..k]) >= 0 && Depth(Tokens(Paren(inner))) == 0
    ensures 0 < k <= |Tokens(inner)| + 1 ==> Depth(Tokens(Paren(inner))[..k]) >= 1
    decreases inner, 1
  {
    var ts, body := Tokens(Paren(inner)), Tokens(inner);
    DepthOfOne(Open);
    DepthOfOne(Close);
    Balanced(inner, if 0 < k <= |body| + 1 then k - 1 else 0);
    DepthJoins([Open], body);
    DepthJoins([Open] + body, [Close]);
    if 0 < k <= |body| + 1 {
      DepthJoins([Open], body[..k - 1]);
      assert ts[..k] == [Open] + body[..k - 1];
    } else if k > 0 {
      assert ts[..k] == ts;
    }
  }

  lemma DepthOfBin(l: seq<Token>, o: Token, r: seq<Token>, k: nat)
    requires o.Oper? && k <= |l| + 1 + |r|
    ensures Depth((l + [o] + r)[..k]) == if k <= |l| then Depth(l[..k]) else Depth(l) + Depth(r[..k - |l| - 1])
    ensures Depth(l + [o] + r) == Depth(l) + Depth(r)
  {
    DepthOfOne(o);
    DepthJoins(l, [o]);
    DepthJoins(l + [o], r);
    var ts := l + [o] + r;
    if k <= |l| {
      assert ts[..k] == l[..k];
    } else {
      DepthJoins(l + [o], r[..k - |l| - 1]);
      assert ts[..k] == l + [o] + r[..k - |l| - 1];
    }
  }

  /** The operators outside all parentheses bind at least this tightly. */
  predicate TopBinds(ts: seq<Token>, tightness: nat) {
    forall i :: 0 <= i < |ts| && ts[i].Oper? && Depth(ts[..i]) == 0 ==> Binding(ts[i].op) >= tightness
  }

  lemma {:induction false} GroupedBinds(e: Expr)
    requires Grouped(e)
    ensures TopBinds(Tokens(e), Tightness(e))
  {
    var ts := Tokens(e);
    match e
    case Paren(inner) =>
      forall i | 0 <= i < |ts| && ts[i].Oper? ensures Depth(ts[..i]) != 0 { BalancedParen(inner, i); }
    case Bin(left, before, op, after, right) =>
      GroupedBinds(left);
      GroupedBinds(right);
      Balanced(left, 0);
      forall i | 0 <= i < |ts| && ts[i].Oper? && Depth(ts[..i]) == 0 ensures Binding(ts[i].op) >= Binding(op) {
        DepthOfBin(Tokens(left), Oper(before, op, after), Tokens(right), i);
      }
    case _ =>
  }

  /** Two ways to cut tokens at an operator outside parentheses, the first further left:
      its operator lies in the left part of the second, */
  lemma CutLeft(l1: seq<Token>, o1: Token, r1: seq<Token>, l2: seq<Token>, o2: Token, r2: seq<Token>, m: nat)
    requires o1.Oper? && o2.Oper? && l1 + [o1] + r1 == l2 + [o2] + r2 && |l1| < |l2|
    requires Depth(l1) == 0 && TopBinds(l2, m)
    ensures Binding(o1.op) >= m
  {
    var ts, p := l1 + [o1] + r1, |l1|;
    DepthOfBin(l1, o1, r1, p);
    DepthOfBin(l2, o2, r2, p);
    assert l1[..p] == l1 && ts[p] == o1 && l2[p] == o1;
  }

  /** and the operator of the second in the right part of the first. */
  lemma CutRight(l1: seq<Token>, o1: Token, r1: seq<Token>, l2: seq<Token>, o2: Token, r2: seq<Token>, m: nat)
    requires o1.Oper? && o2.Oper? && l1 + [o1] + r1 == l2 + [o2] + r2 && |l1| < |l2|
    requires Depth(l1) == 0 && Depth(l2) == 0 && TopBinds(r1, m)
    ensures Binding(o2.op) >= m
  {
    var ts, p := l1 + [o1] + r1, |l2|;
    DepthOfBin(l1, o1, r1, p);
    DepthOfBin(l2, o2, r2, p);
    assert l2[..p] == l2 && ts[p] == o2 && r1[p - |l1| - 1] == o2;
  }

  /** The main operator of one reading cannot stand left of the main operator of another. */
  lemma CutNotEarlier(l1: seq<Token>, o1: Token, r1: seq<Token>, l2: seq<Token>, o2: Token, r2: seq<Token>)
    requires o1.Oper? && o2.Oper? && l1 + [o1] + r1 == l2 + [o2] + r2
    requires Depth(l1) == 0 && Depth(l2) == 0
    requires TopBinds(r1, Binding(o1.op) + 1) && TopBinds(l2, Binding(o2.op))
    ensures |l1| >= |l2|
  {
    if |l1| < |l2| {
      CutLeft(l1, o1, r1, l2, o2, r2, Binding(o2.op));
      CutRight(l1, o1, r1, l2, o2, r2, Binding(o1.op) + 1);
    }
  }

  lemma CutOnce(a: Expr, b: Expr)
    requires a.Bin? && b.Bin? && Grouped(a) && Grouped(b) && Tokens(a) == Tokens(b)
    ensures |Tokens(a.left)| == |Tokens(b.left)|
  {
    var o, q := Oper(a.before, a.op, a.after), Oper(b.before, b.op, b.after);
    GroupedBinds(a.left);
    GroupedBinds(a.right);
    GroupedBinds(b.left);
    GroupedBinds(b.right);
    Balanced(a.left, 0);
    Balanced(b.left, 0);
    CutNotEarlier(Tokens(a.left), o, Tokens(a.right), Tokens(b.left), q, Tokens(b.right));
    CutNotEarlier(Tokens(b.left), q, Tokens(b.right), Tokens(a.left), o, Tokens(a.right));
  }

  /** Grouped expressions with the same tokens are the same expression. */
  lemma {:induction false} TokensDetermine(a: Expr, b: Expr)
    requires Grouped(a) && Grouped(b) && Tokens(a) == Tokens(b)
    ensures a == b
  {
    if a.Bin? && b.Bin? {
      var o, q := Oper(a.before, a.op, a.after), Oper(b.before, b.op, b.after);
      CutOnce(a, b);
      var p := |Tokens(a.left)|;
      assert Tokens(a)[..p] == Tokens(a.left) && Tokens(b)[..p] == Tokens(b.left);
      assert Tokens(a)[p] == o && Tokens(b)[p] == q;
      assert Tokens(a)[p + 1..] == Tokens(a.right) && Tokens(b)[p + 1..] == Tokens(b.right);
      TokensDetermine(a.left, b.left);
      TokensDetermine(a.right, b.right);
    } else if a.Bin? {
      NotBin(a, b);
    } else if b.Bin? {
      NotBin(b, a);
    } else if a.Paren? && b.Paren? {
      assert Tokens(a)[1..|Tokens(a)| - 1] == Tokens(a.inner) && Tokens(b)[1..|Tokens(b)| - 1] == Tokens(b.inner);
      TokensDetermine(a.inner, b.inner);
    } else {
      assert Tokens(a)[0] == Tokens(b)[0];
    }
  }

  /** An operation has an operator outside parentheses; nothing else has. */
  lemma NotBin(a: Expr, b: Expr)
    requires a.Bin? && !b.Bin? && Grouped(b)
    ensures Tokens(a) != Tokens(b)
  {
    GroupedBinds(b);
    var p := |Tokens(a.left)|;
    Balanced(a.left, 0);
    assert Tokens(a)[..p] == Tokens(a.left);
    assert Tokens(a)[p] == Oper(a.before, a.op, a.after);
  }

  // ----- the text determines the tokens -----

  function SumHead(what: Aggregate): string {
    if what.Successes? then "sum(sum_over_time(probe_success{" else "sum(count_over_time(probe_success{"
  }

  function Spell(t: Token): string {
    match t
    case Lit(literal) => literal.text
    case Sum(what, selector, window) => SumHead(what) + selector + "}[" + window.text + "]))"
    case Console(url) => "count(console_url{url=\"" + url + "\"} == 1)"
    case Open => "("
    case Close => ")"
    case Oper(before, op, after) => before + OpText(op) + after
  }

  function Joined(ts: seq<Token>, spell: Token -> string): string {
    if ts == [] then "" else spell(ts[0]) + Joined(ts[1..], spell)
  }

  lemma JoinedFirst(t: Token, ts: seq<Token>, spell: Token -> string)
    ensures Joined([t] + ts, spell) == spell(t) + Joined(ts, spell)
  {
    assert ([t] + ts)[1..] == ts;
  }

  lemma {:induction false} JoinedJoins(a: seq<Token>, b: seq<Token>, spell: Token -> string)
    ensures Joined(a + b, spell) == Joined(a, spell) + Joined(b, spell)
  {
    if a == [] {
      assert a + b == b;
    } else {
      var t, rest := a[0], a[1..];
      JoinedJoins(rest, b, spell);
      JoinedFirst(t, rest + b, spell);
      assert a + b == [t] + (rest + b);
      Regroup(spell(t), Joined(rest, spell), Joined(b, spell));
    }
  }

  function SpellAll(ts: seq<Token>): string { Joined(ts, Spell) }

  lemma SpellJoins(a: seq<Token>, b: seq<Token>)
    ensures SpellAll(a + b) == SpellAll(a) + SpellAll(b)
  {
    JoinedJoins(a, b, Spell);
  }

  lemma SpellOne(t: Token)
    ensures SpellAll([t]) == Spell(t)
  {
    assert [t] == [t] + [];
    JoinedFirst(t, [], Spell);
    assert Joined([], Spell) == "";
    assert Spell(t) + "" == Spell(t);
  }

  lemma SpellThree(l: seq<Token>, o: Token, r: seq<Token>)
    ensures SpellAll(l + [o] + r) == SpellAll(l) + Spell(o) + SpellAll(r)
  {
    SpellOne(o);
    SpellJoins(l, [o]);
    SpellJoins(l + [o], r);
  }

  /** The text of an expression is its tokens, spelled one after the other. */
  lemma {:induction false} SpellsText(e: Expr)
    ensures SpellAll(Tokens(e)) == Text(e)
  {
    match e
    case Paren(inner) =>
      SpellsText(inner);
      SpellParen(Tokens(inner));
    case Bin(left, before, op, after, right) =>
      SpellsText(left);
      SpellsText(right);
      SpellThree(Tokens(left), Oper(before, op, after), Tokens(right));
      BlanksAround(Text(left), before, OpText(op), after, Text(right));
    case _ => SpellOne(Tokens(e)[0]);
  }

  lemma SpellParen(ts: seq<Token>)
    ensures SpellAll([Open] + ts + [Close]) == "(" + SpellAll(ts) + ")"
  {
    SpellOne(Open);
    SpellOne(Close);
    SpellJoins([Open], ts);
    SpellJoins([Open] + ts, [Close]);
  }

  lemma BlanksAround(a: string, b: string, c: string, d: string, e: string)
    ensures a + (b + c + d) + e == a + b + c + d + e
  {
  }

  predicate NumberChar(c: char) { IsDigit(c) || c == '.' }

  predicate Blank(c: char) { c == ' ' || c == '\n' }

  predicate NoQuote(s: string) { '"' !in s }

  /** Exactly two quotes, the second at the end. */
  ghost predicate Quoted(s: string) { exists p, u :: s == p + "\"" + u + "\"" && NoQuote(p) && NoQuote(u) }

  /** How number literals and ranges are read. */
  datatype Reader = Reader(number: string -> real, seconds: string -> nat)

  predicate PlainNumber(d: Decimal, r: Reader) {
    d.text != "" && (forall i :: 0 <= i < |d.text| ==> NumberChar(d.text[i])) && d.value == r.number(d.text)
  }

  predicate Blanks(s: string) { forall i :: 0 <= i < |s| ==> Blank(s[i]) }

  /** A token that reads back as itself: numbers of digits and points, selectors and
      URLs whose only quotes are their own, ranges without a bracket, blanks that are blank. */
  ghost predicate PlainToken(t: Token, r: Reader) {
    match t
    case Lit(literal) => PlainNumber(literal, r)
    case Sum(_, selector, window) => Quoted(selector) && ']' !in window.text && window.seconds == r.seconds(window.text)
    case Console(url) => NoQuote(url)
    case Oper(before, _, after) => Blanks(before) && Blanks(after)
    case _ => true
  }

  ghost predicate Plain(e: Expr, r: Reader) { forall i :: 0 <= i < |Tokens(e)| ==> PlainToken(Tokens(e)[i], r) }

  /** What kind of token a first character announces. */
  function CharKind(c: char): nat {
    if NumberChar(c) then 0 else if c == 's' then 1 else if c == 'c' then 2 else if c == '(' then 3 else if c == ')' then 4 else 5
  }

  function TokenKind(t: Token): nat {
    match t
    case Lit(_) => 0
    case Sum(_, _, _) => 1
    case Console(_) => 2
    case Open => 3
    case Close => 4
    case Oper(_, _, _) => 5
  }

  lemma FirstChar(t: Token, r: Reader)
    requires PlainToken(t, r)
    ensures Spell(t) != "" && CharKind(Spell(t)[0]) == TokenKind(t)
  {
    if t.Sum? { assert SumHead(t.what)[0] == 's'; }
    if t.Oper? { assert t.before != "" ==> Blank(t.before[0]); }
  }

  /** The longest beginning of one kind of character is unique. */
  lemma Until(p: char -> bool, a: string, x: string, b: string, y: string)
    requires a + x == b + y
    requires (forall i :: 0 <= i < |a| ==> p(a[i])) && (forall i :: 0 <= i < |b| ==> p(b[i]))
    requires (x != "" ==> !p(x[0])) && (y != "" ==> !p(y[0]))
    ensures a == b && x == y
  {
    UntilShorter(p, a, x, b, y);
    UntilShorter(p, b, y, a, x);
    assert (a + x)[..|a|] == a && (b + y)[..|b|] == b;
    assert (a + x)[|a|..] == x && (b + y)[|b|..] == y;
  }

  lemma UntilShorter(p: char -> bool, a: string, x: string, b: string, y: string)
    requires a + x == b + y && (forall i :: 0 <= i < |b| ==> p(b[i])) && (x != "" ==> !p(x[0]))
    ensures |a| >= |b|
  {
    assert x != "" ==> (a + x)[|a|] == x[0];
    assert forall i :: 0 <= i < |b| ==> (b + y)[i] == b[i];
  }

  lemma Strip(head: string, a: string, b: string)
    requires head + a == head + b
    ensures a == b
  {
    assert (head + a)[|head|..] == a && (head + b)[|head|..] == b;
  }

  lemma NumberUnique(a: Decimal, x: string, b: Decimal, y: string, r: Reader)
    requires PlainNumber(a, r) && PlainNumber(b, r) && a.text + x == b.text + y
    requires (x != "" ==> !NumberChar(x[0])) && (y != "" ==> !NumberChar(y[0]))
    ensures a == b && x == y
  {
    Until(NumberChar, a.text, x, b.text, y);
  }

  function NotQuote(c: char): bool { c != '"' }

  function NotBracket(c: char): bool { c != ']' }

  /** Text up to a quote. */
  lemma QuoteUnique(a: string, x: string, b: string, y: string)
    requires NoQuote(a) && NoQuote(b) && a + ("\"" + x) == b + ("\"" + y)
    ensures a == b && x == y
  {
    Until(NotQuote, a, "\"" + x, b, "\"" + y);
    Strip("\"", x, y);
  }

  lemma SelectorUnique(a: string, x: string, b: string, y: string)
    requires Quoted(a) && Quoted(b) && a + x == b + y
    ensures a == b && x == y
  {
    var p, u :| a == p + "\"" + u + "\"" && NoQuote(p) && NoQuote(u);
    var q, v :| b == q + "\"" + v + "\"" && NoQuote(q) && NoQuote(v);
    assert a + x == p + ("\"" + (u + ("\"" + x)));
    assert b + y == q + ("\"" + (v + ("\"" + y)));
    QuoteUnique(p, u + ("\"" + x), q, v + ("\"" + y));
    QuoteUnique(u, x, v, y);
  }

  lemma WindowUnique(a: string, x: string, b: string, y: string)
    requires ']' !in a && ']' !in b && "}[" + (a + ("]))" + x)) == "}[" + (b + ("]))" + y))
    ensures a == b && x == y
  {
    Strip("}[", a + ("]))" + x), b + ("]))" + y));
    Until(NotBracket, a, "]))" + x, b, "]))" + y);
    Strip("]))", x, y);
  }

  lemma Regroup(a: string, b: string, c: string)
    ensures a + b + c == a + (b + c)
  {
  }

  lemma RegroupFour(a: string, b: string, c: string, d: string)
    ensures a + b + c + d == a + (b + (c + d))
  {
    Regroup(a + b, c, d);
    Regroup(a, b, c + d);
  }

  lemma RegroupSix(a: string, b: string, c: string, d: string, e: string, x: string)
    ensures a + b + c + d + e + x == a + (b + (c + (d + (e + x))))
  {
    RegroupFour(a + b + c, d, e, x);
    RegroupFour(a, b, c, d + (e + x));
  }

  lemma SumUnique(t: Token, x: string, u: Token, y: string, r: Reader)
    requires t.Sum? && u.Sum? && PlainToken(t, r) && PlainToken(u, r) && Spell(t) + x == Spell(u) + y
    ensures t == u && x == y
  {
    RegroupSix(SumHead(t.what), t.selector, "}[", t.window.text, "]))", x);
    RegroupSix(SumHead(u.what), u.selector, "}[", u.window.text, "]))", y);
    SumPartsUnique(t.what, t.selector, t.window.text, x, u.what, u.selector, u.window.text, y);
  }

  lemma SumPartsUnique(h: Aggregate, a: string, v: string, x: string, k: Aggregate, b: string, w: string, y: string)
    requires Quoted(a) && Quoted(b) && ']' !in v && ']' !in w
    requires SumHead(h) + (a + ("}[" + (v + ("]))" + x)))) == SumHead(k) + (b + ("}[" + (w + ("]))" + y))))
    ensures h == k && a == b && v == w && x == y
  {
    HeadUnique(h, a + ("}[" + (v + ("]))" + x))), k, b + ("}[" + (w + ("]))" + y))));
    SelectorUnique(a, "}[" + (v + ("]))" + x)), b, "}[" + (w + ("]))" + y)));
    WindowUnique(v, x, w, y);
  }

  lemma HeadUnique(a: Aggregate, x: string, b: Aggregate, y: string)
    requires SumHead(a) + x == SumHead(b) + y
    ensures a == b && x == y
  {
    assert (SumHead(a) + x)[4] == SumHead(a)[4] && (SumHead(b) + y)[4] == SumHead(b)[4];
    assert a == b;
    Strip(SumHead(a), x, y);
  }

  lemma ConsoleUnique(a: string, x: string, b: string, y: string)
    requires NoQuote(a) && NoQuote(b) && Spell(Console(a)) + x == Spell(Console(b)) + y
    ensures a == b && x == y
  {
    var head := "count(console_url{url=\"";
    assert "\"} == 1)" == "\"" + "} == 1)";
    RegroupFour(head, a, "\"} == 1)", x);
    RegroupFour(head, b, "\"} == 1)", y);
    Regroup("\"", "} == 1)", x);
    Regroup("\"", "} == 1)", y);
    QuotedTail(head, a, "} == 1)", x, b, y);
  }

  lemma QuotedTail(head: string, a: string, tail: string, x: string, b: string, y: string)
    requires NoQuote(a) && NoQuote(b) && head + (a + ("\"" + (tail + x))) == head + (b + ("\"" + (tail + y)))
    ensures a == b && x == y
  {
    Strip(head, a + ("\"" + (tail + x)), b + ("\"" + (tail + y)));
    QuoteUnique(a, tail + x, b, tail + y);
    Strip(tail, x, y);
  }

  lemma OperUnique(t: Token, x: string, u: Token, y: string, r: Reader)
    requires t.Oper? && u.Oper? && PlainToken(t, r) && PlainToken(u, r) && Spell(t) + x == Spell(u) + y
    requires (x != "" ==> !Blank(x[0])) && (y != "" ==> !Blank(y[0]))
    ensures t == u && x == y
  {
    RegroupFour(t.before, OpText(t.op), t.after, x);
    RegroupFour(u.before, OpText(u.op), u.after, y);
    OpStart(t.op, t.after + x);
    OpStart(u.op, u.after + y);
    Until(Blank, t.before, OpText(t.op) + (t.after + x), u.before, OpText(u.op) + (u.after + y));
    OpUnique(t.op, t.after + x, u.op, u.after + y);
    Until(Blank, t.after, x, u.after, y);
  }

  /** The first characters of the operators differ, and are no blanks. */
  lemma OpStart(op: Op, x: string)
    ensures (OpText(op) + x)[0] == OpText(op)[0] && !Blank(OpText(op)[0])
  {
  }

  lemma OpUnique(a: Op, x: string, b: Op, y: string)
    requires OpText(a) + x == OpText(b) + y
    ensures a == b && x == y
  {
    OpStart(a, x);
    OpStart(b, y);
    assert a == b;
    Strip(OpText(a), x, y);
  }

  /** What may come after a token so that it ends where it ends. */
  predicate Ends(t: Token, rest: string) {
    (t.Lit? && rest != "" ==> !NumberChar(rest[0])) && (t.Oper? && rest != "" ==> !Blank(rest[0]))
  }

  lemma TokenUnique(t: Token, x: string, u: Token, y: string, r: Reader)
    requires PlainToken(t, r) && PlainToken(u, r) && Ends(t, x) && Ends(u, y) && Spell(t) + x == Spell(u) + y
    ensures t == u && x == y
  {
    FirstChar(t, r);
    FirstChar(u, r);
    assert (Spell(t) + x)[0] == Spell(t)[0] && (Spell(u) + y)[0] == Spell(u)[0];
    match t
    case Lit(literal) => NumberUnique(literal, x, u.literal, y, r);
    case Sum(_, _, _) => SumUnique(t, x, u, y, r);
    case Console(url) => ConsoleUnique(url, x, u.url, y);
    case Oper(_, _, _) => OperUnique(t, x, u, y, r);
    case _ => Strip(Spell(t), x, y);
  }

  /** Neither two numbers nor two operators stand side by side. */
  predicate Apart(ts: seq<Token>) {
    forall i :: 0 < i < |ts| ==> !(ts[i - 1].Lit? && ts[i].Lit?) && !(ts[i - 1].Oper? && ts[i].Oper?)
  }

  /** No operator stands first or last. */
  predicate Closed(ts: seq<Token>) { ts != [] && Apart(ts) && !ts[0].Oper? && !ts[|ts| - 1].Oper? }

  lemma {:induction false} TokensApart(e: Expr)
    ensures Closed(Tokens(e))
  {
    match e
    case Paren(inner) =>
      TokensApart(inner);
      ParenApart(Tokens(inner));
    case Bin(left, before, op, after, right) =>
      TokensApart(left);
      TokensApart(right);
      BinApart(Tokens(left), Oper(before, op, after), Tokens(right));
    case _ =>
  }

  lemma ParenApart(ts: seq<Token>)
    requires Closed(ts)
    ensures Closed([Open] + ts + [Close])
  {
    var all := [Open] + ts + [Close];
    assert forall i :: 0 < i <= |ts| ==> all[i] == ts[i - 1];
  }

  lemma BinApart(l: seq<Token>, o: Token, r: seq<Token>)
    requires Closed(l) && Closed(r) && o.Oper?
    ensures Closed(l + [o] + r)
  {
    var all, n := l + [o] + r, |l|;
    assert forall i :: 0 <= i < n ==> all[i] == l[i];
    assert all[n] == o;
    assert forall i :: n < i < |all| ==> all[i] == r[i - n - 1];
  }

  lemma NextEnds(ts: seq<Token>, r: Reader)
    requires ts != [] && Apart(ts) && forall i :: 0 <= i < |ts| ==> PlainToken(ts[i], r)
    ensures Ends(ts[0], SpellAll(ts[1..]))
  {
    if |ts| > 1 {
      FirstChar(ts[1], r);
      assert SpellAll(ts[1..])[0] == Spell(ts[1])[0];
    }
  }

  /** Token sequences with the same text are the same. */
  lemma {:induction false} SpellingDetermines(ts: seq<Token>, us: seq<Token>, r: Reader)
    requires Apart(ts) && Apart(us) && SpellAll(ts) == SpellAll(us)
    requires (forall i :: 0 <= i < |ts| ==> PlainToken(ts[i], r)) && (forall i :: 0 <= i < |us| ==> PlainToken(us[i], r))
    ensures ts == us
  {
    SomeSpelling(ts, r);
    SomeSpelling(us, r);
    if ts != [] {
      NextEnds(ts, r);
      NextEnds(us, r);
      TokenUnique(ts[0], SpellAll(ts[1..]), us[0], SpellAll(us[1..]), r);
      SpellingDetermines(ts[1..], us[1..], r);
      assert ts == [ts[0]] + ts[1..] && us == [us[0]] + us[1..];
    }
  }

  lemma SomeSpelling(ts: seq<Token>, r: Reader)
    requires forall i :: 0 <= i < |ts| ==> PlainToken(ts[i], r)
    ensures ts != [] ==> SpellAll(ts) != ""
  {
    if ts != [] { FirstChar(ts[0], r); }
  }

  /** The text determines the expression: two plain expressions that PromQL's grouping
      fits, and that have the same text, are the same. */
  lemma TextDetermines(a: Expr, b: Expr, r: Reader)
    requires Grouped(a) && Grouped(b) && Plain(a, r) && Plain(b, r) && Text(a) == Text(b)
    ensures a == b
  {
    SpellsText(a);
    SpellsText(b);
    TokensApart(a);
    TokensApart(b);
    SpellingDetermines(Tokens(a), Tokens(b), r);
    TokensDetermine(a, b);
  }

  lemma PlainParen(inner: Expr, r: Reader)
    requires Plain(inner, r)
    ensures Plain(Paren(inner), r)
  {
    var ts := Tokens(inner);
    forall i | 0 <= i < |ts| + 2 ensures PlainToken(Tokens(Paren(inner))[i], r) {
      if 0 < i <= |ts| { assert Tokens(Paren(inner))[i] == ts[i - 1]; }
    }
  }

  lemma PlainBin(left: Expr, before: string, op: Op, after: string, right: Expr, r: Reader)
    requires Plain(left, r) && Plain(right, r) && Blanks(before) && Blanks(after)
    ensures Plain(Bin(left, before, op, after, right), r)
  {
    var ls, rs, ts := Tokens(left), Tokens(right), Tokens(Bin(left, before, op, after, right));
    forall i | 0 <= i < |ts| ensures PlainToken(ts[i], r) {
      if i < |ls| {
        assert ts[i] == ls[i];
      } else if i > |ls| {
        assert ts[i] == rs[i - |ls| - 1];
      }
    }
  }
}
