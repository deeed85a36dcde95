/** Cache keys of the CMS layer (src/services/wpGraphQL.service.ts) and the Redis glob that
    invalidation scans with (src/services/cache.service.ts). */
module CacheKeys {
  import opened Wrappers
  import opened Hash

  /** The arguments of fetchPublishedProperties and fetchPropertyBySlug. */
  datatype Args = Listing(first: int, after: Option<string>) | Single(slug: string)

  const LISTING_PREFIX := "wpcms:properties:"
  const SINGLE_PREFIX := "wpcms:property:"

  function Integer(n: int): string {
    if n < 0 then "-" + Decimal(-n) else Decimal(n)
  }

  function KeyOf(a: Args): string {
    match a
    case Listing(first, after) =>
      LISTING_PREFIX + Integer(first) + ":" + (if after.Some? then after.value else "start")
    case Single(slug) => SINGLE_PREFIX + slug
  }

  /** The arguments a key stands for: a missing cursor and the cursor 'start' share one. */
  function Canonical(a: Args): Args {
    if a.Listing? && a.after.None? then Listing(a.first, Some("start")) else a
  }

  // -------------------------------------------------------------- keys, reversed

  lemma IntegerShape(n: int)
    ensures ':' !in Integer(n) && Integer(n) != []
    ensures Integer(n)[0] == '-' <==> n < 0
  {
    if n < 0 { DecimalRoundTrip(-n); DecimalNonEmpty(-n); } else { DecimalRoundTrip(n); DecimalNonEmpty(n); }
  }

  lemma DecimalNonEmpty(n: nat)
    ensures Decimal(n) != []
  {}

  lemma DecimalInjective(m: nat, n: nat)
    requires Decimal(m) == Decimal(n)
    ensures m == n
  {
    hide Decimal;
    DecimalRoundTrip(m);
    DecimalRoundTrip(n);
  }

  lemma IntegerInjective(m: int, n: int)
    requires Integer(m) == Integer(n)
    ensures m == n
  {
    hide Decimal;
    IntegerShape(m);
    IntegerShape(n);
    if m < 0 {
      assert Integer(m)[1..] == Decimal(-m) && Integer(n)[1..] == Decimal(-n);
      DecimalInjective(-m, -n);
    } else {
      DecimalInjective(m, n);
    }
  }

  lemma FamiliesDisjoint(x: string, y: string)
    ensures LISTING_PREFIX + x != SINGLE_PREFIX + y
  {
    assert (LISTING_PREFIX + x)[13] == 'i' && (SINGLE_PREFIX + y)[13] == 'y';
  }

  lemma ListingKeys(m: int, x: string, n: int, y: string)
    requires LISTING_PREFIX + Integer(m) + ":" + x == LISTING_PREFIX + Integer(n) + ":" + y
    ensures m == n && x == y
  {
    hide Integer;
    var u, v := Integer(m) + [':'] + x, Integer(n) + [':'] + y;
    assert LISTING_PREFIX + Integer(m) + ":" + x == LISTING_PREFIX + u;
    assert LISTING_PREFIX + Integer(n) + ":" + y == LISTING_PREFIX + v;
    assert (LISTING_PREFIX + u)[|LISTING_PREFIX|..] == u;
    assert (LISTING_PREFIX + v)[|LISTING_PREFIX|..] == v;
    IntegerShape(m);
    IntegerShape(n);
    CutAt(Integer(m), ':', x);
    CutAt(Integer(n), ':', y);
    IntegerInjective(m, n);
  }

  lemma SingleKeys(x: string, y: string)
    requires SINGLE_PREFIX + x == SINGLE_PREFIX + y
    ensures x == y
  {
    assert (SINGLE_PREFIX + x)[|SINGLE_PREFIX|..] == x;
    assert (SINGLE_PREFIX + y)[|SINGLE_PREFIX|..] == y;
  }

  lemma ListingIsNotSingle(a: Args, b: Args)
    requires a.Listing? && b.Single?
    ensures KeyOf(a) != KeyOf(b)
  {
    hide Integer;
    var t := Integer(a.first) + ":" + (if a.after.Some? then a.after.value else "start");
    assert KeyOf(a) == LISTING_PREFIX + t;
    FamiliesDisjoint(t, b.slug);
  }

  /** Two calls share a key exactly when they have the same arguments, or differ only in
      no cursor against the cursor 'start'. */
  lemma KeysDetermineArgs(a: Args, b: Args)
    ensures KeyOf(a) == KeyOf(b) <==> Canonical(a) == Canonical(b)
    ensures KeyOf(a) == KeyOf(b) <==>
              || a == b
              || (a.Listing? && b.Listing? && a.first == b.first
                  && ((a.after == None && b.after == Some("start")) || (a.after == Some("start") && b.after == None)))
  {
    hide Integer;
    if KeyOf(a) == KeyOf(b) {
      match (a, b) {
        case (Listing(m, x), Listing(n, y)) =>
          ListingKeys(m, if x.Some? then x.value else "start", n, if y.Some? then y.value else "start");
        case (Single(x), Single(y)) => SingleKeys(x, y);
        case (Listing(_, _), Single(_)) => ListingIsNotSingle(a, b);
        case (Single(_), Listing(_, _)) => ListingIsNotSingle(b, a);
      }
    }
  }

  /** Keys as Redis sees them. */
  lemma KeyExamples()
    ensures KeyOf(Listing(20, None)) == "wpcms:properties:20:start"
    ensures KeyOf(Listing(5, Some("abc"))) == "wpcms:properties:5:abc"
    ensures KeyOf(Single("villa")) == "wpcms:property:villa"
  {
    assert Decimal(2) == "2" && Decimal(20) == "20" && Decimal(5) == "5";
    assert LISTING_PREFIX + "20" + ":" + "start" == "wpcms:properties:20:start";
    assert LISTING_PREFIX + "5" + ":" + "abc" == "wpcms:properties:5:abc";
    assert SINGLE_PREFIX + "villa" == "wpcms:property:villa";
  }

  lemma ListingKeysHavePrefix(first: int, after: Option<string>)
    ensures LISTING_PREFIX <= KeyOf(Listing(first, after))
  {}

  // ------------------------------------------------------------------ Redis glob

  /** The body of a [...] class from just behind the bracket: whether c is listed, and the
      pattern left after it. An unclosed class runs to the end. */
  function ClassBody(p: string, c: char): (r: (bool, string))
    ensures |r.1| <= |p| && r.1 == p[|p| - |r.1|..]
    ensures p != [] ==> |r.1| < |p|
  {
    if p == [] then (false, [])
    else if |p| >= 2 && p[0] == '\\' then
      var (m, rest) := ClassBody(p[2..], c);
      (m || p[1] == c, rest)
    else if p[0] == ']' then (false, p[1..])
    else if |p| >= 3 && p[1] == '-' then
      var (m, rest) := ClassBody(p[3..], c);
      (m || p[0] <= c <= p[2] || p[2] <= c <= p[0], rest)
    else
      var (m, rest) := ClassBody(p[1..], c);
      (m || p[0] == c, rest)
  }

  /** What follows "[": an optional negation, then the body. */
  function Class(p: string, c: char): (r: (bool, string))
    ensures |r.1| <= |p| && r.1 == p[|p| - |r.1|..]
    ensures p != [] ==> |r.1| < |p|
  {
    if p != [] && p[0] == '^' then
      var (m, rest) := ClassBody(p[1..], c);
      (!m, rest)
    else ClassBody(p, c)
  }

  /** Redis pattern matching. */
  predicate Glob(p: string, s: string)
    decreases |p| + |s|
  {
    if p == [] then s == []
    else if p[0] == '*' then Glob(p[1..], s) || (s != [] && Glob(p, s[1..]))
    else if s == [] then false
    else if p[0] == '?' then Glob(p[1..], s[1..])
    else if p[0] == '[' then Class(p[1..], s[0]).0 && Glob(Class(p[1..], s[0]).1, s[1..])
    else if p[0] == '\\' && |p| >= 2 then p[1] == s[0] && Glob(p[2..], s[1..])
    else p[0] == s[0] && Glob(p[1..], s[1..])
  }

  predicate IsMeta(c: char) { c == '*' || c == '?' || c == '[' || c == '\\' }

  predicate Literal(p: string) { forall i :: 0 <= i < |p| ==> !IsMeta(p[i]) }

  lemma {:induction false} StarMatchesAll(s: string)
    ensures Glob("*", s)
  {
    if s == [] { assert Glob([], s); } else { StarMatchesAll(s[1..]); }
  }

  /** A literal prefix followed by a star matches exactly the strings with that prefix. */
  lemma {:induction false} LiteralPrefixGlob(p: string, s: string)
    requires Literal(p)
    ensures Glob(p + "*", s) <==> p <= s
  {
    if p == [] {
      assert p + "*" == "*";
      StarMatchesAll(s);
    } else {
      assert (p + "*")[1..] == p[1..] + "*" && (p + "*")[0] == p[0];
      assert !IsMeta(p[0]);
      if s != [] {
        LiteralPrefixGlob(p[1..], s[1..]);
        assert p <= s <==> p[0] == s[0] && p[1..] <= s[1..] by {
          if p[0] == s[0] && p[1..] <= s[1..] {
            assert p == [p[0]] + p[1..] && s == [s[0]] + s[1..];
          }
        }
      }
    }
  }

  /** The other pattern elements: any one character, a class, a negated class, a range, an
      escaped character. */
  lemma GlobElements(c: char)
    ensures Glob("?", [c])
    ensures Glob("[ab]", [c]) <==> c == 'a' || c == 'b'
    ensures Glob("[^a]", [c]) <==> c != 'a'
    ensures Glob("[b-d]", [c]) <==> 'b' <= c <= 'd'
    ensures Glob("\\*", [c]) <==> c == '*'
  {
    OneElement(c);
    assert [c][1..] == [] && "?"[1..] == [] && "\\*"[2..] == [];
    assert "[ab]"[1..] == "ab]" && "[^a]"[1..] == "^a]" && "[b-d]"[1..] == "b-d]";
  }

  lemma OneElement(c: char)
    ensures Class("ab]", c) == (c == 'a' || c == 'b', [])
    ensures Class("^a]", c) == (c != 'a', [])
    ensures Class("b-d]", c) == ('b' <= c <= 'd', [])
  {
    assert "ab]"[1..] == "b]" && "b]"[1..] == "]" && "]"[1..] == [] && "^a]"[1..] == "a]" && "a]"[1..] == "]";
    assert "b-d]"[3..] == "]";
    assert ClassBody("]", c) == (false, []);
    assert ClassBody("b]", c) == (c == 'b', []) && ClassBody("a]", c) == (c == 'a', []);
  }

  // ---------------------------------------- and a pattern with metacharacters never does

  /** The length of the shortest strings a pattern can match: one per element but none
      per star. */
  function Shortest(p: string): nat
    decreases |p|
  {
    if p == [] then 0
    else if p[0] == '*' then Shortest(p[1..])
    else if p[0] == '[' then 1 + Shortest(Class(p[1..], 'a').1)
    else if p[0] == '\\' && |p| >= 2 then 1 + Shortest(p[2..])
    else 1 + Shortest(p[1..])
  }

  lemma {:induction false} ClassBodyRest(p: string, c: char, d: char)
    ensures ClassBody(p, c).1 == ClassBody(p, d).1
    decreases |p|
  {
    if p == [] {
    } else if |p| >= 2 && p[0] == '\\' {
      ClassBodyRest(p[2..], c, d);
    } else if p[0] == ']' {
    } else if |p| >= 3 && p[1] == '-' {
      ClassBodyRest(p[3..], c, d);
    } else {
      ClassBodyRest(p[1..], c, d);
    }
  }

  lemma ClassRest(p: string, c: char, d: char)
    ensures Class(p, c).1 == Class(p, d).1
  {
    ClassBodyRest(p, c, d);
    if p != [] { ClassBodyRest(p[1..], c, d); }
  }

  /** A pattern that matches anything matches something of its shortest length. */
  lemma {:induction false} ShortestMatch(p: string, s: string) returns (t: string)
    requires Glob(p, s)
    ensures Glob(p, t) && |t| == Shortest(p)
    decreases |p| + |s|
  {
    if p == [] {
      t := [];
    } else if p[0] == '*' {
      if Glob(p[1..], s) {
        t := ShortestMatch(p[1..], s);
      } else {
        t := ShortestMatch(p, s[1..]);
      }
    } else {
      var rest := if p[0] == '[' then Class(p[1..], s[0]).1
                  else if p[0] == '\\' && |p| >= 2 then p[2..] else p[1..];
      if p[0] == '[' { ClassRest(p[1..], s[0], 'a'); }
      var u := ShortestMatch(rest, s[1..]);
      t := [s[0]] + u;
      assert t[1..] == u;
    }
  }

  lemma {:induction false} ShortestBound(p: string)
    requires p != [] && p[|p| - 1] == '*'
    ensures Shortest(p) < |p|
    decreases |p|
  {
    if |p| == 1 {
    } else if p[0] == '[' {
      var rest := Class(p[1..], 'a').1;
      if rest != [] {
        assert rest[|rest| - 1] == p[|p| - 1];
        ShortestBound(rest);
      }
    } else if p[0] == '\\' {
      if |p| > 2 { ShortestBound(p[2..]); }
    } else {
      ShortestBound(p[1..]);
    }
  }

  /** A prefix that begins with a metacharacter: p's own text is not matched, or something
      without the prefix is. */
  lemma MetaFirst(p: string) returns (u: string)
    requires p != [] && IsMeta(p[0])
    ensures Glob(p + "*", u) != (p <= u)
  {
    var q := p + "*";
    if !Glob(q, p) { return p; }
    assert q[1..] == p[1..] + "*";
    if p[0] == '*' {
      u := "x" + p;
      assert u[1..] == p;
    } else if p[0] == '?' {
      u := "x" + p[1..];
      assert u[1..] == p[1..];
    } else {
      u := ShortestMatch(q, p);
      var rest := if p[0] == '[' then Class(q[1..], 'a').1 else q[2..];
      ClassRest(q[1..], 'a', p[0]);
      if rest == [] {
        if |q| == 2 { OneCharClass(p); }
      } else {
        assert rest[|rest| - 1] == '*';
        ShortestBound(rest);
      }
    }
  }

  lemma OneCharClass(p: string)
    requires |p| == 1 && (p[0] == '[' || p[0] == '\\')
    ensures !Glob(p + "*", p)
  {
    var q := p + "*";
    assert q[1..] == "*" && q[2..] == [] && q[1] == '*';
    if p[0] == '[' {
      assert ClassBody("*", p[0]) == (false, []) by { assert "*"[1..] == []; }
    }
  }

  lemma {:induction false} LiteralHead(h: string, q: string, u: string)
    requires Literal(h)
    ensures Glob(h + q, h + u) <==> Glob(q, u)
  {
    if h == [] {
      assert h + q == q && h + u == u;
    } else {
      assert (h + q)[1..] == h[1..] + q && (h + u)[1..] == h[1..] + u;
      assert !IsMeta(h[0]);
      LiteralHead(h[1..], q, u);
    }
  }

  /** A pattern with a literal head matches only strings with that head. */
  lemma {:induction false} LiteralHeadOnly(h: string, q: string, s: string)
    requires Literal(h) && Glob(h + q, s)
    ensures h <= s
  {
    if h != [] {
      assert (h + q)[1..] == h[1..] + q && !IsMeta(h[0]);
      LiteralHeadOnly(h[1..], q, s[1..]);
      assert s == [s[0]] + s[1..] && h == [h[0]] + h[1..];
    }
  }

  /** Whether the scan pattern made of a slug finds the slug's own key. */
  predicate FindsItself(slug: string) { Glob(slug + "*", slug) }

  lemma SlugPattern(slug: string)
    ensures Glob(SINGLE_PREFIX + slug + "*", KeyOf(Single(slug))) <==> FindsItself(slug)
    ensures Literal(slug) ==> FindsItself(slug)
  {
    hide Glob;
    assert SINGLE_PREFIX + slug + "*" == SINGLE_PREFIX + (slug + "*");
    LiteralHead(SINGLE_PREFIX, slug + "*", slug);
    if Literal(slug) { LiteralPrefixGlob(slug, slug); }
  }

  /** A slug that its own pattern does not find. */
  lemma BracketedSlug()
    ensures !FindsItself("[a]")
  {
    assert ClassBody("a]*", '[').0 == false by {
      assert "a]*"[1..] == "]*";
    }
    assert ("[a]" + "*")[1..] == "a]*";
  }

  /** SCAN with `prefix*` is the prefix test exactly for prefixes without metacharacters. */
  lemma PrefixGlobIff(p: string)
    ensures (forall s :: Glob(p + "*", s) <==> p <= s) <==> Literal(p)
  {
    if Literal(p) {
      forall s ensures Glob(p + "*", s) <==> p <= s { LiteralPrefixGlob(p, s); }
    } else {
      var i := FirstMeta(p);
      var u := MetaFirst(p[i..]);
      var s := p[..i] + u;
      assert p + "*" == p[..i] + (p[i..] + "*");
      LiteralHead(p[..i], p[i..] + "*", u);
      assert p <= s <==> p[i..] <= u by {
        if p <= s { assert p[i..] == s[..|p|][i..] == u[..|p| - i]; }
        if p[i..] <= u { assert p == p[..i] + p[i..] <= s; }
      }
      assert Glob(p + "*", s) != (p <= s);
    }
  }

  lemma FirstMeta(p: string) returns (i: nat)
    requires !Literal(p)
    ensures i < |p| && IsMeta(p[i]) && Literal(p[..i])
  {
    i := 0;
    while !IsMeta(p[i])
      invariant i < |p| && Literal(p[..i])
      invariant exists j :: i <= j < |p| && IsMeta(p[j])
      decreases |p| - i
    {
      i := i + 1;
    }
  }
}
