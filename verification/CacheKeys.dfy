/** Keys and invalidation patterns of the response cache (backend/middleware/cache.go). */
module CacheKeys {
  import opened Wrappers

  datatype Auth = Auth(tenant: string, user: string)

  // ---------------------------------------------------------------------------
  // Keys
  // ---------------------------------------------------------------------------

  function TenantPart(auth: Option<Auth>): string {
    match auth case None => "anon:" case Some(a) => "t:" + a.tenant + ":"
  }

  function UserPart(auth: Option<Auth>, cachePrivate: bool): string {
    if auth.Some? && cachePrivate then "u:" + auth.value.user + ":" else ""
  }

  /** The tenant, and under private caching the user, that a key belongs to. */
  function Owner(auth: Option<Auth>, cachePrivate: bool): string {
    TenantPart(auth) + UserPart(auth, cachePrivate)
  }

  function Target(path: string, query: string): string {
    path + (if |query| > 0 then "?" + query else "")
  }

  function KeyOf(prefix: string, cachePrivate: bool, auth: Option<Auth>, path: string, query: string): string {
    prefix + (Owner(auth, cachePrivate) + Target(path, query))
  }

  /** The key is written piece by piece into a builder. */
  method BuildCacheKey(prefix: string, cachePrivate: bool, auth: Option<Auth>, path: string, query: string)
    returns (key: string)
    ensures key == KeyOf(prefix, cachePrivate, auth, path, query)
  {
    var sb := WriteOwner(prefix, cachePrivate, auth);
    key := WriteTarget(sb, path, query);
    assert (prefix + Owner(auth, cachePrivate)) + Target(path, query) ==
           prefix + (Owner(auth, cachePrivate) + Target(path, query));
  }

  lemma Append3(s: string, a: string, b: string, c: string)
    ensures s + a + b + c == s + (a + b + c)
  {
  }

  method WriteOwner(sb: string, cachePrivate: bool, auth: Option<Auth>) returns (written: string)
    ensures written == sb + Owner(auth, cachePrivate)
  {
    written := sb;
    if auth.Some? {
      written := written + "t:";
      written := written + auth.value.tenant;
      written := written + ":";
      Append3(sb, "t:", auth.value.tenant, ":");
      if cachePrivate {
        Append3(written, "u:", auth.value.user, ":");
        written := written + "u:";
        written := written + auth.value.user;
        written := written + ":";
      }
    } else {
      written := written + "anon:";
    }
    assert (sb + TenantPart(auth)) + UserPart(auth, cachePrivate) == sb + Owner(auth, cachePrivate);
  }

  method WriteTarget(sb: string, path: string, query: string) returns (written: string)
    ensures written == sb + Target(path, query)
  {
    written := sb + path;
    if |query| > 0 {
      written := written + "?";
      written := written + query;
    }
  }

  lemma SamePrefix<T>(p: seq<T>, a: seq<T>, b: seq<T>)
    requires p + a == p + b
    ensures a == b
  {
    assert a == (p + a)[|p|..] && b == (p + b)[|p|..];
  }

  lemma SplitEqual<T>(a: seq<T>, b: seq<T>, c: seq<T>, d: seq<T>)
    requires a + b == c + d && |a| == |c|
    ensures a == c && b == d
  {
    assert a == (a + b)[..|a|] && c == (c + d)[..|c|];
    assert b == (a + b)[|a|..] && d == (c + d)[|c|..];
  }

  /** A path without a question mark and a query are recovered from their concatenation. */
  lemma TargetInjective(p: string, q: string, p': string, q': string)
    requires '?' !in p && '?' !in p' && Target(p, q) == Target(p', q')
    ensures p == p' && q == q'
  {
    SameLength(p, q, p', q');
    SameLength(p', q', p, q);
    SplitEqual(p, if |q| > 0 then "?" + q else "", p', if |q'| > 0 then "?" + q' else "");
    if |q| > 0 && |q'| > 0 {
      SamePrefix("?", q, q');
    }
  }

  /** The question mark of the shorter path would have to lie inside the longer one. */
  lemma SameLength(p: string, q: string, p': string, q': string)
    requires '?' !in p' && Target(p, q) == Target(p', q')
    ensures |p| >= |p'|
  {
    var t := Target(p', q');
    assert p' == t[..|p'|];
    if |t| > |p| {
      assert t[|p|] == '?';
    }
  }

  /** Identifiers all have the same length. */
  ghost predicate IdLength(auth: Option<Auth>, n: nat) {
    auth.Some? ==> |auth.value.tenant| == n && |auth.value.user| == n
  }

  lemma OwnerShape(x: Auth, s: string)
    ensures Owner(Some(x), true) + s == "t:" + (x.tenant + (":u:" + (x.user + (":" + s))))
  {
    assert TenantPart(Some(x)) + UserPart(Some(x), true) == "t:" + (x.tenant + (":u:" + (x.user + ":")));
  }

  lemma KnownOwnerInjective(x: Auth, s: string, y: Auth, t: string)
    requires |x.tenant| == |y.tenant| && |x.user| == |y.user|
    requires Owner(Some(x), true) + s == Owner(Some(y), true) + t
    ensures x == y && s == t
  {
    OwnerShape(x, s);
    OwnerShape(y, t);
    SamePrefix("t:", x.tenant + (":u:" + (x.user + (":" + s))), y.tenant + (":u:" + (y.user + (":" + t))));
    SplitEqual(x.tenant, ":u:" + (x.user + (":" + s)), y.tenant, ":u:" + (y.user + (":" + t)));
    SamePrefix(":u:", x.user + (":" + s), y.user + (":" + t));
    SplitEqual(x.user, ":" + s, y.user, ":" + t);
    SamePrefix(":", s, t);
  }

  lemma OwnerStarts(a: Option<Auth>, s: string)
    ensures (Owner(a, true) + s)[0] == if a.Some? then 't' else 'a'
    ensures a.None? ==> Owner(a, true) == "anon:"
  {
    if a.Some? {
      OwnerShape(a.value, s);
    } else {
      assert Owner(a, true) == "anon:";
    }
  }

  lemma OwnerInjective(a: Option<Auth>, s: string, b: Option<Auth>, t: string, n: nat)
    requires IdLength(a, n) && IdLength(b, n)
    requires Owner(a, true) + s == Owner(b, true) + t
    ensures a == b && s == t
  {
    OwnerStarts(a, s);
    OwnerStarts(b, t);
    if a.Some? {
      KnownOwnerInjective(a.value, s, b.value, t);
    } else {
      SamePrefix("anon:", s, t);
    }
  }

  /**
  Under private caching two requests share a key only if they come from the same tenant and
  user, or both from nobody, and ask for the same path with the same query.
  */
  lemma KeysAreInjective(
      prefix: string, a: Option<Auth>, path: string, query: string,
      b: Option<Auth>, path': string, query': string, n: nat)
    requires IdLength(a, n) && IdLength(b, n) && '?' !in path && '?' !in path'
    requires KeyOf(prefix, true, a, path, query) == KeyOf(prefix, true, b, path', query')
    ensures a == b && path == path' && query == query'
  {
    SamePrefix(prefix, Owner(a, true) + Target(path, query), Owner(b, true) + Target(path', query'));
    OwnerInjective(a, Target(path, query), b, Target(path', query'), n);
    TargetInjective(path, query, path', query');
  }

  /** A request as far as its key is concerned. */
  datatype Request = Request(auth: Option<Auth>, path: string, query: string)

  /** Another request with identifiers of the same length has the same key. */
  ghost predicate SharesKey(prefix: string, r: Request, other: Request, n: nat) {
    && IdLength(other.auth, n) && other != r
    && KeyOf(prefix, true, other.auth, other.path, other.query) == KeyOf(prefix, true, r.auth, r.path, r.query)
  }

  /** A question mark that something follows. */
  predicate QuestionMarkInside(t: string) { exists i :: 0 <= i < |t| - 1 && t[i] == '?' }

  /** A target that can be read in two ways has a question mark that something follows. */
  lemma TwoReadings(p: string, q: string, p': string, q': string)
    requires Target(p, q) == Target(p', q') && (p != p' || q != q')
    ensures QuestionMarkInside(Target(p, q))
  {
    var t := Target(p, q);
    assert q == "" ==> t == p;
    assert q' == "" ==> t == p';
    if |q| > 0 {
      assert t[|p|] == '?';
    } else if |q'| > 0 {
      assert t[|p'|] == '?';
    }
  }

  /** And every such question mark gives a second reading. */
  lemma OtherReading(p: string, q: string) returns (p': string, q': string)
    requires QuestionMarkInside(Target(p, q))
    ensures Target(p', q') == Target(p, q) && (p' != p || q' != q)
  {
    var t := Target(p, q);
    if |q| > 0 {
      assert t == Target(t, "");
      return t, "";
    }
    var i :| 0 <= i < |t| - 1 && t[i] == '?';
    assert t == t[..i] + ("?" + t[i + 1..]);
    return t[..i], t[i + 1..];
  }

  /**
  Under private caching, a request shares its key with some other request exactly when the
  path and query it asks for contain a question mark that something follows. The other
  request then has a question mark inside its path; whether the router ever hands one over is
  not part of this model, and KeysAreInjective covers the requests it cannot be in.
  */
  lemma SharedKeysExactly(prefix: string, r: Request, n: nat)
    requires IdLength(r.auth, n)
    ensures (exists other :: SharesKey(prefix, r, other, n)) <==> QuestionMarkInside(Target(r.path, r.query))
  {
    var t := Target(r.path, r.query);
    if other :| SharesKey(prefix, r, other, n) {
      var t' := Target(other.path, other.query);
      SamePrefix(prefix, Owner(r.auth, true) + t, Owner(other.auth, true) + t');
      OwnerInjective(r.auth, t, other.auth, t', n);
      TwoReadings(r.path, r.query, other.path, other.query);
    }
    if QuestionMarkInside(t) {
      var path, query := OtherReading(r.path, r.query);
      assert SharesKey(prefix, r, Request(r.auth, path, query), n);
    }
  }

  // ---------------------------------------------------------------------------
  // Patterns
  // ---------------------------------------------------------------------------

  /** No character that means something in a pattern. */
  predicate Literal(s: string) {
    forall i :: 0 <= i < |s| ==> s[i] != '*' && s[i] != '?' && s[i] != '[' && s[i] != '\\'
  }

  /** Whether a class, read from behind its bracket, has the character. */
  predicate ClassHas(class_: string, c: char) {
    if class_ == "" then false
    else if class_[0] == '\\' && |class_| >= 2 then c == class_[1] || ClassHas(class_[2..], c)
    else if class_[0] == ']' then false
    else if |class_| >= 3 && class_[1] == '-' then
      class_[0] <= c <= class_[2] || class_[2] <= c <= class_[0] || ClassHas(class_[3..], c)
    else c == class_[0] || ClassHas(class_[1..], c)
  }

  /** The pattern behind the class. */
  function ClassRest(class_: string): (rest: string)
    ensures |rest| <= |class_|
  {
    if class_ == "" then ""
    else if class_[0] == '\\' && |class_| >= 2 then ClassRest(class_[2..])
    else if class_[0] == ']' then class_[1..]
    else if |class_| >= 3 && class_[1] == '-' then ClassRest(class_[3..])
    else ClassRest(class_[1..])
  }

  /** A caret behind the bracket negates the class. */
  predicate Negated(pattern: string) { |pattern| >= 2 && pattern[1] == '^' }

  /** The class at the start of a pattern, from behind its bracket and caret. */
  function ClassOf(pattern: string): string
    requires pattern != ""
  {
    pattern[if Negated(pattern) then 2 else 1..]
  }

  /** Glob matching as the store does it: star, question mark, classes and escapes. */
  predicate GlobMatch(pattern: string, s: string)
    decreases |pattern| + |s|
  {
    if pattern == "" then s == ""
    else if pattern[0] == '*' then
      GlobMatch(pattern[1..], s) || (s != "" && GlobMatch(pattern, s[1..]))
    else if s == "" then false
    else if pattern[0] == '?' then GlobMatch(pattern[1..], s[1..])
    else if pattern[0] == '[' then
      ClassHas(ClassOf(pattern), s[0]) != Negated(pattern) && GlobMatch(ClassRest(ClassOf(pattern)), s[1..])
    else if pattern[0] == '\\' && |pattern| >= 2 then
      s[0] == pattern[1] && GlobMatch(pattern[2..], s[1..])
    else
      s[0] == pattern[0] && GlobMatch(pattern[1..], s[1..])
  }

  /** What a class lists: single characters, escaped ones, and ranges, whose ends may stand either way round. */
  datatype ClassItem = Single(c: char) | Escaped(c: char) | Range(low: char, high: char)

  predicate Accepts(item: ClassItem, c: char) {
    match item
    case Single(d) => c == d
    case Escaped(d) => c == d
    case Range(low, high) => low <= c <= high || high <= c <= low
  }

  function Spelled(items: seq<ClassItem>): string {
    if items == [] then "]"
    else
      (match items[0] case Single(c) => [c] case Escaped(c) => ['\\', c] case Range(low, high) => [low, '-', high])
      + Spelled(items[1..])
  }

  /** Items that are not taken for something else: no closing bracket, backslash or hyphen in front. */
  predicate Readable(items: seq<ClassItem>) {
    forall i :: 0 <= i < |items| ==>
      match items[i]
      case Single(c) => c !in {']', '\\', '-'}
      case Escaped(_) => true
      case Range(low, _) => low !in {']', '\\', '-'}
  }

  /** A class accepts exactly what its items do, and the pattern goes on behind it. */
  lemma {:induction false} ClassMeans(items: seq<ClassItem>, rest: string, c: char)
    requires Readable(items)
    ensures ClassHas(Spelled(items) + rest, c) <==> exists i :: 0 <= i < |items| && Accepts(items[i], c)
    ensures ClassRest(Spelled(items) + rest) == rest
  {
    var text := Spelled(items) + rest;
    if items == [] {
      assert text[1..] == rest;
    } else {
      var first, others := items[0], items[1..];
      ClassMeans(others, rest, c);
      var n := match first case Single(_) => 1 case Escaped(_) => 2 case Range(_, _) => 3;
      assert text[n..] == Spelled(others) + rest;
      assert first.Single? && |text| >= 2 ==> text[1] != '-' by {
        SpelledStart(others, rest);
      }
      OneOf(items, c);
    }
  }

  lemma SpelledStart(items: seq<ClassItem>, rest: string)
    requires Readable(items)
    ensures Spelled(items) + rest != "" && (Spelled(items) + rest)[0] != '-'
  {
  }

  lemma OneOf(items: seq<ClassItem>, c: char)
    requires items != []
    ensures (exists i :: 0 <= i < |items| && Accepts(items[i], c)) <==>
              Accepts(items[0], c) || exists i :: 0 <= i < |items| - 1 && Accepts(items[1..][i], c)
  {
    if i :| 0 <= i < |items| && Accepts(items[i], c) {
      assert i > 0 ==> items[1..][i - 1] == items[i];
    }
    if i :| 0 <= i < |items| - 1 && Accepts(items[1..][i], c) {
      assert items[i + 1] == items[1..][i];
    }
  }

  ghost predicate Contains(s: string, part: string) {
    exists i :: FoundAt(s, part, i)
  }

  lemma {:induction false} LiteralMatch(lit: string, rest: string, s: string)
    requires Literal(lit)
    ensures GlobMatch(lit + rest, s) <==> lit <= s && GlobMatch(rest, s[|lit|..])
  {
    if lit == "" {
      assert lit + rest == rest;
    } else {
      assert (lit + rest)[1..] == lit[1..] + rest && (lit + rest)[0] == lit[0];
      if s != "" && s[0] == lit[0] {
        LiteralMatch(lit[1..], rest, s[1..]);
        assert lit[1..] <= s[1..] <==> lit <= s;
        if lit <= s {
          assert s[1..][|lit[1..]|..] == s[|lit|..];
        }
      }
    }
  }

  lemma {:induction false} StarMatchesAll(s: string)
    ensures GlobMatch("*", s)
  {
    if s == "" {
      assert GlobMatch("*"[1..], s);
    } else {
      StarMatchesAll(s[1..]);
    }
  }

  ghost predicate FoundAt(s: string, part: string, i: int) {
    0 <= i <= |s| && part <= s[i..]
  }

  lemma ContainsTail(s: string, part: string)
    requires s != ""
    ensures Contains(s, part) <==> part <= s || Contains(s[1..], part)
  {
    if part <= s {
      assert FoundAt(s, part, 0);
    }
    if i :| FoundAt(s, part, i) {
      if i > 0 {
        assert s[1..][i - 1..] == s[i..];
        assert FoundAt(s[1..], part, i - 1);
      }
    }
    if j :| FoundAt(s[1..], part, j) {
      assert s[1..][j..] == s[j + 1..];
      assert FoundAt(s, part, j + 1);
    }
  }

  lemma {:induction false} StarFinds(part: string, s: string)
    requires Literal(part)
    ensures GlobMatch("*" + (part + "*"), s) <==> Contains(s, part)
  {
    var pattern := "*" + (part + "*");
    assert pattern[1..] == part + "*" && pattern[0] == '*';
    LiteralMatch(part, "*", s);
    if part <= s {
      StarMatchesAll(s[|part|..]);
    }
    if s == "" {
      assert part == "" ==> FoundAt(s, part, 0);
    } else {
      StarFinds(part, s[1..]);
      ContainsTail(s, part);
    }
  }

  /** A pattern of the cache matches what starts with its head and contains its tail further on. */
  lemma PatternMeaning(head: string, part: string, s: string)
    requires Literal(head) && Literal(part)
    ensures GlobMatch(head + ("*" + (part + "*")), s) <==> head <= s && Contains(s[|head|..], part)
  {
    LiteralMatch(head, "*" + (part + "*"), s);
    if head <= s {
      StarFinds(part, s[|head|..]);
    }
  }

  /** No class and no escape; the star and the question mark match themselves among others. */
  predicate NoClasses(s: string) { forall i :: 0 <= i < |s| ==> s[i] != '[' && s[i] != '\\' }

  /** Without classes and escapes a text is matched by itself read as a pattern. */
  lemma {:induction false} MatchesItself(p: string, rest: string)
    requires NoClasses(p)
    ensures GlobMatch(p + "*", p + rest)
  {
    if p == "" {
      assert p + "*" == "*" && p + rest == rest;
      StarMatchesAll(rest);
    } else {
      MatchesItself(p[1..], rest);
      assert (p + "*")[1..] == p[1..] + "*" && (p + rest)[1..] == p[1..] + rest;
      assert (p + "*")[0] == p[0] == (p + rest)[0];
    }
  }

  lemma {:induction false} StarSkips(pattern: string, before: string, s: string)
    requires GlobMatch("*" + pattern, s)
    ensures GlobMatch("*" + pattern, before + s)
  {
    if before == "" {
      assert before + s == s;
    } else {
      StarSkips(pattern, before[1..], s);
      assert (before + s)[1..] == before[1..] + s;
    }
  }

  /** What does not start with the first character of the pattern is of no use to it. */
  lemma {:induction false} StarSkipped(pattern: string, before: string, s: string)
    requires pattern != "" && Literal([pattern[0]]) && pattern[0] !in before
    requires GlobMatch("*" + pattern, before + s)
    ensures GlobMatch("*" + pattern, s)
  {
    if before == "" {
      assert before + s == s;
    } else {
      assert ("*" + pattern)[1..] == pattern && [pattern[0]][0] == pattern[0];
      assert (before + s)[1..] == before[1..] + s && (before + s)[0] == before[0];
      StarSkipped(pattern, before[1..], s);
    }
  }

  lemma {:induction false} StarNeverFinds(pattern: string, s: string)
    requires forall k :: 0 <= k <= |s| ==> !GlobMatch(pattern, s[k..])
    ensures !GlobMatch("*" + pattern, s)
  {
    assert ("*" + pattern)[1..] == pattern && s[0..] == s;
    if s == "" {
    } else {
      forall k | 0 <= k <= |s| - 1 ensures !GlobMatch(pattern, s[1..][k..]) {
        assert s[1..][k..] == s[k + 1..];
      }
      StarNeverFinds(pattern, s[1..]);
    }
  }

  // ---------------------------------------------------------------------------
  // Patterns that are texts themselves
  // ---------------------------------------------------------------------------

  /** The class, read from behind its bracket, is closed. */
  predicate ClosedClass(class_: string) {
    if class_ == "" then false
    else if class_[0] == '\\' && |class_| >= 2 then ClosedClass(class_[2..])
    else if class_[0] == ']' then true
    else if |class_| >= 3 && class_[1] == '-' then ClosedClass(class_[3..])
    else ClosedClass(class_[1..])
  }

  /** Every class is closed, and no escape is left open. */
  predicate Closed(p: string)
    decreases |p|
  {
    if p == "" then true
    else if p[0] == '[' then ClosedClass(ClassOf(p)) && Closed(ClassRest(ClassOf(p)))
    else if p[0] == '\\' then |p| >= 2 && Closed(p[2..])
    else Closed(p[1..])
  }

  /** A star behind a closed class is not part of it. */
  lemma {:induction false} ClosedThenStar(class_: string, c: char)
    requires ClosedClass(class_)
    ensures ClassHas(class_ + "*", c) == ClassHas(class_, c) && ClassRest(class_ + "*") == ClassRest(class_) + "*"
  {
    var all := class_ + "*";
    if class_[0] == '\\' && |class_| >= 2 {
      assert all[2..] == class_[2..] + "*";
      ClosedThenStar(class_[2..], c);
    } else if class_[0] == ']' {
      assert all[1..] == class_[1..] + "*";
    } else if |class_| >= 3 && class_[1] == '-' {
      assert all[3..] == class_[3..] + "*";
      ClosedThenStar(class_[3..], c);
    } else {
      assert all[1..] == class_[1..] + "*";
      ClosedThenStar(class_[1..], c);
    }
  }

  /** The pattern behind a closed class, with a star after it. */
  lemma BehindClass(p: string, c: char)
    requires p != "" && p[0] == '[' && ClosedClass(ClassOf(p))
    ensures Negated(p + "*") == Negated(p)
    ensures ClassHas(ClassOf(p + "*"), c) == ClassHas(ClassOf(p), c)
    ensures ClassRest(ClassOf(p + "*")) == ClassRest(ClassOf(p)) + "*"
  {
    assert |p| >= 2;
    assert ClassOf(p + "*") == ClassOf(p) + "*";
    ClosedThenStar(ClassOf(p), c);
  }

  /** What a closed pattern with a star behind it matches, it matches with anything after it. */
  lemma {:induction false} StarTakesRest(p: string, s: string, rest: string)
    requires Closed(p) && GlobMatch(p + "*", s)
    ensures GlobMatch(p + "*", s + rest)
    decreases |p| + |s|
  {
    var all := p + "*";
    if p == "" {
      StarMatchesAll(s + rest);
      assert all == "*";
    } else if p[0] == '*' && GlobMatch(all[1..], s) {
      assert all[1..] == p[1..] + "*";
      StarTakesRest(p[1..], s, rest);
    } else {
      assert (s + rest)[1..] == s[1..] + rest;
      if p[0] == '*' {
        StarTakesRest(p, s[1..], rest);
      } else if p[0] == '[' {
        BehindClass(p, s[0]);
        StarTakesRest(ClassRest(ClassOf(p)), s[1..], rest);
      } else if p[0] == '\\' {
        assert all[2..] == p[2..] + "*";
        StarTakesRest(p[2..], s[1..], rest);
      } else {
        assert all[1..] == p[1..] + "*";
        StarTakesRest(p[1..], s[1..], rest);
      }
    }
  }

  /** An open class swallows the star behind it. */
  lemma {:induction false} OpenThenStar(class_: string)
    requires !ClosedClass(class_)
    ensures ClassRest(class_ + "*") == ""
  {
    var all := class_ + "*";
    if class_ == "" {
      assert all[1..] == "";
    } else if class_[0] == '\\' && |class_| >= 2 {
      assert all[2..] == class_[2..] + "*";
      OpenThenStar(class_[2..]);
    } else if |class_| >= 3 && class_[1] == '-' {
      assert all[3..] == class_[3..] + "*";
      OpenThenStar(class_[3..]);
    } else if |all| >= 2 && all[0] == '\\' {
      assert all[2..] == "";
    } else if |all| >= 3 && all[1] == '-' {
      assert all[3..] == "";
    } else {
      assert all[1..] == class_[1..] + "*";
      OpenThenStar(class_[1..]);
    }
  }

  /** A pattern whose only star is swallowed by an open class or escape matches no text longer than itself. */
  lemma {:induction false} OpenIsShort(p: string, s: string)
    requires !Closed(p) && '*' !in p && GlobMatch(p + "*", s)
    ensures |s| <= |p|
    decreases |p|
  {
    var all := p + "*";
    if p[0] == '[' {
      if ClosedClass(ClassOf(p)) {
        BehindClass(p, s[0]);
        RestIsBehind(ClassOf(p));
        OpenIsShort(ClassRest(ClassOf(p)), s[1..]);
      } else {
        assert ClassOf(all) == ClassOf(p) + "*";
        OpenThenStar(ClassOf(p));
      }
    } else if p[0] == '\\' && |p| >= 2 {
      assert all[2..] == p[2..] + "*";
      OpenIsShort(p[2..], s[1..]);
    } else if p[0] == '\\' {
      assert all[2..] == "";
    } else {
      assert all[1..] == p[1..] + "*";
      OpenIsShort(p[1..], s[1..]);
    }
  }

  lemma {:induction false} RestIsBehind(class_: string)
    ensures forall c :: c in ClassRest(class_) ==> c in class_
  {
    if class_ == "" {
    } else if class_[0] == '\\' && |class_| >= 2 {
      RestIsBehind(class_[2..]);
    } else if class_[0] == ']' {
    } else if |class_| >= 3 && class_[1] == '-' {
      RestIsBehind(class_[3..]);
    } else {
      RestIsBehind(class_[1..]);
    }
  }

  /** The text, read as a pattern with stars around it, matches itself. */
  predicate FindsOwnText(p: string) { GlobMatch("*" + (p + "*"), p) }

  /** So it does with anything after it. */
  predicate CoversOwnText(p: string) { Closed(p) && FindsOwnText(p) }

  lemma CoversLongerTexts(p: string, rest: string)
    requires CoversOwnText(p)
    ensures GlobMatch("*" + (p + "*"), p + rest)
  {
    assert ("*" + p)[1..] == p && "*" + (p + "*") == ("*" + p) + "*";
    StarTakesRest("*" + p, p, rest);
  }

  lemma {:induction false} NoClassesAreClosed(p: string)
    requires NoClasses(p)
    ensures Closed(p)
  {
    if p == "" {
    } else {
      NoClassesAreClosed(p[1..]);
    }
  }

  /** Texts without classes and escapes are covered. */
  lemma NoClassesCover(p: string)
    requires NoClasses(p)
    ensures CoversOwnText(p)
  {
    NoClassesAreClosed(p);
    MatchesItself(p, "");
    assert p + "" == p && ("*" + (p + "*"))[1..] == p + "*";
  }

  // ---------------------------------------------------------------------------
  // Patterns whose classes stay within their segment
  // ---------------------------------------------------------------------------

  /** The class is closed and has no slash in it. */
  predicate SegmentClass(class_: string) {
    if class_ == "" then false
    else if class_[0] == '\\' && |class_| >= 2 then class_[1] != '/' && SegmentClass(class_[2..])
    else if class_[0] == ']' then true
    else if |class_| >= 3 && class_[1] == '-' then
      class_[0] != '/' && class_[2] != '/' && SegmentClass(class_[3..])
    else class_[0] != '/' && SegmentClass(class_[1..])
  }

  /** Every class is closed within its path segment, and no escape is left open. */
  predicate WellClosed(p: string)
    decreases |p|
  {
    if p == "" then true
    else if p[0] == '[' then SegmentClass(ClassOf(p)) && WellClosed(ClassRest(ClassOf(p)))
    else if p[0] == '\\' then |p| >= 2 && WellClosed(p[2..])
    else WellClosed(p[1..])
  }

  function Slashes(s: string): nat {
    if s == "" then 0 else (if s[0] == '/' then 1 else 0) + Slashes(s[1..])
  }

  /** The slashes of a pattern that starts with such a class are behind it. */
  lemma {:induction false} SegmentClassSlashes(class_: string)
    requires SegmentClass(class_)
    ensures ClosedClass(class_) && Slashes(ClassRest(class_)) == Slashes(class_)
  {
    if class_[0] == '\\' && |class_| >= 2 {
      assert class_[1..][1..] == class_[2..];
      SegmentClassSlashes(class_[2..]);
    } else if class_[0] == ']' {
    } else if |class_| >= 3 && class_[1] == '-' {
      assert class_[1..][1..] == class_[2..] && class_[2..][1..] == class_[3..];
      assert Slashes(class_) == Slashes(class_[1..]) == Slashes(class_[2..]) == Slashes(class_[3..]);
      SegmentClassSlashes(class_[3..]);
    } else {
      SegmentClassSlashes(class_[1..]);
    }
  }

  lemma SlashesBehindClass(p: string)
    requires p != "" && p[0] == '[' && SegmentClass(ClassOf(p))
    ensures ClosedClass(ClassOf(p)) && Slashes(ClassRest(ClassOf(p))) == Slashes(p)
  {
    SegmentClassSlashes(ClassOf(p));
    if Negated(p) {
      assert p[1..][1..] == p[2..];
    }
  }

  lemma {:induction false} WellClosedIsClosed(p: string)
    requires WellClosed(p)
    ensures Closed(p)
    decreases |p|
  {
    if p == "" {
    } else if p[0] == '[' {
      SlashesBehindClass(p);
      WellClosedIsClosed(ClassRest(ClassOf(p)));
    } else if p[0] == '\\' {
      WellClosedIsClosed(p[2..]);
    } else {
      WellClosedIsClosed(p[1..]);
    }
  }

  /** Each slash of a pattern takes a slash of the text it matches. */
  lemma {:induction false} NeedsSlashes(p: string, s: string)
    requires WellClosed(p) && GlobMatch(p + "*", s)
    ensures Slashes(s) >= Slashes(p)
    decreases |p| + |s|
  {
    var all := p + "*";
    if p == "" {
    } else if p[0] == '[' {
      SlashesBehindClass(p);
      BehindClass(p, s[0]);
      NeedsSlashes(ClassRest(ClassOf(p)), s[1..]);
    } else if p[0] == '\\' {
      assert all[2..] == p[2..] + "*" && p[1..][1..] == p[2..];
      NeedsSlashes(p[2..], s[1..]);
    } else {
      assert all[1..] == p[1..] + "*";
      if p[0] == '*' && !GlobMatch(all[1..], s) {
        NeedsSlashes(p, s[1..]);
      } else if p[0] == '*' {
        NeedsSlashes(p[1..], s);
      } else {
        NeedsSlashes(p[1..], s[1..]);
      }
    }
  }

  /** The text is matched by itself, read as a pattern with a star behind it. */
  predicate MatchesOwnText(p: string) { GlobMatch(p + "*", p) }

  /** Neither classes and escapes nor stars: every character takes exactly one. */
  predicate Stepwise(p: string) { NoClasses(p) && '*' !in p }

  /** A stepwise text at the front is matched by itself and by itself only, question marks apart. */
  lemma {:induction false} SameFront(front: string, p: string, s: string)
    requires Stepwise(front)
    ensures GlobMatch(front + p, front + s) <==> GlobMatch(p, s)
  {
    if front == "" {
      assert front + p == p && front + s == s;
    } else {
      SameFront(front[1..], p, s);
      assert (front + p)[1..] == front[1..] + p && (front + s)[1..] == front[1..] + s;
      assert (front + p)[0] == front[0] == (front + s)[0];
    }
  }

  /**
  The first class or escape of a text does not match the character it starts with: a class
  does not accept a bracket, and an escape is not that of a backslash.
  */
  predicate FirstMisses(p: string) {
    if p == "" then true
    else if p[0] == '[' then ClassHas(ClassOf(p), '[') == Negated(p)
    else if p[0] == '\\' then |p| < 2 || p[1] != '\\'
    else FirstMisses(p[1..])
  }

  /** The class, read from behind its bracket, is closed and only lists characters, none of them a bracket or slash. */
  predicate ListingClass(class_: string) {
    if class_ == "" then false
    else if class_[0] == ']' then true
    else class_[0] !in {'[', '-', '/', '\\'} && ListingClass(class_[1..])
  }

  /** No escapes, and only classes that list characters and are not negated. */
  predicate ListingClasses(p: string)
    decreases |p|
  {
    if p == "" then true
    else if p[0] == '[' then !Negated(p) && ListingClass(ClassOf(p)) && ListingClasses(ClassRest(ClassOf(p)))
    else p[0] != '\\' && ListingClasses(p[1..])
  }

  lemma {:induction false} ListingClassMisses(class_: string)
    requires ListingClass(class_)
    ensures SegmentClass(class_) && !ClassHas(class_, '[')
  {
    if class_[0] == ']' {
    } else {
      ListingClassMisses(class_[1..]);
    }
  }

  lemma {:induction false} ListingClassesMiss(p: string)
    requires ListingClasses(p)
    ensures WellClosed(p) && FirstMisses(p)
    decreases |p|
  {
    if p == "" {
    } else if p[0] == '[' {
      ListingClassMisses(ClassOf(p));
      ListingClassesMiss(ClassRest(ClassOf(p)));
    } else {
      ListingClassesMiss(p[1..]);
    }
  }

  /** Up to its first class or escape a starless text matches itself; there it depends on that. */
  lemma {:induction false} MatchesUpToFirst(p: string)
    requires WellClosed(p) && '*' !in p && FirstMisses(p)
    ensures MatchesOwnText(p) <==> NoClasses(p)
  {
    var all := p + "*";
    if p == "" {
      StarMatchesAll("");
      assert all == "*";
    } else if p[0] == '[' {
      SlashesBehindClass(p);
      BehindClass(p, p[0]);
    } else if p[0] == '\\' {
      assert all[1] == p[1];
    } else {
      assert all[1..] == p[1..] + "*";
      MatchesUpToFirst(p[1..]);
      assert NoClasses(p) <==> NoClasses(p[1..]) by {
        assert forall i :: 0 < i < |p| ==> p[i] == p[1..][i - 1];
      }
    }
  }

  // ---------------------------------------------------------------------------
  // The resource a path belongs to
  // ---------------------------------------------------------------------------

  function Split(s: string, sep: char): (parts: seq<string>)
    ensures |parts| >= 1
  {
    if s == "" then [""]
    else
      var rest := Split(s[1..], sep);
      if s[0] == sep then [""] + rest else [[s[0]] + rest[0]] + rest[1..]
  }

  function Join(parts: seq<string>, sep: char): string {
    if parts == [] then ""
    else if |parts| == 1 then parts[0]
    else parts[0] + [sep] + Join(parts[1..], sep)
  }

  lemma {:induction false} JoinSplit(s: string, sep: char)
    ensures Join(Split(s, sep), sep) == s
  {
    if s == "" {
    } else {
      JoinSplit(s[1..], sep);
      var rest := Split(s[1..], sep);
      if s[0] == sep {
        assert Split(s, sep)[1..] == rest;
      } else {
        assert Split(s, sep)[1..] == rest[1..];
      }
    }
  }

  lemma {:induction false} JoinPrefix(parts: seq<string>, k: nat, sep: char)
    requires k <= |parts|
    ensures Join(parts[..k], sep) <= Join(parts, sep)
  {
    if k > 1 {
      JoinPrefix(parts[1..], k - 1, sep);
      assert parts[..k][1..] == parts[1..][..k - 1];
    }
  }

  function WithoutSlash(path: string): string { if |path| > 0 && path[0] == '/' then path[1..] else path }

  /** The first three segments, or nothing when there are fewer. */
  function ResourcePrefix(path: string): Option<string> {
    var parts := Split(WithoutSlash(path), '/');
    if |parts| < 3 then None else Some("/" + Join(parts[..3], '/'))
  }

  lemma FirstSegments(path: string, k: nat)
    requires k <= |Split(path, '/')|
    ensures Join(Split(path, '/')[..k], '/') <= path
  {
    JoinSplit(path, '/');
    JoinPrefix(Split(path, '/'), k, '/');
  }

  /** The resource prefix of a rooted path is a prefix of it. */
  lemma ResourcePrefixIsPrefix(path: string)
    requires |path| > 0 && path[0] == '/' && ResourcePrefix(path).Some?
    ensures ResourcePrefix(path).value <= path
  {
    FirstSegments(path[1..], 3);
    assert path == "/" + path[1..];
  }

  // ---------------------------------------------------------------------------
  // Invalidation
  // ---------------------------------------------------------------------------

  /** What the keys an actor may invalidate start with. */
  function Scope(prefix: string, auth: Option<Auth>): string { prefix + TenantPart(auth) }

  function Pattern(prefix: string, auth: Option<Auth>, resource: string): string {
    Scope(prefix, auth) + ("*" + (resource + "*"))
  }

  lemma Regroup<T>(a: seq<T>, b: seq<T>, c: seq<T>, d: seq<T>)
    ensures a + ((b + c) + d) == (a + b) + (c + d)
    ensures (a + b) <= (a + b) + (c + d) && ((a + b) + (c + d))[|a + b|..] == c + d
  {
  }

  lemma KeyInOwnScope(prefix: string, cachePrivate: bool, auth: Option<Auth>, path: string, query: string)
    ensures Scope(prefix, auth) <= KeyOf(prefix, cachePrivate, auth, path, query)
    ensures KeyOf(prefix, cachePrivate, auth, path, query)[|Scope(prefix, auth)|..] ==
            UserPart(auth, cachePrivate) + Target(path, query)
  {
    Regroup(prefix, TenantPart(auth), UserPart(auth, cachePrivate), Target(path, query));
  }

  /** Both callers are of the same tenant, or neither is known. */
  predicate SameTenant(a: Option<Auth>, b: Option<Auth>) {
    match (a, b)
    case (Some(x), Some(y)) => x.tenant == y.tenant
    case (None, None) => true
    case _ => false
  }

  lemma TenantPartHasTenant(a: Auth)
    ensures TenantPart(Some(a))[2..2 + |a.tenant|] == a.tenant && |TenantPart(Some(a))| == |a.tenant| + 3
    ensures TenantPart(Some(a))[0] == 't'
  {
  }

  /** Two tenants whose parts both start a text are the same. */
  lemma TenantPartsAgree(a: Option<Auth>, b: Option<Auth>, text: string, n: nat)
    requires IdLength(a, n) && IdLength(b, n) && TenantPart(a) <= text && TenantPart(b) <= text
    ensures SameTenant(a, b)
  {
    assert TenantPart(a)[0] == text[0] == TenantPart(b)[0];
    if a.Some? {
      TenantPartHasTenant(a.value);
    }
    if b.Some? {
      TenantPartHasTenant(b.value);
    }
    if a.Some? && b.Some? {
      assert TenantPart(a) == text[..n + 3] == TenantPart(b);
    }
  }

  lemma ScopesAreDisjoint(
      prefix: string, cachePrivate: bool, actor: Option<Auth>, owner: Option<Auth>, path: string, query: string, n: nat)
    requires IdLength(actor, n) && IdLength(owner, n)
    requires Scope(prefix, actor) <= KeyOf(prefix, cachePrivate, owner, path, query)
    ensures SameTenant(actor, owner)
  {
    var key := KeyOf(prefix, cachePrivate, owner, path, query);
    KeyInOwnScope(prefix, cachePrivate, owner, path, query);
    BehindPrefix(prefix, TenantPart(actor), key);
    BehindPrefix(prefix, TenantPart(owner), key);
    TenantPartsAgree(actor, owner, key[|prefix|..], n);
  }

  lemma BehindPrefix(prefix: string, part: string, s: string)
    requires prefix + part <= s
    ensures |prefix| <= |s| && part <= s[|prefix|..]
  {
    assert s[|prefix|..][..|part|] == (prefix + part)[|prefix|..];
  }

  lemma CoveredBehind(before: string, resource: string, s: string)
    requires resource <= s && CoversOwnText(resource)
    ensures GlobMatch("*" + (resource + "*"), before + s)
  {
    CoversLongerTexts(resource, s[|resource|..]);
    assert resource + s[|resource|..] == s;
    StarSkips(resource + "*", before, s);
  }

  /**
  What a mutation invalidates among the keys the cache hands out: never one of another
  tenant, whatever is in its path; every one of its own tenant, or of the anonymous callers,
  that lies under the mutated resource, if that covers its own text, as it does without
  classes and escapes; and exactly those that mention the resource behind the scope, if it
  means nothing as a pattern.
  */
  lemma InvalidatedExactly(
      prefix: string, cachePrivate: bool, actor: Option<Auth>, resource: string,
      owner: Option<Auth>, path: string, query: string, n: nat)
    requires IdLength(actor, n) && IdLength(owner, n) && Literal(Scope(prefix, actor))
    ensures var key := KeyOf(prefix, cachePrivate, owner, path, query);
            var matched := GlobMatch(Pattern(prefix, actor, resource), key);
            && (matched ==> SameTenant(actor, owner))
            && (SameTenant(actor, owner) && resource <= path && CoversOwnText(resource) ==> matched)
            && (Literal(resource) ==>
                  (matched <==> SameTenant(actor, owner) && Contains(key[|Scope(prefix, owner)|..], resource)))
  {
    var key := KeyOf(prefix, cachePrivate, owner, path, query);
    LiteralMatch(Scope(prefix, actor), "*" + (resource + "*"), key);
    KeyInOwnScope(prefix, cachePrivate, owner, path, query);
    if Scope(prefix, actor) <= key {
      ScopesAreDisjoint(prefix, cachePrivate, actor, owner, path, query, n);
    }
    if SameTenant(actor, owner) && resource <= path && CoversOwnText(resource) {
      CoveredBehind(UserPart(owner, cachePrivate), resource, Target(path, query));
    }
    if Literal(resource) {
      PatternMeaning(Scope(prefix, actor), resource, key);
    }
  }

  /** A mutation invalidates whatever its own tenant has cached for the path it mutates. */
  lemma MutationInvalidatesItsPath(
      prefix: string, cachePrivate: bool, actor: Auth, user: string, path: string, query: string)
    requires |user| == |actor.user| == |actor.tenant|
    requires |path| > 0 && path[0] == '/' && ResourcePrefix(path).Some?
    requires Literal(Scope(prefix, Some(actor))) && CoversOwnText(ResourcePrefix(path).value)
    ensures GlobMatch(Pattern(prefix, Some(actor), ResourcePrefix(path).value),
                      KeyOf(prefix, cachePrivate, Some(Auth(actor.tenant, user)), path, query))
  {
    ResourcePrefixIsPrefix(path);
    InvalidatedExactly(prefix, cachePrivate, Some(actor), ResourcePrefix(path).value,
                       Some(Auth(actor.tenant, user)), path, query, |actor.user|);
  }

  /** The entries that a mutation of the path leaves. */
  function Survivors(prefix: string, actor: Option<Auth>, path: string, entries: map<string, string>)
    : map<string, string>
  {
    var resource := ResourcePrefix(path);
    if resource.None? then entries
    else map k | k in entries && !GlobMatch(Pattern(prefix, actor, resource.value), k) :: entries[k]
  }

  /** What a private key looks like, written out. */
  lemma PrivateKeyIs(prefix: string, tenant: string, user: string, path: string, query: string)
    requires query != ""
    ensures KeyOf(prefix, true, Some(Auth(tenant, user)), path, query) ==
            prefix + ("t:" + (tenant + (":u:" + (user + (":" + (path + ("?" + query)))))))
  {
    OwnerShape(Auth(tenant, user), path + ("?" + query));
  }

  /** A shared key, and one of a caller that nobody knows, here without a query. */
  lemma SharedKeyIs(prefix: string, tenant: string, user: string, path: string)
    ensures KeyOf(prefix, false, Some(Auth(tenant, user)), path, "") == prefix + ("t:" + tenant + ":" + path)
    ensures KeyOf(prefix, true, None, path, "") == KeyOf(prefix, false, None, path, "") == prefix + ("anon:" + path)
  {
    assert path + "" == path && "anon:" + "" == "anon:" && ("t:" + tenant + ":") + "" == "t:" + tenant + ":";
  }

  /** The pattern of a mutation by someone of a tenant, and by a caller that nobody knows. */
  lemma PatternIs(prefix: string, tenant: string, user: string, resource: string)
    ensures Pattern(prefix, Some(Auth(tenant, user)), resource) ==
            prefix + ("t:" + tenant + ":") + ("*" + (resource + "*"))
    ensures Pattern(prefix, None, resource) == prefix + "anon:" + ("*" + (resource + "*"))
  {
  }

  /** Every key of the actor's tenant whose path lies under the resource is matched, whoever it belongs to. */
  ghost predicate InvalidatesOwn(
      prefix: string, cachePrivate: bool, actor: Option<Auth>, resource: string, n: nat)
  {
    forall owner, path, query ::
      IdLength(owner, n) && SameTenant(actor, owner) && resource <= path ==>
        GlobMatch(Pattern(prefix, actor, resource), KeyOf(prefix, cachePrivate, owner, path, query))
  }

  lemma SuffixSlashes(s: string, k: nat)
    requires s != "" && s[0] == '/' && 0 < k <= |s|
    ensures Slashes(s[k..]) < Slashes(s)
  {
    FewerSlashes(s[1..], k - 1);
    assert s[1..][k - 1..] == s[k..];
  }

  lemma {:induction false} FewerSlashes(s: string, k: nat)
    requires k <= |s|
    ensures Slashes(s[k..]) <= Slashes(s)
  {
    if k == 0 {
      assert s[k..] == s;
    } else {
      FewerSlashes(s[1..], k - 1);
      assert s[1..][k - 1..] == s[k..];
    }
  }

  lemma OutOfPlace(resource: string, k: nat)
    requires resource != "" && resource[0] == '/' && WellClosed(resource)
    requires k <= |resource| && !MatchesOwnText(resource)
    ensures !GlobMatch(resource + "*", resource[k..])
  {
    if k == 0 {
      assert resource[k..] == resource;
    } else {
      SuffixSlashes(resource, k);
      if GlobMatch(resource + "*", resource[k..]) {
        NeedsSlashes(resource, resource[k..]);
      }
    }
  }

  /** A rooted resource whose classes have no slashes in them can only be found where it is. */
  lemma FoundInPlace(resource: string)
    requires resource != "" && resource[0] == '/' && WellClosed(resource)
    ensures CoversOwnText(resource) <==> MatchesOwnText(resource)
  {
    WellClosedIsClosed(resource);
    if MatchesOwnText(resource) {
      assert ("*" + (resource + "*"))[1..] == resource + "*";
    } else {
      forall k | 0 <= k <= |resource| ensures !GlobMatch(resource + "*", resource[k..]) {
        OutOfPlace(resource, k);
      }
      StarNeverFinds(resource + "*", resource);
    }
  }

  /** An open resource without stars is not found in a text that ends in enough of something else. */
  lemma OpenIsLost(before: string, resource: string, rest: string)
    requires resource != "" && resource[0] == '/' && !Closed(resource) && '*' !in resource
    requires |rest| > |resource| && '/' !in rest
    ensures !GlobMatch("*" + (resource + "*"), before + rest)
  {
    var s := before + rest;
    forall k | 0 <= k <= |s| ensures !GlobMatch(resource + "*", s[k..]) {
      if GlobMatch(resource + "*", s[k..]) {
        OpenIsShort(resource, s[k..]);
      }
    }
    StarNeverFinds(resource + "*", s);
  }

  /** A user identifier of any length without a slash in it. */
  lemma PlainUser(actor: Option<Auth>, cachePrivate: bool, n: nat) returns (owner: Option<Auth>)
    requires IdLength(actor, n)
    ensures IdLength(owner, n) && SameTenant(actor, owner) && '/' !in UserPart(owner, cachePrivate)
  {
    if actor.None? {
      owner := None;
    } else {
      var user := seq(n, _ => '0');
      owner := Some(Auth(actor.value.tenant, user));
    }
  }

  lemma PatternBehindScope(
      prefix: string, cachePrivate: bool, actor: Option<Auth>, resource: string,
      owner: Option<Auth>, path: string, query: string)
    requires Literal(Scope(prefix, actor)) && SameTenant(actor, owner)
    ensures GlobMatch(Pattern(prefix, actor, resource), KeyOf(prefix, cachePrivate, owner, path, query)) <==>
              GlobMatch("*" + (resource + "*"), UserPart(owner, cachePrivate) + Target(path, query))
  {
    LiteralMatch(Scope(prefix, actor), "*" + (resource + "*"), KeyOf(prefix, cachePrivate, owner, path, query));
    KeyInOwnScope(prefix, cachePrivate, owner, path, query);
    assert Scope(prefix, actor) == Scope(prefix, owner);
  }

  /** Some key under a resource that does not cover its own text is missed: that of its path, or of a longer one. */
  lemma SomeKeyIsMissed(
      prefix: string, cachePrivate: bool, actor: Option<Auth>, resource: string, n: nat)
    requires IdLength(actor, n) && Literal(Scope(prefix, actor))
    requires resource != "" && resource[0] == '/' && (Closed(resource) || '*' !in resource)
    requires !CoversOwnText(resource)
    ensures !InvalidatesOwn(prefix, cachePrivate, actor, resource, n)
  {
    var owner := PlainUser(actor, cachePrivate, n);
    var before := UserPart(owner, cachePrivate);
    var rest := if Closed(resource) then "" else seq(|resource| + 1, _ => '0');
    var path := resource + rest;
    PatternBehindScope(prefix, cachePrivate, actor, resource, owner, path, "");
    assert Target(path, "") == path;
    if Closed(resource) {
      assert path == resource && (resource + "*")[0] == '/' && Literal(['/']);
      if GlobMatch("*" + (resource + "*"), before + resource) {
        StarSkipped(resource + "*", before, resource);
      }
    } else {
      OpenIsLost(before + resource, resource, rest);
      assert before + path == (before + resource) + rest;
    }
    assert IdLength(owner, n) && SameTenant(actor, owner) && resource <= path;
  }

  /**
  Exactly when a mutation invalidates all that its tenant has cached under the mutated
  resource: when its classes are closed and, read as a pattern, it is found in its own text.
  It does not matter who asks, whose keys there are, and what follows the resource in them.
  */
  lemma OwnKeysExactly(prefix: string, cachePrivate: bool, actor: Option<Auth>, resource: string, n: nat)
    requires IdLength(actor, n) && Literal(Scope(prefix, actor))
    requires resource != "" && resource[0] == '/' && (Closed(resource) || '*' !in resource)
    ensures InvalidatesOwn(prefix, cachePrivate, actor, resource, n) <==> CoversOwnText(resource)
  {
    if CoversOwnText(resource) {
      forall owner, path, query | IdLength(owner, n) && SameTenant(actor, owner) && resource <= path
        ensures GlobMatch(Pattern(prefix, actor, resource), KeyOf(prefix, cachePrivate, owner, path, query))
      {
        PatternBehindScope(prefix, cachePrivate, actor, resource, owner, path, query);
        CoveredBehind(UserPart(owner, cachePrivate), resource, Target(path, query));
      }
    } else {
      SomeKeyIsMissed(prefix, cachePrivate, actor, resource, n);
    }
  }

  /** With classes that stay within their segment, it is found there exactly when it matches from its start. */
  lemma OwnKeysInPlace(prefix: string, cachePrivate: bool, actor: Option<Auth>, resource: string, n: nat)
    requires IdLength(actor, n) && Literal(Scope(prefix, actor))
    requires resource != "" && resource[0] == '/' && WellClosed(resource)
    ensures InvalidatesOwn(prefix, cachePrivate, actor, resource, n) <==> MatchesOwnText(resource)
  {
    WellClosedIsClosed(resource);
    FoundInPlace(resource);
    OwnKeysExactly(prefix, cachePrivate, actor, resource, n);
  }

  /**
  For a resource without stars whose first class, if any, does not accept a bracket, and whose
  first escape is not of a backslash, that is when it has no class or escape at all.
  */
  lemma OwnKeysWithoutClasses(prefix: string, cachePrivate: bool, actor: Option<Auth>, resource: string, n: nat)
    requires IdLength(actor, n) && Literal(Scope(prefix, actor))
    requires resource != "" && resource[0] == '/' && WellClosed(resource) && '*' !in resource && FirstMisses(resource)
    ensures InvalidatesOwn(prefix, cachePrivate, actor, resource, n) <==> NoClasses(resource)
  {
    OwnKeysInPlace(prefix, cachePrivate, actor, resource, n);
    MatchesUpToFirst(resource);
  }

  /** So it is when all classes of the resource just list characters. */
  lemma OwnKeysWithListingClasses(
      prefix: string, cachePrivate: bool, actor: Option<Auth>, resource: string, n: nat)
    requires IdLength(actor, n) && Literal(Scope(prefix, actor))
    requires resource != "" && resource[0] == '/' && '*' !in resource && ListingClasses(resource)
    ensures InvalidatesOwn(prefix, cachePrivate, actor, resource, n) <==> NoClasses(resource)
  {
    ListingClassesMiss(resource);
    OwnKeysWithoutClasses(prefix, cachePrivate, actor, resource, n);
  }

  lemma {:induction false} SplitAtFirst(a: string, b: string, sep: char)
    requires sep !in a
    ensures Split(a, sep) == [a]
    ensures Split(a + ([sep] + b), sep) == [a] + Split(b, sep)
  {
    var s := a + ([sep] + b);
    if a == "" {
      assert s == [sep] + b && s[1..] == b;
    } else {
      SplitAtFirst(a[1..], b, sep);
      assert s[1..] == a[1..] + ([sep] + b);
      assert [a[0]] + a[1..] == a;
    }
  }

  /** A path of three segments. */
  function ThreeSegments(x: string, y: string, z: string): string { "/" + (x + ("/" + (y + ("/" + z)))) }

  /** It is its own resource prefix. */
  lemma ThreeSegmentsArePrefix(x: string, y: string, z: string)
    requires '/' !in x && '/' !in y && '/' !in z
    ensures ResourcePrefix(ThreeSegments(x, y, z)) == Some(ThreeSegments(x, y, z))
  {
    SplitAtFirst(x, y + ("/" + z), '/');
    SplitAtFirst(y, z, '/');
    SplitAtFirst(z, "", '/');
    var inner := x + ("/" + (y + ("/" + z)));
    assert WithoutSlash(ThreeSegments(x, y, z)) == inner;
    assert |Split(inner, '/')| == 3;
    JoinSplit(inner, '/');
    assert Split(inner, '/')[..3] == Split(inner, '/');
  }

  lemma JoinThree(x: string, y: string, z: string)
    ensures "/" + Join([x, y, z], '/') == ThreeSegments(x, y, z)
  {
    assert [x, y, z][1..] == [y, z] && [y, z][1..] == [z] && [z][1..] == [];
    assert Join([z], '/') == z;
    assert Join([y, z], '/') == y + (['/'] + z);
  }

  lemma SplitDeeper(x: string, y: string, z: string, rest: string)
    requires '/' !in x && '/' !in y && '/' !in z
    ensures Split(x + ("/" + (y + ("/" + (z + ("/" + rest))))), '/') == [x, y, z] + Split(rest, '/')
  {
    SplitAtFirst(z, rest, '/');
    SplitAtFirst(y, z + ("/" + rest), '/');
    SplitAtFirst(x, y + ("/" + (z + ("/" + rest))), '/');
  }

  /** So it is for every path below it: whatever follows the third segment is left off. */
  lemma DeeperPathsHavePrefix(x: string, y: string, z: string, rest: string)
    requires '/' !in x && '/' !in y && '/' !in z
    ensures ResourcePrefix(ThreeSegments(x, y, z) + ("/" + rest)) == Some(ThreeSegments(x, y, z))
  {
    var inner := x + ("/" + (y + ("/" + (z + ("/" + rest)))));
    var path := ThreeSegments(x, y, z) + ("/" + rest);
    SplitDeeper(x, y, z, rest);
    JoinThree(x, y, z);
    assert path == "/" + inner && WithoutSlash(path) == inner;
    assert Split(inner, '/')[..3] == [x, y, z];
  }

  /** A path of one or two segments has none. */
  lemma ShortPathsHaveNoPrefix(x: string, y: string)
    requires '/' !in x && '/' !in y
    ensures ResourcePrefix("/" + x).None? && ResourcePrefix("/" + (x + ("/" + y))).None?
  {
    SplitAtFirst(x, y, '/');
    SplitAtFirst(y, "", '/');
    assert WithoutSlash("/" + x) == x && WithoutSlash("/" + (x + ("/" + y))) == x + ("/" + y);
  }

  /** The path is that of the resource or lies below it. */
  predicate Under(resource: string, path: string) { path == resource || resource + "/" <= path }

  /**
  What a mutation leaves of the resource it touches: nothing. After a mutation of any path with
  these three segments no entry is left for the path of the three or one below, whoever of the
  tenant it belongs to and whatever its query, if the resource covers its own text.
  */
  lemma MutationClearsItsResource(
      prefix: string, cachePrivate: bool, actor: Option<Auth>, x: string, y: string, z: string,
      mutated: string, entries: map<string, string>, owner: Option<Auth>, path: string, query: string, n: nat)
    requires IdLength(actor, n) && IdLength(owner, n) && SameTenant(actor, owner) && Literal(Scope(prefix, actor))
    requires '/' !in x && '/' !in y && '/' !in z && CoversOwnText(ThreeSegments(x, y, z))
    requires Under(ThreeSegments(x, y, z), mutated) && Under(ThreeSegments(x, y, z), path)
    ensures KeyOf(prefix, cachePrivate, owner, path, query) !in Survivors(prefix, actor, mutated, entries)
  {
    var resource := ThreeSegments(x, y, z);
    if mutated == resource {
      ThreeSegmentsArePrefix(x, y, z);
    } else {
      var rest := mutated[|resource| + 1..];
      assert mutated == resource + ("/" + rest);
      DeeperPathsHavePrefix(x, y, z, rest);
    }
    InvalidatedExactly(prefix, cachePrivate, actor, resource, owner, path, query, n);
  }

  lemma {:induction false} SlashesConcat(a: string, b: string)
    ensures Slashes(a + b) == Slashes(a) + Slashes(b)
    ensures '/' !in a ==> Slashes(a) == 0
  {
    if a == "" {
      assert a + b == b;
    } else {
      SlashesConcat(a[1..], b);
      assert (a + b)[1..] == a[1..] + b;
    }
  }

  lemma SlashesOfSegments(x: string, y: string, z: string)
    requires '/' !in x && '/' !in y && '/' !in z
    ensures Slashes(ThreeSegments(x, y, z)) == 3
  {
    SlashesConcat(z, "");
    assert z + "" == z;
    SlashesConcat("/", z);
    SlashesConcat(y, "/" + z);
    SlashesConcat("/", y + ("/" + z));
    SlashesConcat(x, "/" + (y + ("/" + z)));
    SlashesConcat("/", x + ("/" + (y + ("/" + z))));
    assert "/"[1..] == "";
  }

  /** Three segments, between texts without slashes, are found only where the third is continued. */
  lemma FoundAsSibling(before: string, x: string, y: string, z: string, w: string, rest: string)
    requires '/' !in before && '/' !in x && '/' !in y && '/' !in z && '/' !in w && '/' !in rest
    ensures Contains(before + (ThreeSegments(x, y, w) + rest), ThreeSegments(x, y, z)) <==> z <= w + rest
  {
    var part, sibling := ThreeSegments(x, y, z), ThreeSegments(x, y, w + rest);
    var s := before + sibling;
    assert ThreeSegments(x, y, w) + rest == sibling;
    var front := "/" + (x + ("/" + (y + "/")));
    assert part == front + z && sibling == front + (w + rest);
    if z <= w + rest {
      assert s[|before|..] == sibling && part <= sibling;
      assert FoundAt(s, part, |before|);
    }
    if i :| FoundAt(s, part, i) {
      FoundInPlaceOnly(before, sibling, part, i, x, y, z, w + rest);
      assert part <= sibling;
      assert sibling[|front|..] == w + rest && part[|front|..] == z;
    }
  }

  lemma FoundInPlaceOnly(
      before: string, sibling: string, part: string, i: nat, x: string, y: string, z: string, w: string)
    requires '/' !in before && '/' !in x && '/' !in y && '/' !in z && '/' !in w
    requires sibling == ThreeSegments(x, y, w) && part == ThreeSegments(x, y, z)
    requires FoundAt(before + sibling, part, i)
    ensures part <= sibling
  {
    var s := before + sibling;
    SlashesOfSegments(x, y, w);
    SlashesOfSegments(x, y, z);
    assert s[i..] == part + s[i..][|part|..];
    SlashesConcat(part, s[i..][|part|..]);
    FewerSlashesLater(before, sibling, i);
    assert s[i..][0] == part[0] == '/';
    assert i == |before| && s[i..] == sibling;
  }

  lemma FewerSlashesLater(before: string, s: string, i: nat)
    requires s != "" && s[0] == '/' && i <= |before + s|
    ensures i > |before| ==> Slashes((before + s)[i..]) < Slashes(s)
  {
    if i > |before| {
      SuffixSlashes(s, i - |before|);
      assert (before + s)[i..] == s[i - |before|..];
    }
  }

  /** What is plain is not continued into a query. */
  lemma PlainContinues(z: string, w: string, asked: string, resource: string)
    requires Literal(resource) && |z| <= |resource| && resource[|resource| - |z|..] == z
    requires asked == "" || asked[0] == '?'
    ensures z <= w + asked <==> z <= w
  {
    forall i | 0 <= i < |z| ensures z[i] != '?' {
      assert z[i] == resource[|resource| - |z| + i];
    }
    assert asked != "" ==> (w + asked)[|w|] == '?';
  }

  lemma SiblingIsFound(before: string, x: string, y: string, z: string, w: string, query: string)
    requires '/' !in before && '/' !in x && '/' !in y && '/' !in z && '/' !in w && '/' !in query
    requires Literal(ThreeSegments(x, y, z))
    ensures Contains(before + Target(ThreeSegments(x, y, w), query), ThreeSegments(x, y, z)) <==> z <= w
  {
    var asked := if |query| > 0 then "?" + query else "";
    FoundAsSibling(before, x, y, z, w, asked);
    PlainContinues(z, w, asked, ThreeSegments(x, y, z));
  }

  /**
  And what it leaves of other resources: an entry under two shared segments, from an owner and
  with a query without slashes, stays exactly when its third segment does not continue that of
  the mutated one, if that means nothing as a pattern.
  */
  lemma SiblingsStayExactly(
      prefix: string, cachePrivate: bool, actor: Option<Auth>, x: string, y: string, z: string, rest: string,
      entries: map<string, string>, owner: Option<Auth>, w: string, query: string, n: nat)
    requires IdLength(actor, n) && IdLength(owner, n) && SameTenant(actor, owner) && Literal(Scope(prefix, actor))
    requires Literal(ThreeSegments(x, y, z)) && '/' !in x && '/' !in y && '/' !in z
    requires '/' !in UserPart(owner, cachePrivate) && '/' !in w && '/' !in query
    requires KeyOf(prefix, cachePrivate, owner, ThreeSegments(x, y, w), query) in entries
    ensures var key := KeyOf(prefix, cachePrivate, owner, ThreeSegments(x, y, w), query);
            key in Survivors(prefix, actor, ThreeSegments(x, y, z) + ("/" + rest), entries) <==> !(z <= w)
  {
    var resource, path := ThreeSegments(x, y, z), ThreeSegments(x, y, w);
    DeeperPathsHavePrefix(x, y, z, rest);
    InvalidatedExactly(prefix, cachePrivate, actor, resource, owner, path, query, n);
    KeyInOwnScope(prefix, cachePrivate, owner, path, query);
    SiblingIsFound(UserPart(owner, cachePrivate), x, y, z, w, query);
  }

  /** Two plain segments and a class behind them; what the class does decides. */
  lemma ClassBehindSegments(x: string, y: string, z: string)
    requires Literal(x) && Literal(y) && '/' !in x && '/' !in y
    requires z != "" && z[0] == '[' && SegmentClass(ClassOf(z)) && ClassRest(ClassOf(z)) == ""
    ensures WellClosed(ThreeSegments(x, y, z))
    ensures MatchesOwnText(ThreeSegments(x, y, z)) <==> ClassHas(ClassOf(z), '[') != Negated(z)
  {
    var front := "/" + (x + ("/" + (y + "/")));
    assert ThreeSegments(x, y, z) == front + z;
    FrontIsClosed(front, z);
    SameFront(front, z + "*", z);
    SlashesBehindClass(z);
    assert front + (z + "*") == (front + z) + "*";
    BehindClass(z, '[');
    StarMatchesAll(z[1..]);
    assert "" + "*" == "*";
  }

  lemma {:induction false} FrontIsClosed(front: string, p: string)
    requires NoClasses(front) && WellClosed(p)
    ensures WellClosed(front + p)
  {
    if front == "" {
      assert front + p == p;
    } else {
      assert (front + p)[1..] == front[1..] + p && (front + p)[0] == front[0];
      FrontIsClosed(front[1..], p);
    }
  }

  /**
  A bracketed character in the mutated path is a class of that character, and some key of the
  actor's own tenant under the path is missed: that of the path itself.
  */
  lemma BracketsMissTheirPath(
      prefix: string, cachePrivate: bool, actor: Option<Auth>, x: string, y: string, c: char, n: nat)
    requires IdLength(actor, n) && Literal(Scope(prefix, actor))
    requires Literal(x) && Literal(y) && '/' !in x && '/' !in y
    requires Literal([c]) && c != ']' && c != '^' && c != '/'
    ensures var path := ThreeSegments(x, y, ['[', c, ']']);
            ResourcePrefix(path) == Some(path) && !InvalidatesOwn(prefix, cachePrivate, actor, path, n)
  {
    var z := ['[', c, ']'];
    assert ClassOf(z) == [c, ']'] && [c, ']'][1..] == [']'] && [']'][1..] == "";
    ClassBehindSegments(x, y, z);
    ThreeSegmentsArePrefix(x, y, z);
    OwnKeysInPlace(prefix, cachePrivate, actor, ThreeSegments(x, y, z), n);
  }

  /** A class of a bracket, or of everything but some other character, accepts the bracket it starts with. */
  lemma BracketsThatMatchThemselves(
      prefix: string, cachePrivate: bool, actor: Option<Auth>, x: string, y: string, c: char, n: nat)
    requires IdLength(actor, n) && Literal(Scope(prefix, actor))
    requires Literal(x) && Literal(y) && '/' !in x && '/' !in y
    requires Literal([c]) && c != ']' && c != '/'
    ensures var path := ThreeSegments(x, y, "[[]");
            ResourcePrefix(path) == Some(path) && InvalidatesOwn(prefix, cachePrivate, actor, path, n)
    ensures var path := ThreeSegments(x, y, ['[', '^', c, ']']);
            ResourcePrefix(path) == Some(path) && InvalidatesOwn(prefix, cachePrivate, actor, path, n)
  {
    var z := "[[]";
    assert ClassOf(z) == ['[', ']'] && ['[', ']'][1..] == [']'] && [']'][1..] == "";
    ClassBehindSegments(x, y, z);
    ThreeSegmentsArePrefix(x, y, z);
    OwnKeysInPlace(prefix, cachePrivate, actor, ThreeSegments(x, y, z), n);
    var w := ['[', '^', c, ']'];
    assert ClassOf(w) == [c, ']'] && [c, ']'][1..] == [']'];
    ClassBehindSegments(x, y, w);
    ThreeSegmentsArePrefix(x, y, w);
    OwnKeysInPlace(prefix, cachePrivate, actor, ThreeSegments(x, y, w), n);
  }

  class Cache {
    const prefix: string
    var entries: map<string, string>

    constructor (prefix: string)
      ensures entries == map[] && this.prefix == prefix
    {
      this.prefix := prefix;
      entries := map[];
    }

    /** Scans for the keys that match, then deletes them. */
    method InvalidateRelatedCache(auth: Option<Auth>, path: string)
      modifies this`entries
      ensures entries == Survivors(prefix, auth, path, old(entries))
    {
      var parts := Split(WithoutSlash(path), '/');
      if |parts| < 3 {
        return;
      }
      var resource := "/" + Join(parts[..3], '/');
      var pattern := Pattern(prefix, auth, resource);
      var keysToDelete: set<string> := {};
      var toScan := entries.Keys;
      while toScan != {}
        invariant toScan <= entries.Keys
        invariant forall k :: k in keysToDelete <==> k in entries && k !in toScan && GlobMatch(pattern, k)
        decreases toScan
      {
        var k :| k in toScan;
        toScan := toScan - {k};
        if GlobMatch(pattern, k) {
          keysToDelete := keysToDelete + {k};
        }
      }
      entries := entries - keysToDelete;
    }
  }
}
