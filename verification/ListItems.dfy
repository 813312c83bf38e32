/** ListItems: keyset pages over a fixed table, newest first. The token is the first row not returned, and the
    next page starts strictly after it. */
module ListItems {
  import opened Base
  import opened Decimal
  import opened Arithmetic
  import opened TextOrder

  const DEFAULT_LIMIT := 50
  const MAX_LIMIT := 500
  const MAX_INT64: int := 0x7FFF_FFFF_FFFF_FFFF
  const MIN_INT64: int := -0x8000_0000_0000_0000

  datatype Key = Key(updatedAt: Time, id: Id)

  datatype Page = Page(rows: seq<Key>, next: string)

  // ---------------------------------------------------------------- order

  /** (updated_at, item_id) < (updated_at, item_id). */
  predicate Less(a: Key, b: Key) {
    a.updatedAt < b.updatedAt || (a.updatedAt == b.updatedAt && TextLess(a.id, b.id))
  }

  /** The rows of the query before its keyset condition, in its order: strictly decreasing. */
  ghost predicate Ordered(rows: seq<Key>) {
    forall i, j | 0 <= i < j < |rows| :: Less(rows[j], rows[i])
  }

  lemma Asymmetric(a: Key, b: Key)
    requires Less(a, b)
    ensures !Less(b, a)
  {
    if a.updatedAt == b.updatedAt { TextAsymmetric(a.id, b.id); }
  }

  // ---------------------------------------------------------------- tokens

  function FormatInt(n: int): string {
    if n < 0 then "-" + Format(-n) else Format(n)
  }

  /** strconv.ParseInt(s, 10, 64). */
  function ParseInt(s: string): Option<int> {
    var negative := s != "" && s[0] == '-';
    var digits := if s != "" && (s[0] == '-' || s[0] == '+') then s[1..] else s;
    match Parse(digits)
    case None => None
    case Some(v) =>
      var n: int := v;
      if negative then if -n < MIN_INT64 then None else Some(-n)
      else if n > MAX_INT64 then None else Some(n)
  }

  function Token(k: Key): string {
    FormatInt(k.updatedAt) + ":" + k.id
  }

  /** The position of the first colon, or |s|. */
  function Colon(s: string): (p: nat)
    ensures p <= |s| && (p < |s| ==> s[p] == ':') && forall i | 0 <= i < p :: s[i] != ':'
    decreases |s|
  {
    if s == "" || s[0] == ':' then 0 else 1 + Colon(s[1..])
  }

  function ParseToken(s: string): Option<Key> {
    var p := Colon(s);
    if p == |s| then None
    else match ParseInt(s[..p])
      case None => None
      case Some(n) => Some(Key(n, s[p + 1..]))
  }

  lemma ParseFormatInt(n: int)
    requires MIN_INT64 <= n <= MAX_INT64
    ensures ParseInt(FormatInt(n)) == Some(n)
    ensures forall i | 0 <= i < |FormatInt(n)| :: FormatInt(n)[i] != ':'
  {
    if n < 0 {
      ParseFormat(-n);
      assert ("-" + Format(-n))[1..] == Format(-n);
    } else {
      ParseFormat(n);
      assert IsDigit(Format(n)[0]);
    }
  }

  lemma ParseUnsigned(n: nat)
    ensures Parse(Format(n)) == if n <= MAX_UINT64 then Some(n) else None
  {
    if n <= MAX_UINT64 { ParseFormat(n); } else { ParseRefuses("", n); }
  }

  /** Texts of 64-bit numbers, with or without a plus sign, are read as those numbers and larger ones are refused. */
  lemma ParseSigned(n: nat)
    ensures ParseInt(Format(n)) == if n <= MAX_INT64 then Some(n) else None
    ensures ParseInt("+" + Format(n)) == if n <= MAX_INT64 then Some(n) else None
    ensures ParseInt("-" + Format(n)) == if 0 - n >= MIN_INT64 then Some(0 - n) else None
  {
    ParseUnsigned(n);
    assert IsDigit(Format(n)[0]);
    assert ("-" + Format(n))[1..] == Format(n);
    assert ("+" + Format(n))[1..] == Format(n);
    hide Format, Parse;
  }

  /** What is read is digits after an optional sign. */
  lemma SignedDigits(s: string)
    requires ParseInt(s).Some?
    ensures s != "" && (IsDigit(s[0]) || (s[0] in "+-" && |s| > 1)) && forall i | 1 <= i < |s| :: IsDigit(s[i])
  {
    if s != "" && (s[0] == '-' || s[0] == '+') {
      ParseRefuses(s[1..], 0);
      forall i | 1 <= i < |s| ensures IsDigit(s[i]) { assert s[1..][i - 1] == s[i]; }
    } else {
      ParseRefuses(s, 0);
    }
  }

  /** A token names its row, whatever characters the id holds. */
  lemma TokenRoundTrip(k: Key)
    requires MIN_INT64 <= k.updatedAt <= MAX_INT64
    ensures ParseToken(Token(k)) == Some(k) && Token(k) != ""
  {
    var s, n := Token(k), FormatInt(k.updatedAt);
    ParseFormatInt(k.updatedAt);
    assert s[|n|] == ':' && forall i | 0 <= i < |n| :: s[i] == n[i];
    assert Colon(s) == |n|;
    assert s[..|n|] == n && s[|n| + 1..] == k.id;
  }

  // ---------------------------------------------------------------- pages

  function Limit(n: int): (l: nat)
    ensures 1 <= l <= MAX_LIMIT && (1 <= n <= MAX_LIMIT ==> l == n)
    ensures (n <= 0 ==> l == DEFAULT_LIMIT) && (n > MAX_LIMIT ==> l == MAX_LIMIT)
  {
    if n <= 0 then DEFAULT_LIMIT else if n > MAX_LIMIT then MAX_LIMIT else n
  }

  /** The rows strictly below a key. */
  function Below(rows: seq<Key>, k: Key): seq<Key>
    decreases |rows|
  {
    if rows == [] then [] else (if Less(rows[0], k) then [rows[0]] else []) + Below(rows[1..], k)
  }

  function Matching(rows: seq<Key>, key: Option<Key>): seq<Key> {
    if key.None? then rows else Below(rows, key.value)
  }

  /** The rows a token asks for. */
  function Asked(rows: seq<Key>, token: string): Option<seq<Key>> {
    if token == "" then Some(rows)
    else match ParseToken(token)
      case None => None
      case Some(k) => Some(Matching(rows, Some(k)))
  }

  lemma MatchingStep(rows: seq<Key>, key: Option<Key>)
    requires rows != []
    ensures Matching(rows, key) == (if key.None? || Less(rows[0], key.value) then [rows[0]]
                                    else []) + Matching(rows[1..], key)
  {
  }

  lemma MatchingNone(key: Option<Key>)
    ensures Matching([], key) == []
  {
  }

  function PageOf(rest: seq<Key>, limit: nat): Page {
    if |rest| > limit then Page(rest[..limit], Token(rest[limit])) else Page(rest, "")
  }

  /** The first `n` rows, or all of them. */
  ghost predicate IsPrefix(items: seq<Key>, all: seq<Key>, n: nat) {
    items == if |all| <= n then all else all[..n]
  }

  lemma PrefixByParts(items: seq<Key>, left: seq<Key>, n: nat)
    requires |items| <= n && (left == [] || |items| == n)
    ensures IsPrefix(items, items + left, n)
  {
  }

  lemma SkipRow(items: seq<Key>, row: Key, left: seq<Key>)
    ensures items + ([] + left) == items + left && items + ([row] + left) == items + [row] + left
  {
  }

  /** The query and its scan loop: at most `fetch` of the matching rows. */
  method Scan(rows: seq<Key>, key: Option<Key>, fetch: nat) returns (items: seq<Key>)
    ensures IsPrefix(items, Matching(rows, key), fetch)
  {
    items := [];
    var cursor := rows;
    hide Less, Matching, IsPrefix;
    while cursor != [] && |items| < fetch
      invariant |items| <= fetch && Matching(rows, key) == items + Matching(cursor, key)
      decreases |cursor|
    {
      MatchingStep(cursor, key);
      SkipRow(items, cursor[0], Matching(cursor[1..], key));
      if key.None? || Less(cursor[0], key.value) { items := items + [cursor[0]]; }
      cursor := cursor[1..];
    }
    if cursor == [] { MatchingNone(key); }
    PrefixByParts(items, Matching(cursor, key), fetch);
  }

  /** One extra row is fetched, and becomes the token. */
  method List(rows: seq<Key>, limit: int, token: string) returns (r: Result<Page>)
    ensures r.Err? <==> Asked(rows, token) == None
    ensures r.Err? ==> r.error == InvalidArgument
    ensures r.Ok? ==> r.value == PageOf(Asked(rows, token).value, Limit(limit))
  {
    hide ParseToken, Below, Token;
    var cap := if limit <= 0 then DEFAULT_LIMIT else if limit > MAX_LIMIT then MAX_LIMIT else limit;
    var key := None;
    if token != "" {
      key := ParseToken(token);
      if key.None? { return Err(InvalidArgument); }
    }
    var items := Scan(rows, key, cap + 1);
    r := Ok(if |items| > cap then Page(items[..cap], Token(items[cap])) else Page(items, ""));
  }

  // ---------------------------------------------------------------- the walk

  /** The pages got by following the tokens with at most `n` requests; None if there are more. */
  function Walk(n: nat, rows: seq<Key>, limit: nat, token: string): Option<seq<Page>>
    decreases n
  {
    if n == 0 then None
    else match Asked(rows, token)
      case None => None
      case Some(rest) =>
        var page := PageOf(rest, limit);
        if page.next == "" then Some([page])
        else match Walk(n - 1, rows, limit, page.next)
          case None => None
          case Some(more) => Some([page] + more)
  }

  function Returned(pages: seq<Page>): seq<Key>
    decreases |pages|
  {
    if pages == [] then [] else pages[0].rows + Returned(pages[1..])
  }

  function Tokens(pages: seq<Page>): seq<string>
    decreases |pages|
  {
    if pages == [] then [] else (if pages[0].next == "" then [] else [pages[0].next]) + Tokens(pages[1..])
  }

  /** The rows at positions p with p % (limit + 1) != limit, and the tokens of the others. */
  function Kept(rows: seq<Key>, limit: nat): seq<Key>
    decreases |rows|
  {
    if |rows| <= limit then rows else rows[..limit] + Kept(rows[limit + 1..], limit)
  }

  function Skipped(rows: seq<Key>, limit: nat): seq<Key>
    decreases |rows|
  {
    if |rows| <= limit then [] else [rows[limit]] + Skipped(rows[limit + 1..], limit)
  }

  ghost predicate InRange(rows: seq<Key>) {
    forall i | 0 <= i < |rows| :: MIN_INT64 <= rows[i].updatedAt <= MAX_INT64
  }

  /** In a strictly decreasing table the rows below the p-th are those after it. */
  lemma {:induction false} BelowIsSuffix(rows: seq<Key>, p: nat)
    requires Ordered(rows) && p < |rows|
    ensures Below(rows, rows[p]) == rows[p + 1..]
    decreases |rows|
  {
    assert Ordered(rows[1..]);
    if p == 0 {
      if Less(rows[0], rows[0]) { Asymmetric(rows[0], rows[0]); }
      BelowAll(rows[1..], rows[0]);
    } else {
      Asymmetric(rows[p], rows[0]);
      BelowIsSuffix(rows[1..], p - 1);
    }
  }

  lemma {:induction false} BelowAll(rows: seq<Key>, k: Key)
    requires forall i | 0 <= i < |rows| :: Less(rows[i], k)
    ensures Below(rows, k) == rows
    decreases |rows|
  {
    if rows != [] { BelowAll(rows[1..], k); }
  }

  /** These pages return what is kept of `rest`, their tokens are those of what is skipped, and none is too long. */
  ghost predicate Exact(pages: seq<Page>, rest: seq<Key>, limit: nat) {
    && Returned(pages) == Kept(rest, limit)
    && |Tokens(pages)| == |Skipped(rest, limit)|
    && (forall i | 0 <= i < |Tokens(pages)| :: Tokens(pages)[i] == Token(Skipped(rest, limit)[i]))
    && forall i | 0 <= i < |pages| :: |pages[i].rows| <= limit
  }

  lemma ExactLast(rest: seq<Key>, limit: nat)
    requires |rest| <= limit
    ensures Exact([Page(rest, "")], rest, limit)
  {
    var pages := [Page(rest, "")];
    assert pages[1..] == [];
    assert Returned([]) == [] && Tokens([]) == [];
  }

  lemma ExactCons(rest: seq<Key>, limit: nat, more: seq<Page>)
    requires |rest| > limit && Exact(more, rest[limit + 1..], limit) && Token(rest[limit]) != ""
    ensures Exact([Page(rest[..limit], Token(rest[limit]))] + more, rest, limit)
  {
    hide Token;
    var pages := [Page(rest[..limit], Token(rest[limit]))] + more;
    assert pages[1..] == more;
    assert Tokens(pages) == [Token(rest[limit])] + Tokens(more);
    assert Skipped(rest, limit) == [rest[limit]] + Skipped(rest[limit + 1..], limit);
    assert Returned(pages) == rest[..limit] + Returned(more);
    assert Kept(rest, limit) == rest[..limit] + Kept(rest[limit + 1..], limit);
    hide Tokens, Skipped, Returned, Kept;
  }

  lemma WalkStep(n: nat, rows: seq<Key>, limit: nat, token: string, rest: seq<Key>)
    requires n > 0 && Asked(rows, token) == Some(rest)
    ensures |rest| <= limit ==> Walk(n, rows, limit, token) == Some([Page(rest, "")])
    ensures |rest| > limit && Token(rest[limit]) != "" && Walk(n - 1, rows, limit, Token(rest[limit])).Some? ==>
              Walk(n, rows, limit, token) == Some([Page(rest[..limit], Token(rest[limit]))] + Walk(n - 1, rows, limit,
                  Token(rest[limit])).value)
  {
    hide Asked, Token;
  }

  lemma {:induction false} WalkFrom(n: nat, rows: seq<Key>, limit: nat, token: string, p: nat)
    requires Ordered(rows) && InRange(rows) && p <= |rows| && Asked(rows, token) == Some(rows[p..]) && n > |rows| - p
    ensures Walk(n, rows, limit, token).Some? && Exact(Walk(n, rows, limit, token).value, rows[p..], limit)
    decreases n
  {
    hide Asked, Token, Exact, Walk, Ordered, ParseToken;
    var rest := rows[p..];
    WalkStep(n, rows, limit, token, rest);
    if |rest| <= limit {
      ExactLast(rest, limit);
    } else {
      var q := p + limit;
      TokenRoundTrip(rows[q]);
      NextAsks(rows, q);
      hide InRange;
      WalkFrom(n - 1, rows, limit, Token(rows[q]), q + 1);
      TailOf(rows, p, limit);
      ExactCons(rest, limit, Walk(n - 1, rows, limit, Token(rows[q])).value);
    }
  }

  lemma TailOf(rows: seq<Key>, p: nat, limit: nat)
    requires p + limit < |rows|
    ensures rows[p..][limit + 1..] == rows[p + limit + 1..] && rows[p..][limit] == rows[p + limit]
  {
  }

  lemma NextAsks(rows: seq<Key>, q: nat)
    requires Ordered(rows) && InRange(rows) && q < |rows|
    ensures Asked(rows, Token(rows[q])) == Some(rows[q + 1..])
  {
    TokenRoundTrip(rows[q]);
    BelowIsSuffix(rows, q);
    hide Token, Below, ParseToken;
  }

  /** Position p is where a page of `limit` rows and its token end. */
  predicate AtBoundary(p: nat, limit: nat) {
    p % (limit + 1) == limit
  }

  lemma {:induction false} KeptOrSkipped(rows: seq<Key>, limit: nat, p: nat)
    requires Ordered(rows) && p < |rows|
    ensures rows[p] in Kept(rows, limit) <==> !AtBoundary(p, limit)
    ensures rows[p] in Skipped(rows, limit) <==> AtBoundary(p, limit)
    decreases |rows|
  {
    hide AtBoundary;
    if |rows| > limit {
      var rest := rows[limit + 1..];
      RestIsOther(rows, limit, p);
      hide Ordered;
      assert Kept(rows, limit) == rows[..limit] + Kept(rest, limit);
      assert Skipped(rows, limit) == [rows[limit]] + Skipped(rest, limit);
      hide Kept, Skipped;
      if p > limit {
        var p' := p - (limit + 1);
        assert rest[p'] == rows[p];
        KeptOrSkipped(rest, limit, p');
        BoundaryRepeats(p, limit);
      } else {
        BoundaryOfFirst(p, limit);
        assert p < limit ==> rows[..limit][p] == rows[p];
      }
    } else {
      BoundaryOfFirst(p, limit);
    }
  }

  lemma BoundaryRepeats(p: nat, limit: nat)
    requires p > limit
    ensures AtBoundary(p - (limit + 1), limit) <==> AtBoundary(p, limit)
  {
    SameRemainder(p, limit + 1);
  }

  lemma BoundaryOfFirst(p: nat, limit: nat)
    requires p <= limit
    ensures AtBoundary(p, limit) <==> p == limit
  {
    SmallRemainder(p, limit + 1);
  }

  lemma SmallRemainder(p: nat, m: nat)
    requires p < m
    ensures p % m == p
  {
  }

  /** Rows at different positions of a strictly decreasing table differ. */
  lemma RowsDiffer(rows: seq<Key>, i: nat, j: nat)
    requires Ordered(rows) && i < j < |rows|
    ensures rows[i] != rows[j]
  {
    if rows[i] == rows[j] { Asymmetric(rows[j], rows[i]); }
  }

  lemma {:induction false} FromRows(rows: seq<Key>, limit: nat, k: Key)
    requires k in Kept(rows, limit) || k in Skipped(rows, limit)
    ensures k in rows
    decreases |rows|
  {
    if |rows| > limit {
      var rest := rows[limit + 1..];
      if k in Kept(rest, limit) || k in Skipped(rest, limit) {
        FromRows(rest, limit, k);
      }
    }
  }

  /** The p-th row, if on the first page or its token, is not met again; if later, not met there. */
  lemma RestIsOther(rows: seq<Key>, limit: nat, p: nat)
    requires Ordered(rows) && limit < |rows| && p < |rows|
    ensures Ordered(rows[limit + 1..])
    ensures p <= limit ==> rows[p] !in Kept(rows[limit + 1..], limit) && rows[p] !in Skipped(rows[limit + 1..], limit)
    ensures p < limit ==> rows[p] != rows[limit]
    ensures p >= limit ==> rows[p] !in rows[..limit]
    ensures p > limit ==> rows[p] != rows[limit]
  {
    var rest := rows[limit + 1..];
    forall i, j | 0 <= i < j < |rows| ensures rows[i] != rows[j] { RowsDiffer(rows, i, j); }
    if p <= limit && (rows[p] in Kept(rest, limit) || rows[p] in Skipped(rest, limit)) {
      FromRows(rest, limit, rows[p]);
    }
  }

  lemma {:induction false} KeptOrdered(rows: seq<Key>, limit: nat, i: nat, j: nat)
    requires Ordered(rows) && i < j < |Kept(rows, limit)|
    ensures Less(Kept(rows, limit)[j], Kept(rows, limit)[i])
    decreases |rows|
  {
    if |rows| > limit {
      var rest := rows[limit + 1..];
      assert Ordered(rest);
      if i >= limit {
        KeptOrdered(rest, limit, i - limit, j - limit);
      } else if j >= limit {
        FromRows(rest, limit, Kept(rest, limit)[j - limit]);
        var q :| 0 <= q < |rest| && rest[q] == Kept(rest, limit)[j - limit];
        assert rows[limit + 1 + q] == rest[q];
      }
    }
  }

  lemma {:induction false} SkippedIsEmptyIff(rows: seq<Key>, limit: nat)
    ensures Kept(rows, limit) == rows <==> |rows| <= limit
    ensures |Kept(rows, limit)| + |Skipped(rows, limit)| == |rows|
    decreases |rows|
  {
    if |rows| > limit { SkippedIsEmptyIff(rows[limit + 1..], limit); }
  }

  /** Following the tokens ends after at most |rows| + 1 requests with pages of at most `limit` rows. What they return
      is strictly decreasing, so without duplicates; the rows left out are exactly those at positions p with
      p % (limit + 1) == limit, one per token issued and named by it. Nothing is left out iff one page holds all. */
  lemma WalkIsExact(rows: seq<Key>, size: int)
    requires Ordered(rows) && InRange(rows)
    ensures var limit := Limit(size);
            var walk := Walk(|rows| + 1, rows, limit, "");
            && walk.Some?
            && (forall i | 0 <= i < |walk.value| :: |walk.value[i].rows| <= limit)
            && (forall i, j | 0 <= i < j < |Returned(walk.value)| :: Less(Returned(walk.value)[j],
                                                                          Returned(walk.value)[i]))
            && (forall p | 0 <= p < |rows| :: rows[p] in Returned(walk.value) <==> !AtBoundary(p, limit))
            && |Tokens(walk.value)| + |Returned(walk.value)| == |rows|
            && (Returned(walk.value) == rows <==> |rows| <= limit)
  {
    hide Walk, Returned, Tokens, Less, Limit, Token, Kept, Skipped, InRange;
    var limit := Limit(size);
    assert rows[0..] == rows;
    WalkFrom(|rows| + 1, rows, limit, "", 0);
    var pages := Walk(|rows| + 1, rows, limit, "").value;
    SkippedIsEmptyIff(rows, limit);
    forall i, j | 0 <= i < j < |Returned(pages)| ensures Less(Returned(pages)[j], Returned(pages)[i]) {
      KeptOrdered(rows, limit, i, j);
    }
    hide AtBoundary;
    forall p | 0 <= p < |rows| ensures rows[p] in Returned(pages) <==> !AtBoundary(p, limit) {
      KeptOrSkipped(rows, limit, p);
    }
  }

  /** The tokens of the walk are those of the rows it leaves out, in order. */
  lemma TokensNameTheSkipped(rows: seq<Key>, size: int)
    requires Ordered(rows) && InRange(rows)
    ensures var limit := Limit(size);
            var walk := Walk(|rows| + 1, rows, limit, "");
            && walk.Some? && |Tokens(walk.value)| == |Skipped(rows, limit)|
            && (forall i | 0 <= i < |Tokens(walk.value)| ::
                  ParseToken(Tokens(walk.value)[i]) == Some(Skipped(rows, limit)[i]))
            && forall p | 0 <= p < |rows| :: rows[p] in Skipped(rows, limit) <==> rows[p] !in Returned(walk.value)
  {
    var limit := Limit(size);
    assert rows[0..] == rows;
    WalkFrom(|rows| + 1, rows, limit, "", 0);
    var pages := Walk(|rows| + 1, rows, limit, "").value;
    hide Walk, Returned, Tokens, Limit, Token, ParseToken, Kept, Skipped;
    forall i | 0 <= i < |Tokens(pages)| ensures ParseToken(Tokens(pages)[i]) == Some(Skipped(rows, limit)[i]) {
      var k := Skipped(rows, limit)[i];
      FromRows(rows, limit, k);
      TokenRoundTrip(k);
    }
    forall p | 0 <= p < |rows| ensures rows[p] in Skipped(rows, limit) <==> rows[p] !in Returned(pages) {
      KeptOrSkipped(rows, limit, p);
    }
  }
}
