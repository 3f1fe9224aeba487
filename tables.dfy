/**
 * What every GORM repository of the system does on top of the database:
 * minting fresh identifiers, selecting the rows a WHERE clause matches,
 * deleting the rows it found, `LIMIT offset, size` paging with
 * `ceil(count / size)` page counts, and the merge by ID the search services
 * apply to two result lists. A table is a map from primary key to row.
 */
module Tables {
  import opened Wrappers
  import opened Text
  import opened StringTools

  /** GORM's `ErrRecordNotFound`, the error of a `First` that finds no row. */
  const RecordNotFound: Error := Error("record not found")

  /**
   * How MySQL's `REGEXP` reads a pattern `"^" + QuoteMeta(key)`: the value
   * must begin with the literal the quoted part stands for.
   */
  predicate AnchoredLiteralMatch(value: string, pattern: string) {
    |pattern| > 0 && pattern[0] == '^' && Unquote(pattern[1..]) <= value
  }

  /** The pattern `SearchWRegx` binds for a key matches exactly the values that start with the key. */
  lemma AnchoredKeyIsPrefix(value: string, key: string)
    ensures AnchoredLiteralMatch(value, "^" + QuoteMeta(key)) <==> key <= value
  {
    assert ("^" + QuoteMeta(key))[1..] == QuoteMeta(key);
    UnquoteQuoteMeta(key);
  }

  /** A WHERE clause `column = ?` or `column regexp ?` with the value bound to it. */
  datatype Clause = Clause(column: string, value: string)

  /** A query's column list is well formed: at least one column, each a column of the table. */
  predicate Queryable(columns: seq<string>, known: set<string>) {
    |columns| > 0 && forall i | 0 <= i < |columns| :: columns[i] in known
  }

  /**
   * What the account searches look for in one column: the key itself, or,
   * in phone_number, the +251 form of a key whose first rune is 0.
   * `col(row, name)` is the row's value in the named string column.
   */
  predicate SearchHit<R>(col: (R, string) -> Option<string>, row: R, key: string, column: string)
    requires column == "phone_number" ==> key != ""
  {
    if column == "phone_number" && key[0] == '0' then col(row, column) == Some("+251" + key[1..])
    else col(row, column) == Some(key)
  }

  predicate SearchFound<R>(col: (R, string) -> Option<string>, row: R, key: string, columns: seq<string>)
    requires "phone_number" in columns ==> key != ""
  {
    exists i | 0 <= i < |columns| :: SearchHit(col, row, key, columns[i])
  }

  /** What the `SearchWRegx` queries look for: a listed column that begins with the key. */
  predicate PrefixFound<R>(col: (R, string) -> Option<string>, row: R, key: string, columns: seq<string>) {
    exists i | 0 <= i < |columns| :: col(row, columns[i]).Some? && key <= col(row, columns[i]).value
  }

  /** The OR of `column = ?` clauses. */
  predicate EqualsAny<R>(col: (R, string) -> Option<string>, row: R, clauses: seq<Clause>) {
    exists i | 0 <= i < |clauses| :: col(row, clauses[i].column) == Some(clauses[i].value)
  }

  /** The OR of `column regexp ?` clauses. */
  predicate RegexpAny<R>(col: (R, string) -> Option<string>, row: R, clauses: seq<Clause>) {
    exists i | 0 <= i < |clauses| ::
      col(row, clauses[i].column).Some? && AnchoredLiteralMatch(col(row, clauses[i].column).value, clauses[i].value)
  }

  /** The value the account searches bind to a `column = ?` clause. */
  function BoundValue(key: string, column: string): string
    requires column == "phone_number" ==> key != ""
  {
    if column == "phone_number" && key[0] == '0' then "+251" + key[1..] else key
  }

  /** Exact clauses, one per column, bound as the account searches bind them, select the rows `SearchFound` describes. */
  lemma ExactClausesFindHits<R>(col: (R, string) -> Option<string>, row: R, key: string, columns: seq<string>, clauses: seq<Clause>)
    requires "phone_number" in columns ==> key != ""
    requires |clauses| == |columns|
    requires forall j | 0 <= j < |clauses| :: clauses[j].column == columns[j]
    requires forall j | 0 <= j < |clauses| :: clauses[j].value == BoundValue(key, columns[j])
    ensures EqualsAny(col, row, clauses) <==> SearchFound(col, row, key, columns)
  {
    forall i | 0 <= i < |columns|
      ensures col(row, clauses[i].column) == Some(clauses[i].value) <==> SearchHit(col, row, key, columns[i])
    {
    }
  }

  /** Prefix clauses `"^" + QuoteMeta(key)` select the rows with a listed column beginning with the key. */
  lemma RegexClausesFindPrefixes<R>(col: (R, string) -> Option<string>, row: R, key: string, columns: seq<string>, clauses: seq<Clause>)
    requires |clauses| == |columns|
    requires forall j | 0 <= j < |clauses| :: clauses[j] == Clause(columns[j], "^" + QuoteMeta(key))
    ensures RegexpAny(col, row, clauses) <==> PrefixFound(col, row, key, columns)
  {
    forall i | 0 <= i < |columns| && col(row, columns[i]).Some?
      ensures AnchoredLiteralMatch(col(row, columns[i]).value, clauses[i].value) <==> key <= col(row, columns[i]).value
    {
      AnchoredKeyIsPrefix(col(row, columns[i]).value, key);
    }
  }

  /** The identifier the `Create` methods mint: the prefix, the random string, then the row number in decimal. */
  function MintedId(prefix: string, random: string, n: nat): string {
    prefix + random + Decimal(n)
  }

  /** With the random part of a fixed width, different counters give different identifiers. */
  lemma MintedIdInjective(prefix: string, r1: string, r2: string, n1: nat, n2: nat)
    requires |r1| == |r2|
    requires MintedId(prefix, r1, n1) == MintedId(prefix, r2, n2)
    ensures n1 == n2 && r1 == r2
  {
    var a, b := MintedId(prefix, r1, n1), MintedId(prefix, r2, n2);
    var k := |prefix| + |r1|;
    assert a[|prefix|..k] == r1 && b[|prefix|..k] == r2;
    assert a[k..] == Decimal(n1) && b[k..] == Decimal(n2);
    DecimalInjective(n1, n2);
  }

  /** The candidate of the i-th round of a minting loop that starts at counter `base`. */
  function Candidate(prefix: string, draw: nat -> string, base: nat, i: nat): string {
    MintedId(prefix, draw(i), base + i)
  }

  /** The candidates of rounds 0 .. n-1. */
  ghost function Candidates(prefix: string, draw: nat -> string, base: nat, n: nat): set<string> {
    if n == 0 then {} else Candidates(prefix, draw, base, n - 1) + {Candidate(prefix, draw, base, n - 1)}
  }

  /** A round's candidate differs from every earlier round's. */
  lemma {:induction false} CandidateIsNew(prefix: string, draw: nat -> string, width: nat, base: nat, n: nat, t: nat)
    requires forall i: nat :: |draw(i)| == width
    requires n <= t
    ensures Candidate(prefix, draw, base, t) !in Candidates(prefix, draw, base, n)
  {
    if n > 0 {
      CandidateIsNew(prefix, draw, width, base, n - 1, t);
      if Candidate(prefix, draw, base, t) == Candidate(prefix, draw, base, n - 1) {
        MintedIdInjective(prefix, draw(t), draw(n - 1), base + t, base + n - 1);
      }
    }
  }

  /**
   * The minting loop of every `Create`: start from the row count plus one,
   * and while the candidate `prefix + draw(tries) + (count + 1 + tries)` is
   * already a key, bump the counter and draw again. `draw(i)` is the i-th
   * `RandomStringGN(width)`. Because the counter part keeps growing, every
   * rejected candidate is a different key of the table, so the loop stops
   * after at most |rows| rejections with a key the table does not hold.
   */
  method MintId<R>(rows: map<string, R>, prefix: string, width: nat, draw: nat -> string)
    returns (id: string, tries: nat)
    requires forall i: nat :: IsRandomString(draw(i), width)
    ensures id !in rows
    ensures id == Candidate(prefix, draw, |rows| + 1, tries)
    ensures tries <= |rows|
    ensures Candidates(prefix, draw, |rows| + 1, tries) <= rows.Keys
  {
    var base := |rows| + 1;
    tries := 0;
    id := Candidate(prefix, draw, base, 0);
    while id in rows
      invariant id == Candidate(prefix, draw, base, tries)
      invariant Candidates(prefix, draw, base, tries) <= rows.Keys
      invariant |Candidates(prefix, draw, base, tries)| == tries
      decreases |rows| - tries
    {
      CandidateIsNew(prefix, draw, width, base, tries, tries);
      SubsetSize(Candidates(prefix, draw, base, tries + 1), rows.Keys);
      tries := tries + 1;
      id := Candidate(prefix, draw, base, tries);
    }
    SubsetSize(Candidates(prefix, draw, base, tries), rows.Keys);
  }

  lemma SubsetSize<T>(a: set<T>, b: set<T>)
    requires a <= b
    ensures |a| <= |b|
  {
    assert b == a + (b - a);
  }

  /** Every row is stored under its own primary key. */
  predicate Keyed<R>(rows: map<string, R>, idOf: R -> string) {
    forall k | k in rows :: idOf(rows[k]) == k
  }

  /** No two rows of the list share a key. */
  predicate Distinct<R, K(==)>(xs: seq<R>, idOf: R -> K) {
    forall i, j | 0 <= i < j < |xs| :: idOf(xs[i]) != idOf(xs[j])
  }

  /** `all` lists every row of the table that the condition accepts, each once. */
  ghost predicate Lists<R(!new)>(all: seq<R>, rows: map<string, R>, idOf: R -> string, accepts: R -> bool) {
    (forall x :: x in all <==> x in rows.Values && accepts(x)) && Distinct(all, idOf)
  }

  /** The keys of the rows the condition accepts. */
  function Matching<R>(rows: map<string, R>, accepts: R -> bool): set<string> {
    set k | k in rows && accepts(rows[k])
  }

  /**
   * `Where(<condition>).First(&row)`: some row the condition accepts, if
   * there is one. (`First` takes the one with the least primary key; which
   * one is not modelled.)
   */
  method FindFirst<R(==,!new)>(rows: map<string, R>, accepts: R -> bool) returns (r: Option<R>)
    ensures r.Some? <==> exists k | k in rows :: accepts(rows[k])
    ensures r.Some? ==> r.value in rows.Values && accepts(r.value)
  {
    if k :| k in rows && accepts(rows[k]) {
      r := Some(rows[k]);
    } else {
      r := None;
    }
  }

  /** `Where(<condition>).Find(&rows)`: every row the condition accepts, each once, in no particular order. */
  method Select<R(==,!new)>(rows: map<string, R>, idOf: R -> string, accepts: R -> bool) returns (found: seq<R>)
    requires Keyed(rows, idOf)
    ensures Lists(found, rows, idOf, accepts)
  {
    found := [];
    var pending := rows.Keys;
    while pending != {}
      invariant pending <= rows.Keys
      invariant forall x :: x in found <==> x in rows.Values && accepts(x) && idOf(x) !in pending
      invariant Distinct(found, idOf)
      decreases pending
    {
      var k :| k in pending;
      if accepts(rows[k]) {
        found := found + [rows[k]];
      }
      pending := pending - {k};
    }
  }

  /** The table without the given keys. */
  function Without<R>(rows: map<string, R>, gone: set<string>): (rest: map<string, R>)
    ensures rest.Keys == rows.Keys - gone
    ensures forall k | k in rest :: rest[k] == rows[k]
  {
    map k | k in rows && k !in gone :: rows[k]
  }

  /** The keys listed in a sequence. */
  function Listed(keys: seq<string>): set<string> {
    set i | 0 <= i < |keys| :: keys[i]
  }

  /** The loop of `DeleteMultiple`: `conn.Delete(row)` for every row found, one key at a time. */
  method DeleteEach<R>(rows: map<string, R>, keys: seq<string>) returns (rest: map<string, R>)
    ensures rest == Without(rows, Listed(keys))
  {
    rest := rows;
    for i := 0 to |keys|
      invariant rest == Without(rows, Listed(keys[..i]))
    {
      assert Listed(keys[..i + 1]) == Listed(keys[..i]) + {keys[i]} by {
        assert keys[..i + 1][i] == keys[i];
        forall j | 0 <= j < i ensures keys[..i + 1][j] == keys[..i][j] {}
      }
      rest := rest - {keys[i]};
    }
    assert keys[..|keys|] == keys;
  }

  /**
   * `DeleteMultiple`: find the rows the condition accepts, delete each of
   * them, and hand them back. The table loses exactly those rows.
   */
  method RemoveMatching<R(==,!new)>(rows: map<string, R>, idOf: R -> string, accepts: R -> bool)
    returns (removed: seq<R>, rest: map<string, R>)
    requires Keyed(rows, idOf)
    ensures Lists(removed, rows, idOf, accepts)
    ensures rest == Without(rows, Matching(rows, accepts))
    ensures Keyed(rest, idOf)
  {
    removed := Select(rows, idOf, accepts);
    var keys := seq(|removed|, i requires 0 <= i < |removed| => idOf(removed[i]));
    rest := DeleteEach(rows, keys);
    assert Listed(keys) == Matching(rows, accepts) by {
      forall k | k in Listed(keys) ensures k in Matching(rows, accepts) {
        var i :| 0 <= i < |keys| && keys[i] == k;
        assert removed[i] in removed;
      }
      forall k | k in Matching(rows, accepts) ensures k in Listed(keys) {
        assert rows[k] in rows.Values;
        var i :| 0 <= i < |removed| && removed[i] == rows[k];
        assert keys[i] == k;
      }
    }
  }

  /**
   * `LIMIT offset, size` with offset `pageNum * size`: a negative offset is
   * an SQL error and yields nothing, an offset past the end yields nothing,
   * otherwise up to `size` rows from the offset on.
   */
  function Page<T>(xs: seq<T>, pageNum: int, size: nat): (page: seq<T>)
    ensures pageNum < 0 || |xs| <= pageNum * size ==> page == []
    ensures 0 <= pageNum && pageNum * size < |xs| ==>
      |page| == Min(size, |xs| - pageNum * size) && page == xs[pageNum * size..pageNum * size + |page|]
  {
    if pageNum < 0 || |xs| <= pageNum * size then []
    else xs[pageNum * size..pageNum * size + Min(size, |xs| - pageNum * size)]
  }

  /** `int64(math.Ceil(float64(count) / float64(size)))`, on integers. */
  function PageCount(count: nat, size: nat): (pages: nat)
    requires size > 0
    ensures pages * size >= count
    ensures pages > 0 ==> (pages - 1) * size < count
    ensures pages == 0 <==> count == 0
  {
    (count + size - 1) / size
  }

  /**
   * What a paged query returns: page `pageNum` of some listing of the rows
   * the condition accepts, and the number of pages that listing fills.
   */
  ghost predicate PagedResult<R(!new)>(
    page: seq<R>, pageCount: nat, rows: map<string, R>, idOf: R -> string, accepts: R -> bool, pageNum: int, size: nat)
    requires size > 0
  {
    exists all :: Lists(all, rows, idOf, accepts) && page == Page(all, pageNum, size) && pageCount == PageCount(|all|, size)
  }

  /** What a paged query without a count returns: page `pageNum` of some listing of the accepted rows. */
  ghost predicate PageOf<R(!new)>(page: seq<R>, rows: map<string, R>, idOf: R -> string, accepts: R -> bool, pageNum: int, size: nat) {
    exists all :: Lists(all, rows, idOf, accepts) && page == Page(all, pageNum, size)
  }

  /** A counted page is a page. */
  lemma PagedResultIsPage<R(!new)>(
    page: seq<R>, pageCount: nat, rows: map<string, R>, idOf: R -> string, accepts: R -> bool, pageNum: int, size: nat)
    requires size > 0 && PagedResult(page, pageCount, rows, idOf, accepts, pageNum, size)
    ensures PageOf(page, rows, idOf, accepts, pageNum, size)
  {
  }

  /** A page holds accepted rows of the table, no ID twice. */
  lemma PageOfRows<R(!new)>(page: seq<R>, rows: map<string, R>, idOf: R -> string, accepts: R -> bool, pageNum: int, size: nat)
    requires PageOf(page, rows, idOf, accepts, pageNum, size)
    ensures Distinct(page, idOf)
    ensures forall x | x in page :: x in rows.Values && accepts(x)
  {
    var all :| Lists(all, rows, idOf, accepts) && page == Page(all, pageNum, size);
    var lo := PageStart(all, pageNum, size);
    forall i, j | 0 <= i < j < |page| ensures idOf(page[i]) != idOf(page[j]) {
      assert page[i] == all[lo + i] && page[j] == all[lo + j];
    }
    forall x | x in page ensures x in all {
      var i :| 0 <= i < |page| && page[i] == x;
      assert all[lo + i] == x;
    }
  }

  /** Every page is a contiguous slice of the listing, starting at some row `lo`. */
  lemma PageStart<T>(xs: seq<T>, pageNum: int, size: nat) returns (lo: nat)
    ensures lo + |Page(xs, pageNum, size)| <= |xs|
    ensures Page(xs, pageNum, size) == xs[lo..lo + |Page(xs, pageNum, size)|]
  {
    if pageNum < 0 || |xs| <= pageNum * size {
      lo := 0;
    } else {
      lo := pageNum * size;
    }
  }

  /** Pages 0 .. n-1, one after the other. */
  function Pages<T>(xs: seq<T>, n: nat, size: nat): seq<T> {
    if n == 0 then [] else Pages(xs, n - 1, size) + Page(xs, n - 1, size)
  }

  /** The first n pages hold the first n * size rows, so `PageCount` pages hold them all, in order. */
  lemma PagesPrefix<T>(xs: seq<T>, n: nat, size: nat)
    requires size > 0
    ensures Pages(xs, n, size) == xs[..Min(n * size, |xs|)]
  {
    PagesUpTo(xs, n, size, n * size);
  }

  /** The induction behind `PagesPrefix`, with the end `m` of page n-1 given, so that no step multiplies. */
  lemma {:induction false} PagesUpTo<T>(xs: seq<T>, n: nat, size: nat, m: nat)
    requires m == n * size
    ensures Pages(xs, n, size) == xs[..Min(m, |xs|)]
  {
    if n > 0 {
      var m' := (n - 1) * size;
      MulStep(n, size, m');
      PagesUpTo(xs, n - 1, size, m');
      PageFrom(xs, n - 1, size, m');
      SliceJoin(xs, Min(m', |xs|), Min(m, |xs|));
    }
  }

  lemma SliceJoin<T>(xs: seq<T>, i: nat, j: nat)
    requires i <= j <= |xs|
    ensures xs[..i] + xs[i..j] == xs[..j]
  {
  }

  lemma MulStep(n: nat, size: nat, m: nat)
    requires n > 0 && m == (n - 1) * size
    ensures n * size == m + size
  {
  }

  /** Page `p` in terms of its first row `m`, without multiplication. */
  lemma PageFrom<T>(xs: seq<T>, p: nat, size: nat, m: nat)
    requires m == p * size
    ensures Page(xs, p, size) == xs[Min(m, |xs|)..Min(m + size, |xs|)]
  {
  }

  lemma PagesPartition<T>(xs: seq<T>, size: nat)
    requires size > 0
    ensures Pages(xs, PageCount(|xs|, size), size) == xs
  {
    PagesPrefix(xs, PageCount(|xs|, size), size);
    assert xs[..|xs|] == xs;
  }

  /** The rows of a link table (a table without a primary key) that a condition accepts, in table order. */
  function Filter<T(!new)>(xs: seq<T>, accepts: T -> bool): (kept: seq<T>)
    ensures |kept| <= |xs|
    ensures forall x :: x in kept <==> x in xs && accepts(x)
  {
    if xs == [] then []
    else if accepts(xs[0]) then [xs[0]] + Filter(xs[1..], accepts)
    else Filter(xs[1..], accepts)
  }

  /** Keeping some rows of a table whose rows have distinct keys leaves distinct keys. */
  lemma {:induction false} FilterKeepsDistinct<T(!new), K>(xs: seq<T>, accepts: T -> bool, key: T -> K)
    requires Distinct(xs, key)
    ensures Distinct(Filter(xs, accepts), key)
  {
    if xs != [] {
      FilterKeepsDistinct(xs[1..], accepts, key);
      var rest := Filter(xs[1..], accepts);
      if accepts(xs[0]) {
        forall j | 0 <= j < |rest| ensures key(xs[0]) != key(rest[j]) {
          assert rest[j] in xs[1..];
          var m :| 0 <= m < |xs[1..]| && xs[1..][m] == rest[j];
          assert xs[m + 1] == rest[j];
        }
        var r := [xs[0]] + rest;
        forall i, j | 0 <= i < j < |r| ensures key(r[i]) != key(r[j]) {
          if i == 0 {
            assert r[j] == rest[j - 1];
          } else {
            assert r[i] == rest[i - 1] && r[j] == rest[j - 1];
          }
        }
      }
    }
  }

  /** A condition every row meets keeps the whole table. */
  lemma {:induction false} FilterAll<T(!new)>(xs: seq<T>, accepts: T -> bool)
    requires forall x | x in xs :: accepts(x)
    ensures Filter(xs, accepts) == xs
  {
    if xs != [] {
      assert forall x | x in xs[1..] :: x in xs;
      FilterAll(xs[1..], accepts);
      assert [xs[0]] + xs[1..] == xs;
    }
  }

  /** Filtering twice with complementary conditions splits the table. */
  lemma {:induction false} FilterSplits<T(!new)>(xs: seq<T>, accepts: T -> bool)
    ensures |Filter(xs, accepts)| + |Filter(xs, x => !accepts(x))| == |xs|
  {
    if xs != [] {
      FilterSplits(xs[1..], accepts);
    }
  }

  /** The IDs of the rows of a list. */
  function Ids<R>(xs: seq<R>, idOf: R -> string): set<string> {
    set i | 0 <= i < |xs| :: idOf(xs[i])
  }

  /**
   * The map `resultsMap[row.ID] = row` after a loop over `xs`: the last row
   * of each ID wins.
   */
  function ById<R>(xs: seq<R>, idOf: R -> string): (m: map<string, R>)
    ensures m.Keys == Ids(xs, idOf)
    ensures forall k | k in m :: idOf(m[k]) == k && m[k] in xs
  {
    if xs == [] then map[]
    else
      var init := xs[..|xs| - 1];
      assert Ids(xs, idOf) == Ids(init, idOf) + {idOf(xs[|xs| - 1])} by {
        forall i | 0 <= i < |init| ensures init[i] == xs[i] {}
      }
      ById(init, idOf)[idOf(xs[|xs| - 1]):= xs[|xs| - 1]]
  }

  /**
   * Merging two lists by ID: every ID of either list is kept, a row of the
   * second list wins over a row of the first with the same ID, and a row of
   * the first list stays when the second has no row with its ID.
   */
  lemma {:induction false} MergePrefersSecond<R>(xs: seq<R>, ys: seq<R>, idOf: R -> string)
    ensures ById(xs + ys, idOf).Keys == Ids(xs, idOf) + Ids(ys, idOf)
    ensures forall k | k in Ids(ys, idOf) :: ById(xs + ys, idOf)[k] == ById(ys, idOf)[k]
    ensures forall k | k in Ids(xs, idOf) && k !in Ids(ys, idOf) :: ById(xs + ys, idOf)[k] == ById(xs, idOf)[k]
  {
    if ys != [] {
      var zs := ys[..|ys| - 1];
      assert (xs + ys)[..|xs + ys| - 1] == xs + zs;
      MergePrefersSecond(xs, zs, idOf);
    } else {
      assert xs + ys == xs;
    }
  }

  /**
   * What the search services build from two result lists: every ID of either
   * list once, carried by the last row with that ID in the first list
   * followed by the second.
   */
  predicate MergedById<R(==)>(merged: seq<R>, first: seq<R>, second: seq<R>, idOf: R -> string) {
    && Distinct(merged, idOf)
    && Ids(merged, idOf) == ById(first + second, idOf).Keys
    && forall i | 0 <= i < |merged| ::
         idOf(merged[i]) in ById(first + second, idOf) && merged[i] == ById(first + second, idOf)[idOf(merged[i])]
  }

  /** In a list without repeated IDs, the map by ID sends each row's ID back to that row. */
  lemma {:induction false} ByIdOfDistinct<R>(xs: seq<R>, idOf: R -> string, x: R)
    requires Distinct(xs, idOf) && x in xs
    ensures idOf(x) in ById(xs, idOf) && ById(xs, idOf)[idOf(x)] == x
    decreases |xs|
  {
    var init := xs[..|xs| - 1];
    var last := xs[|xs| - 1];
    assert xs == init + [last];
    if x != last {
      var i :| 0 <= i < |xs| && xs[i] == x;
      assert i < |xs| - 1;
      assert idOf(x) != idOf(last);
      assert x in init by { assert init[i] == x; }
      assert Distinct(init, idOf) by {
        forall i, j | 0 <= i < j < |init| ensures idOf(init[i]) != idOf(init[j]) {
          assert init[i] == xs[i] && init[j] == xs[j];
        }
      }
      ByIdOfDistinct(init, idOf, x);
    }
  }

  /**
   * When neither result list repeats an ID, the merge holds exactly the rows
   * of the second list and the rows of the first whose ID the second lacks.
   */
  lemma MergedMembers<R>(merged: seq<R>, first: seq<R>, second: seq<R>, idOf: R -> string, x: R)
    requires MergedById(merged, first, second, idOf)
    requires Distinct(first, idOf) && Distinct(second, idOf)
    ensures x in merged <==> x in second || (x in first && idOf(x) !in Ids(second, idOf))
  {
    MergePrefersSecond(first, second, idOf);
    var all := ById(first + second, idOf);
    var k := idOf(x);
    if x in second {
      assert k in Ids(second, idOf) by { var j :| 0 <= j < |second| && second[j] == x; }
      ByIdOfDistinct(second, idOf, x);
      var i :| 0 <= i < |merged| && idOf(merged[i]) == k;
      assert merged[i] == x;
    } else if x in first && k !in Ids(second, idOf) {
      assert k in Ids(first, idOf) by { var j :| 0 <= j < |first| && first[j] == x; }
      ByIdOfDistinct(first, idOf, x);
      var i :| 0 <= i < |merged| && idOf(merged[i]) == k;
      assert merged[i] == x;
    }
    if x in merged {
      var i :| 0 <= i < |merged| && merged[i] == x;
      assert x == all[k];
      if k in Ids(second, idOf) {
        assert x == ById(second, idOf)[k];
      } else {
        assert x == ById(first, idOf)[k];
      }
    }
  }

  /**
   * Two lists of rows of the same table, each without a repeated ID, merged
   * by ID are their union: a row of the first list whose ID the second list
   * also holds is that very row, since the table keys every row by its ID.
   */
  lemma MergedRowsUnion<R>(merged: seq<R>, first: seq<R>, second: seq<R>, rows: map<string, R>, idOf: R -> string)
    requires Keyed(rows, idOf)
    requires Distinct(first, idOf) && Distinct(second, idOf)
    requires forall x | x in first :: x in rows.Values
    requires forall x | x in second :: x in rows.Values
    requires MergedById(merged, first, second, idOf)
    ensures Distinct(merged, idOf)
    ensures forall x :: x in merged <==> x in first || x in second
  {
    forall x ensures x in merged <==> x in first || x in second {
      MergedMembers(merged, first, second, idOf, x);
      if x in first && idOf(x) in Ids(second, idOf) {
        var j :| 0 <= j < |second| && idOf(second[j]) == idOf(x);
        var y := second[j];
        assert y in second;
        var kx :| kx in rows && rows[kx] == x;
        var ky :| ky in rows && rows[ky] == y;
        assert x == y;
      }
    }
  }

  /**
   * The merge of every `Search*` service: both result lists go into a map
   * keyed by ID, second list last, and the map's values come out as the
   * result, each ID once.
   */
  method MergeById<R(==)>(first: seq<R>, second: seq<R>, idOf: R -> string) returns (merged: seq<R>)
    ensures MergedById(merged, first, second, idOf)
  {
    var all := first + second;
    var results: map<string, R> := map[];
    for i := 0 to |all|
      invariant results == ById(all[..i], idOf)
    {
      assert all[..i + 1][..i] == all[..i];
      results := results[idOf(all[i]) := all[i]];
    }
    assert all[..|all|] == all;
    merged := [];
    var pending := results.Keys;
    while pending != {}
      invariant pending <= results.Keys
      invariant Ids(merged, idOf) == results.Keys - pending
      invariant forall i | 0 <= i < |merged| :: idOf(merged[i]) in results && merged[i] == results[idOf(merged[i])]
      invariant forall i, j | 0 <= i < j < |merged| :: idOf(merged[i]) != idOf(merged[j])
      decreases pending
    {
      var k :| k in pending;
      assert Ids(merged + [results[k]], idOf) == Ids(merged, idOf) + {k} by {
        forall i | 0 <= i < |merged| ensures (merged + [results[k]])[i] == merged[i] {}
        assert (merged + [results[k]])[|merged|] == results[k];
      }
      merged := merged + [results[k]];
      pending := pending - {k};
    }
  }

  /** The larger of two page counts, as the search services report it. */
  function Max(a: int, b: int): int { if a < b then b else a }
}
