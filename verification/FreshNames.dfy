/** Stable ids: slugs made from free text, and the search for a suffix that no id has taken. */
module FreshNames {
  import opened Texts
  import opened AiConfig

  // ---------------------------------------------------------------- numbers as text

  function Digit(n: nat): char
    requires n < 10
  {
    "0123456789"[n]
  }

  function Decimal(n: nat): string {
    if n < 10 then [Digit(n)] else Decimal(n / 10) + [Digit(n % 10)]
  }

  lemma {:induction false} DecimalInjective(a: nat, b: nat)
    requires Decimal(a) == Decimal(b)
    ensures a == b
  {
    var last := Decimal(a)[|Decimal(a)| - 1];
    assert last == Digit(a % 10) == Digit(b % 10);
    assert a % 10 == b % 10;
    if a >= 10 && b >= 10 {
      assert Decimal(a / 10) == Decimal(a)[..|Decimal(a)| - 1] == Decimal(b / 10);
      DecimalInjective(a / 10, b / 10);
    }
  }

  /** The number a row of decimal digits stands for. */
  ghost function Read(s: string): int {
    if s == "" then 0 else 10 * Read(s[..|s| - 1]) + (s[|s| - 1] as int - '0' as int)
  }

  lemma DigitIs(n: nat)
    requires n < 10
    ensures Digit(n) as int == '0' as int + n
  {
    assert "0123456789"[0] == '0' && "0123456789"[1] == '1' && "0123456789"[2] == '2' && "0123456789"[3] == '3';
    assert "0123456789"[4] == '4' && "0123456789"[5] == '5' && "0123456789"[6] == '6' && "0123456789"[7] == '7';
    assert "0123456789"[8] == '8' && "0123456789"[9] == '9';
  }

  /** A number is written in digits that read back as it, without a leading zero. */
  lemma {:induction false} DecimalReadsBack(n: nat)
    ensures Decimal(n) != "" && Read(Decimal(n)) == n
    ensures forall i | 0 <= i < |Decimal(n)| :: '0' <= Decimal(n)[i] <= '9'
    ensures n > 0 ==> Decimal(n)[0] != '0'
  {
    DigitIs(n % 10);
    if n < 10 {
      assert [Digit(n)][..0] == "";
    } else {
      DecimalReadsBack(n / 10);
      assert Decimal(n)[..|Decimal(n)| - 1] == Decimal(n / 10);
    }
  }

  // ---------------------------------------------------------------- the suffix search

  function Suffixed(base: string, k: nat): string {
    base + "-" + Decimal(k)
  }

  lemma SuffixedInjective(base: string, j: nat, k: nat)
    requires Suffixed(base, j) == Suffixed(base, k)
    ensures j == k
  {
    assert Suffixed(base, j)[|base| + 1..] == Decimal(j);
    assert Suffixed(base, k)[|base| + 1..] == Decimal(k);
    DecimalInjective(j, k);
  }

  /** A name that no id has taken: the base itself, or the base with the least free suffix from 2 on. */
  ghost predicate IsFresh(base: string, taken: set<string>, name: string) {
    if base !in taken then name == base
    else exists k: nat :: LeastFree(base, taken, k) && name == Suffixed(base, k)
  }

  ghost predicate LeastFree(base: string, taken: set<string>, k: nat) {
    k >= 2 && Suffixed(base, k) !in taken && forall j: nat | 2 <= j < k :: Suffixed(base, j) in taken
  }

  /** There is at most one such name. */
  lemma FreshIsUnique(base: string, taken: set<string>, a: string, b: string)
    requires IsFresh(base, taken, a) && IsFresh(base, taken, b)
    ensures a == b && a !in taken
  {
    if base in taken {
      var j: nat :| LeastFree(base, taken, j) && a == Suffixed(base, j);
      var k: nat :| LeastFree(base, taken, k) && b == Suffixed(base, k);
    }
  }

  /** The search, dropping from `left` each taken suffix it has passed. */
  function FreshFrom(base: string, left: set<string>, k: nat): string
    decreases |left|
  {
    var name := Suffixed(base, k);
    if name in left then FreshFrom(base, left - {name}, k + 1) else name
  }

  function FreshId(base: string, taken: set<string>): string {
    if base !in taken then base else FreshFrom(base, taken, 2)
  }

  ghost predicate Passed(base: string, taken: set<string>, left: set<string>, k: nat) {
    && left <= taken && (forall j: nat | 2 <= j < k :: Suffixed(base, j) in taken)
    && (forall j: nat | k <= j :: Suffixed(base, j) in taken <==> Suffixed(base, j) in left)
  }

  lemma PassOne(base: string, taken: set<string>, left: set<string>, k: nat)
    requires Passed(base, taken, left, k) && Suffixed(base, k) in left
    ensures Passed(base, taken, left - {Suffixed(base, k)}, k + 1)
  {
    forall j: nat | k + 1 <= j ensures Suffixed(base, j) in taken <==> Suffixed(base, j) in left - {Suffixed(base, k)} {
      if Suffixed(base, j) == Suffixed(base, k) { SuffixedInjective(base, j, k); }
    }
  }

  lemma {:induction false} FreshFromIsLeast(base: string, taken: set<string>, left: set<string>, k: nat)
    requires k >= 2 && Passed(base, taken, left, k)
    ensures exists i: nat :: LeastFree(base, taken, i) && FreshFrom(base, left, k) == Suffixed(base, i)
    decreases |left|
  {
    if Suffixed(base, k) in left {
      PassOne(base, taken, left, k);
      FreshFromIsLeast(base, taken, left - {Suffixed(base, k)}, k + 1);
    } else {
      assert LeastFree(base, taken, k);
    }
  }

  lemma FreshIdIsFresh(base: string, taken: set<string>)
    ensures IsFresh(base, taken, FreshId(base, taken)) && FreshId(base, taken) !in taken
  {
    if base in taken { FreshFromIsLeast(base, taken, taken, 2); }
  }

  /** The loop of the program; it ends because each pass uses up one taken name. */
  method FindFresh(base: string, taken: seq<string>) returns (name: string)
    ensures name !in taken && IsFresh(base, (set id | id in taken), name)
    ensures name == FreshId(base, (set id | id in taken))
  {
    var used := set id | id in taken;
    if base !in used {
      return base;
    }
    var suffix := 2;
    ghost var left := used;
    while Suffixed(base, suffix) in used
      invariant suffix >= 2 && Passed(base, used, left, suffix)
      decreases |left|
    {
      PassOne(base, used, left, suffix);
      left := left - {Suffixed(base, suffix)};
      suffix := suffix + 1;
    }
    name := Suffixed(base, suffix);
    assert LeastFree(base, used, suffix);
    FreshIdIsFresh(base, used);
    FreshIsUnique(base, used, name, FreshId(base, used));
  }

  // ---------------------------------------------------------------- slugs from free text

  predicate SlugLetter(c: char) {
    'a' <= c <= 'z' || '0' <= c <= '9' || Edge(c)
  }

  predicate Edge(c: char) { c == '-' || c == '.' || c == '_' }

  /** Every run of other characters becomes one dash. */
  function Dashed(s: string): string {
    if s == "" then ""
    else if SlugLetter(s[0]) then [s[0]] + Dashed(s[1..])
    else if |s| > 1 && !SlugLetter(s[1]) then Dashed(s[1..])
    else ['-'] + Dashed(s[1..])
  }

  function TrimLeft(s: string, edge: char -> bool): string {
    if s != "" && edge(s[0]) then TrimLeft(s[1..], edge) else s
  }

  function TrimRight(s: string, edge: char -> bool): string {
    if s != "" && edge(s[|s| - 1]) then TrimRight(s[..|s| - 1], edge) else s
  }

  function Trim(s: string, edge: char -> bool): string {
    TrimRight(TrimLeft(s, edge), edge)
  }

  /** Neighbouring dashes become one. */
  function SingleDashes(s: string): string {
    if s == "" then ""
    else if |s| > 1 && s[0] == '-' && s[1] == '-' then SingleDashes(s[1..])
    else [s[0]] + SingleDashes(s[1..])
  }

  function IsEdge(): char -> bool { c => Edge(c) }

  function IsDash(): char -> bool { c => c == '-' }

  function Slugify(text: string, fallback: string): string {
    var n := SingleDashes(Trim(Dashed(Lower(Strip(text))), IsEdge()));
    var m := if n == "" || !Alnum(n[0]) then Trim(fallback + "-" + n, IsDash()) else n;
    var full := if m == "" then fallback else m;
    if |full| <= 64 then full else full[..64]
  }

  predicate Letters(s: string) { forall i | 0 <= i < |s| :: SlugLetter(s[i]) }

  lemma {:induction false} DashedLetters(s: string)
    ensures Letters(Dashed(s))
  {
    if s != "" { DashedLetters(s[1..]); }
  }

  lemma {:induction false} TrimLeftOf(s: string, edge: char -> bool)
    ensures Letters(s) ==> Letters(TrimLeft(s, edge))
    ensures TrimLeft(s, edge) == "" || !edge(TrimLeft(s, edge)[0])
  {
    if s != "" && edge(s[0]) { TrimLeftOf(s[1..], edge); }
  }

  lemma {:induction false} TrimRightOf(s: string, edge: char -> bool)
    ensures Letters(s) ==> Letters(TrimRight(s, edge))
    ensures TrimRight(s, edge) <= s
  {
    if s != "" && edge(s[|s| - 1]) { TrimRightOf(s[..|s| - 1], edge); }
  }

  lemma {:induction false} SingleDashesLetters(s: string)
    ensures Letters(s) ==> Letters(SingleDashes(s))
    ensures s != "" ==> SingleDashes(s) != "" && SingleDashes(s)[0] == s[0]
  {
    if s != "" { SingleDashesLetters(s[1..]); }
  }

  lemma TrimmedFallback(fallback: string)
    requires ValidSlug(fallback) && fallback[|fallback| - 1] != '-'
    ensures Trim(fallback + "-" + "", IsDash()) == fallback
  {
    var s := fallback + "-" + "";
    assert TrimLeft(s, IsDash()) == s;
    assert s[..|s| - 1] == fallback;
    assert TrimRight(s, IsDash()) == TrimRight(fallback, IsDash()) == fallback;
  }

  /** Whatever text it is given, `Slugify` answers with an id the slug rule accepts. */
  lemma SlugifyIsValid(text: string, fallback: string)
    requires ValidSlug(fallback) && fallback[|fallback| - 1] != '-'
    ensures ValidSlug(Slugify(text, fallback))
  {
    var dashed := Dashed(Lower(Strip(text)));
    DashedLetters(Lower(Strip(text)));
    TrimLeftOf(dashed, IsEdge());
    TrimRightOf(TrimLeft(dashed, IsEdge()), IsEdge());
    SingleDashesLetters(Trim(dashed, IsEdge()));
    TrimmedFallback(fallback);
  }

  // ---------------------------------------------------------------- what is left of the text

  /** The lower-case letters and digits of a text, in order. */
  ghost function Core(s: string): string {
    if s == "" then "" else CoreOf(s[0]) + Core(s[1..])
  }

  ghost function CoreOf(c: char): string { if 'a' <= c <= 'z' || '0' <= c <= '9' then [c] else "" }

  lemma CoreCons(c: char, s: string)
    ensures Core([c] + s) == CoreOf(c) + Core(s)
  {
    assert ([c] + s)[1..] == s;
  }

  lemma {:induction false} CoreSnoc(s: string, c: char)
    ensures Core(s + [c]) == Core(s) + CoreOf(c)
  {
    if s == "" {
      assert s + [c] == [c] && [c][1..] == "";
    } else {
      CoreSnoc(s[1..], c);
      CoreCons(s[0], s[1..] + [c]);
      assert s + [c] == [s[0]] + (s[1..] + [c]);
    }
  }

  lemma {:induction false} DashedKeepsCore(s: string)
    ensures Core(Dashed(s)) == Core(s)
  {
    if s != "" {
      DashedKeepsCore(s[1..]);
      CoreCons(s[0], Dashed(s[1..]));
      CoreCons('-', Dashed(s[1..]));
    }
  }

  lemma {:induction false} TrimLeftKeepsCore(s: string)
    ensures Core(TrimLeft(s, IsEdge())) == Core(s)
  {
    if s != "" && Edge(s[0]) { TrimLeftKeepsCore(s[1..]); }
  }

  lemma {:induction false} TrimRightKeepsCore(s: string)
    ensures Core(TrimRight(s, IsEdge())) == Core(s)
  {
    if s != "" && Edge(s[|s| - 1]) {
      var init := s[..|s| - 1];
      TrimRightKeepsCore(init);
      LastEdgeIsNoCore(s);
      assert TrimRight(s, IsEdge()) == TrimRight(init, IsEdge());
    }
  }

  lemma LastEdgeIsNoCore(s: string)
    requires s != "" && Edge(s[|s| - 1])
    ensures Core(s[..|s| - 1]) == Core(s)
  {
    var init, last := s[..|s| - 1], s[|s| - 1];
    CoreSnoc(init, last);
    assert s == init + [last] && CoreOf(last) == "" && Core(init) + "" == Core(init);
  }

  lemma {:induction false} TrimRightEnds(s: string)
    ensures TrimRight(s, IsEdge()) == "" || !Edge(TrimRight(s, IsEdge())[|TrimRight(s, IsEdge())| - 1])
  {
    if s != "" && Edge(s[|s| - 1]) { TrimRightEnds(s[..|s| - 1]); }
  }

  /** Dashes stand alone, and the last character stays. */
  ghost predicate SingleDashed(s: string) {
    forall i | 0 <= i < |s| - 1 :: !(s[i] == '-' && s[i + 1] == '-')
  }

  lemma {:induction false} SingleDashesKeepCore(s: string)
    ensures Core(SingleDashes(s)) == Core(s)
  {
    if s != "" {
      SingleDashesKeepCore(s[1..]);
      CoreCons(s[0], SingleDashes(s[1..]));
    }
  }

  lemma {:induction false} SingleDashesStand(s: string)
    ensures SingleDashed(SingleDashes(s))
    ensures s != "" ==> SingleDashes(s) != "" && SingleDashes(s)[0] == s[0]
    ensures s != "" ==> SingleDashes(s)[|SingleDashes(s)| - 1] == s[|s| - 1]
  {
    if s != "" { SingleDashesStand(s[1..]); }
  }

  lemma {:induction false} CoreOfLetters(s: string)
    requires Letters(s) && s != "" && !Edge(s[0])
    ensures Core(s) != ""
  {
  }

  lemma {:induction false} CorePrefix(s: string, n: nat)
    requires n <= |s|
    ensures Core(s[..n]) <= Core(s)
  {
    if n > 0 {
      assert s[..n][1..] == s[1..][..n - 1];
      CorePrefix(s[1..], n - 1);
    }
  }

  /** The lowered text before it is cut. */
  lemma SlugBody(text: string) returns (n: string)
    ensures n == SingleDashes(Trim(Dashed(Lower(Strip(text))), IsEdge()))
    ensures Letters(n) && Core(n) == Core(Lower(Strip(text))) && SingleDashed(n)
    ensures n != "" ==> !Edge(n[0]) && !Edge(n[|n| - 1]) && Core(n) != ""
  {
    var dashed := Dashed(Lower(Strip(text)));
    var left := TrimLeft(dashed, IsEdge());
    DashedLetters(Lower(Strip(text)));
    DashedKeepsCore(Lower(Strip(text)));
    TrimLeftOf(dashed, IsEdge());
    TrimLeftKeepsCore(dashed);
    TrimRightOf(left, IsEdge());
    TrimRightKeepsCore(left);
    TrimRightEnds(left);
    SingleDashesLetters(Trim(dashed, IsEdge()));
    SingleDashesKeepCore(Trim(dashed, IsEdge()));
    SingleDashesStand(Trim(dashed, IsEdge()));
    n := SingleDashes(Trim(dashed, IsEdge()));
    if n != "" { CoreOfLetters(n); }
  }

  /** A text with a letter or a digit becomes a slug of exactly its letters and digits in lower case, with no
      two dashes together, starting and ending with one of them, cut at 64 characters; any other text becomes
      the fallback. */
  lemma SlugifyIs(text: string, fallback: string)
    requires ValidSlug(fallback) && fallback[|fallback| - 1] != '-'
    ensures var slug, core := Slugify(text, fallback), Core(Lower(Strip(text)));
      if core == "" then slug == fallback
      else
        && slug != "" && slug[0] !in {'-', '.', '_'} && Core(slug) <= core && SingleDashed(slug)
        && (|slug| < 64 ==> Core(slug) == core && slug[|slug| - 1] !in {'-', '.', '_'})
  {
    var n := SlugBody(text);
    if n == "" {
      TrimmedFallback(fallback);
    } else if |n| > 64 {
      CorePrefix(n, 64);
    }
  }
}
