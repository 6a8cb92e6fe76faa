/**
  Human usernames: their canonical form, the search for an unused one, and the backfill that gave
  every existing row a name. Text is ASCII; elsewhere Python's strip and lower do more.
 */
module Usernames {
  import opened Prelude

  const LONGEST := 32

  predicate Alnum(c: char) {
    'a' <= c <= 'z' || '0' <= c <= '9'
  }

  /** The pattern of a username: one letter or digit, or 3 to 32 characters with hyphens inside. */
  predicate Matches(s: string) {
    (|s| == 1 && Alnum(s[0])) ||
    (3 <= |s| <= LONGEST && Alnum(s[0]) && Alnum(s[|s| - 1]) && forall i | 0 <= i < |s| :: Alnum(s[i]) || s[i] == '-')
  }

  predicate NoDouble(s: string) {
    forall i | 0 <= i < |s| - 1 :: s[i] != '-' || s[i + 1] != '-'
  }

  predicate Canonical(s: string) {
    Matches(s) && NoDouble(s)
  }

  // ----- Text helpers -----

  predicate Space(c: char) {
    var n := c as int;
    9 <= n <= 13 || 28 <= n <= 32
  }

  function LStrip(s: string): string {
    if s != [] && Space(s[0]) then LStrip(s[1..]) else s
  }

  function RStripSpace(s: string): string {
    if s != [] && Space(s[|s| - 1]) then RStripSpace(s[..|s| - 1]) else s
  }

  function LowerChar(c: char): char {
    if 'A' <= c <= 'Z' then (c as int + 32) as char else c
  }

  function Lower(s: string): (r: string)
    ensures |r| == |s|
  {
    seq(|s|, i requires 0 <= i < |s| => LowerChar(s[i]))
  }

  function StripLower(s: string): string {
    Lower(RStripSpace(LStrip(s)))
  }

  function Canonicalize(value: string): Result<string, string> {
    var username := StripLower(value);
    if !Matches(username) || !NoDouble(username)
        then Err("username must use 3-32 lowercase letters, digits, or single hyphens")
    else Ok(username)
  }

  /** Canonical names are the fixed points: they pass unchanged, and only they come out. */
  lemma CanonicalIsFixed(s: string)
    ensures Canonical(s) <==> Canonicalize(s) == Ok(s)
  {
    if Canonical(s) {
      assert !Space(s[0]) && !Space(s[|s| - 1]);
      assert Lower(s) == s;
    }
  }

  lemma CanonicalizeTwice(value: string)
    ensures Canonicalize(value).Ok? ==> Canonical(Canonicalize(value).value)
    ensures Canonicalize(value).Ok? ==> Canonicalize(Canonicalize(value).value) == Canonicalize(value)
  {
    if Canonicalize(value).Ok? { CanonicalIsFixed(Canonicalize(value).value); }
  }

  /** One character is accepted, two are not, although the message speaks of 3 to 32. */
  lemma CanonicalLengths(n: nat)
    ensures (exists s: string :: Canonical(s) && |s| == n) <==> n == 1 || 3 <= n <= 32
  {
    var s: string := seq(n, i => 'a');
    if n == 1 || 3 <= n <= 32 { assert Canonical(s) && |s| == n; }
  }

  // ----- Base names -----

  /** The part of the address before its first at-sign. */
  function LocalPart(email: string): string {
    if email == [] || email[0] == '@' then [] else [email[0]] + LocalPart(email[1..])
  }

  /** Each run of other characters becomes one hyphen. */
  function Collapse(s: string): (r: string)
    ensures forall i | 0 <= i < |r| :: Alnum(r[i]) || r[i] == '-'
    ensures NoDouble(r)
  {
    if s == [] then []
    else
      var rest := Collapse(s[1..]);
      if Alnum(s[0]) then [s[0]] + rest
      else if rest != [] && rest[0] == '-' then rest
      else ['-'] + rest
  }

  function LStripHyphen(s: string): (r: string)
    ensures |r| <= |s| && r == s[|s| - |r|..]
  {
    if s != [] && s[0] == '-' then LStripHyphen(s[1..]) else s
  }

  function RStripHyphen(s: string): (r: string)
    ensures |r| <= |s| && r == s[..|r|]
    ensures r != [] ==> r[|r| - 1] != '-'
    ensures s != [] && s[0] != '-' ==> r != []
  {
    if s != [] && s[|s| - 1] == '-' then RStripHyphen(s[..|s| - 1]) else s
  }

  function Slug(email: string): (r: string)
    ensures NoDouble(r)
  {
    RStripHyphen(LStripHyphen(Collapse(Lower(LocalPart(email)))))
  }

  predicate HexDigits(s: string) {
    forall i | 0 <= i < |s| :: 'a' <= s[i] <= 'f' || '0' <= s[i] <= '9'
  }

  function FilterHex(s: string): (r: string)
    ensures HexDigits(r)
  {
    if s == [] then []
    else (if 'a' <= s[0] <= 'f' || '0' <= s[0] <= '9' then [s[0]] else []) + FilterHex(s[1..])
  }

  lemma UserNameCanonical(tail: string)
    requires 0 < |tail| <= 12 && forall i | 0 <= i < |tail| :: Alnum(tail[i])
    ensures Canonical("user-" + tail)
  {
    var s := "user-" + tail;
    forall i | 5 <= i < |s| ensures s[i] == tail[i - 5] {}
  }

  // ----- Numbered names -----

  function DigitChar(d: nat): (c: char)
    requires d < 10
    ensures Alnum(c) && c != '-'
  {
    "0123456789"[d]
  }

  function Digits(n: nat): (s: string)
    ensures s != [] && forall i | 0 <= i < |s| :: Alnum(s[i]) && s[i] != '-'
  {
    if n < 10 then [DigitChar(n)] else Digits(n / 10) + [DigitChar(n % 10)]
  }

  lemma {:induction false} DigitsInjective(m: nat, n: nat)
    requires Digits(m) == Digits(n)
    ensures m == n
    decreases m
  {
    var s, t := Digits(m), Digits(n);
    assert s[|s| - 1] == DigitChar(m % 10) && t[|t| - 1] == DigitChar(n % 10);
    assert m % 10 == n % 10;
    if m >= 10 && n >= 10 {
      assert s[..|s| - 1] == Digits(m / 10) && t[..|t| - 1] == Digits(n / 10);
      DigitsInjective(m / 10, n / 10);
    }
  }

  function Pow10(k: nat): (r: nat)
    ensures r >= 1
  {
    if k == 0 then 1 else 10 * Pow10(k - 1)
  }

  lemma {:induction false} DigitsShort(n: nat, k: nat)
    requires n < Pow10(k) && k >= 1
    ensures |Digits(n)| <= k
    decreases k
  {
    if n >= 10 {
      assert n / 10 < Pow10(k - 1);
      DigitsShort(n / 10, k - 1);
    }
  }

  /** A slice up to n, counted from the end when n is negative. */
  function Take(s: string, n: int): string {
    if n >= |s| then s else if n >= 0 then s[..n] else if |s| + n >= 0 then s[..|s| + n] else []
  }

  function SuffixText(k: nat): string {
    ['-'] + Digits(k)
  }

  function Numbered(base: string, k: nat): string {
    RStripHyphen(Take(base, LONGEST - |SuffixText(k)|)) + SuffixText(k)
  }

  /** Where the text after the last hyphen starts is fixed by the text. */
  lemma LastHyphen(s: string, a: string, b: string, x: string, y: string)
    requires s == a + (['-'] + x) && s == b + (['-'] + y)
    requires (forall i | 0 <= i < |x| :: x[i] != '-') && (forall i | 0 <= i < |y| :: y[i] != '-')
    ensures x == y
  {
    assert s[|a|] == '-' && s[|b|] == '-';
    forall i | |a| < i < |s| ensures s[i] != '-' { assert s[i] == x[i - |a| - 1]; }
    forall i | |b| < i < |s| ensures s[i] != '-' { assert s[i] == y[i - |b| - 1]; }
    assert s[|a| + 1..] == x && s[|b| + 1..] == y;
  }

  /** The digits follow the last hyphen, so the number can be read back. */
  lemma NumberedInjective(base: string, j: nat, k: nat)
    requires Numbered(base, j) == Numbered(base, k)
    ensures j == k
  {
    LastHyphen(Numbered(base, j), RStripHyphen(Take(base, LONGEST - |SuffixText(j)|)),
      RStripHyphen(Take(base, LONGEST - |SuffixText(k)|)), Digits(j), Digits(k));
    DigitsInjective(j, k);
  }

  const SUFFIXES := Pow10(30)

  lemma SuffixShort(k: nat)
    requires k < SUFFIXES
    ensures |SuffixText(k)| <= 31
  {
    DigitsShort(k, 30);
  }

  lemma StemOk(base: string, n: nat)
    requires Canonical(base) && n >= 1
    ensures var stem := RStripHyphen(Take(base, n));
            && stem != [] && |stem| <= n && Alnum(stem[0]) && stem[|stem| - 1] != '-' && NoDouble(stem)
            && forall i | 0 <= i < |stem| :: Alnum(stem[i]) || stem[i] == '-'
  {
    var cut := Take(base, n);
    var stem := RStripHyphen(cut);
    assert cut != [] && cut[0] == base[0];
    forall i | 0 <= i < |stem| ensures stem[i] == base[i] {}
  }

  lemma NumberedCanonical(base: string, k: nat)
    requires Canonical(base) && k < SUFFIXES
    ensures Canonical(Numbered(base, k))
  {
    SuffixShort(k);
    StemOk(base, LONGEST - |SuffixText(k)|);
    NumberedParts(RStripHyphen(Take(base, LONGEST - |SuffixText(k)|)), Digits(k));
  }

  lemma NumberedParts(stem: string, digits: string)
    requires stem != [] && digits != [] && |stem| + 1 + |digits| <= LONGEST
    requires Alnum(stem[0]) && stem[|stem| - 1] != '-' && NoDouble(stem)
    requires forall i | 0 <= i < |stem| :: Alnum(stem[i]) || stem[i] == '-'
    requires forall i | 0 <= i < |digits| :: Alnum(digits[i]) && digits[i] != '-'
    ensures Canonical(stem + (['-'] + digits))
  {
    var s := stem + (['-'] + digits);
    forall i | 0 <= i < |s| ensures Alnum(s[i]) || s[i] == '-' {
      assert s[i] == if i < |stem| then stem[i] else if i == |stem| then '-' else digits[i - |stem| - 1];
    }
    assert s[|s| - 1] == digits[|digits| - 1];
    forall i | 0 <= i < |s| - 1 ensures s[i] != '-' || s[i + 1] != '-' {
      if i + 1 < |stem| {
        assert s[i] == stem[i] && s[i + 1] == stem[i + 1];
      } else if i + 1 == |stem| {
        assert s[i] == stem[|stem| - 1];
      } else {
        assert s[i + 1] == digits[i - |stem|];
      }
    }
  }

  // ----- The search -----

  /** The numbered names from 2 up to, not including, k. */
  function Tried(base: string, k: nat): set<string> {
    if k <= 2 then {} else Tried(base, k - 1) + {Numbered(base, k - 1)}
  }

  lemma {:induction false} NotTriedYet(base: string, k: nat, j: nat)
    requires j <= k
    ensures Numbered(base, k) !in Tried(base, j)
    decreases j
  {
    if j > 2 {
      NotTriedYet(base, k, j - 1);
      if Numbered(base, k) == Numbered(base, j - 1) { NumberedInjective(base, k, j - 1); }
    }
  }

  lemma {:induction false} TriedSize(base: string, k: nat)
    requires k >= 2
    ensures |Tried(base, k)| == k - 2
    decreases k
  {
    if k > 2 {
      TriedSize(base, k - 1);
      NotTriedYet(base, k - 1, k - 1);
    }
  }

  lemma {:induction false} TriedHas(base: string, k: nat, j: nat)
    requires 2 <= j < k
    ensures Numbered(base, j) in Tried(base, k)
    decreases k
  {
    if j < k - 1 { TriedHas(base, k - 1, j); }
  }

  lemma SubsetSize(a: set<string>, b: set<string>)
    requires a <= b
    ensures |a| <= |b|
  {
    assert |b - a| == |b| - |a|;
  }

  predicate AllUsed(base: string, used: set<string>, k: nat) {
    forall j: nat | 2 <= j < k :: Numbered(base, j) in used
  }

  lemma {:induction false} TriedAllUsed(base: string, used: set<string>, k: nat)
    requires AllUsed(base, used, k)
    ensures Tried(base, k) <= used
    decreases k
  {
    if k > 2 { TriedAllUsed(base, used, k - 1); }
  }

  /** The numbered names in use are distinct, so there are no more of them than names in use. */
  lemma UsedBound(base: string, used: set<string>, k: nat)
    requires k >= 2 && AllUsed(base, used, k)
    ensures k - 2 <= |used|
  {
    TriedAllUsed(base, used, k);
    TriedSize(base, k);
    SubsetSize(Tried(base, k), used);
  }

  /** The names in use are the base, among the first numbered names, and nothing else. */
  predicate OnlyNumbered(base: string, used: set<string>) {
    base in used && used == Tried(base, |used| + 2)
  }

  lemma SameSize(a: set<string>, b: set<string>)
    requires a <= b && |a| == |b|
    ensures a == b
  {
    assert |b - a| == 0;
    assert b == a + (b - a);
  }

  /** As many numbered names were taken as there are names in use exactly when these are the names in use. */
  lemma ManyQueries(base: string, used: set<string>, name: string, queries: nat)
    requires FirstUnused(base, used, name, queries) && 1 <= queries <= |used| + 2
    ensures queries == |used| + 2 <==> OnlyNumbered(base, used)
  {
    if queries == |used| + 2 {
      TriedAllUsed(base, used, queries);
      TriedSize(base, queries);
      SameSize(Tried(base, queries), used);
    } else if OnlyNumbered(base, used) && queries > 1 {
      TriedHas(base, |used| + 2, queries);
    }
  }

  /** The first name in the order base, base-2, base-3, ... that is not in use. */
  ghost predicate FirstUnused(base: string, used: set<string>, name: string, queries: nat) {
    && name !in used
    && (queries == 1 ==> name == base)
    && (queries > 1 ==> base in used && name == Numbered(base, queries) && AllUsed(base, used, queries))
  }

  /**
    Number the base until a name is unused. One query for each name in use and one more are
    enough, except when the names in use are exactly the first numbered names and the base is one
    of them: then it takes one query more.
   */
  method Search(base: string, used: set<string>) returns (name: string, queries: nat)
    ensures 1 <= queries <= |used| + 2
    ensures FirstUnused(base, used, name, queries)
    ensures queries > |used| + 1 <==> base in used && used == Tried(base, |used| + 2)
  {
    name := base;
    var suffix := 2;
    while name in used
      invariant 2 <= suffix <= |used| + 3
      invariant suffix == 2 ==> name == base
      invariant suffix > 2 ==> base in used && name == Numbered(base, suffix - 1) && AllUsed(base, used, suffix - 1)
      decreases |used| + 4 - suffix
    {
      UsedBound(base, used, suffix);
      name := Numbered(base, suffix);
      suffix := suffix + 1;
    }
    queries := suffix - 1;
    ManyQueries(base, used, name, queries);
  }

  lemma FirstUnusedCanonical(base: string, used: set<string>, name: string, queries: nat)
    requires Canonical(base) && FirstUnused(base, used, name, queries) && 1 <= queries < SUFFIXES
    ensures Canonical(name)
  {
    if queries > 1 { NumberedCanonical(base, queries); }
  }

  const STEM: string := seq(30, i => 'a')
  const ASKED_TWICE: string := STEM + "-2"

  lemma AskedTwiceNumbered()
    ensures Numbered(ASKED_TWICE, 2) == ASKED_TWICE
  {
    assert Digits(2) == "2" && SuffixText(2) == "-2";
    assert Take(ASKED_TWICE, 30) == STEM && RStripHyphen(STEM) == STEM;
  }

  // ----- Registration -----

  datatype NameError = InvalidName(message: string) | AlreadyRegistered(name: string)

  function BaseName(email: string, hex: string): string {
    var base := Slug(email);
    if |base| < 3 || |base| > LONGEST || !Matches(base) then "user-" + hex else base
  }

  lemma BaseNameCanonical(email: string, hex: string)
    requires |hex| == 12 && HexDigits(hex)
    ensures Canonical(BaseName(email, hex))
  {
    UserNameCanonical(hex);
  }

  lemma {:induction false} LocalPartBefore(local: string, domain: string)
    requires forall i | 0 <= i < |local| :: local[i] != '@'
    ensures LocalPart(local + ("@" + domain)) == local
    decreases |local|
  {
    var email := local + ("@" + domain);
    if local == [] {
      assert email[0] == '@';
    } else {
      assert email[1..] == local[1..] + ("@" + domain);
      LocalPartBefore(local[1..], domain);
    }
  }

  lemma {:induction false} CollapseKeeps(s: string)
    requires NoDouble(s) && forall i | 0 <= i < |s| :: Alnum(s[i]) || s[i] == '-'
    ensures Collapse(s) == s
    decreases |s|
  {
    if s != [] {
      assert forall i | 0 <= i < |s[1..]| :: s[1..][i] == s[i + 1];
      CollapseKeeps(s[1..]);
    }
  }

  lemma StripKeeps(s: string)
    requires s != [] && s[0] != '-' && s[|s| - 1] != '-'
    ensures RStripHyphen(LStripHyphen(s)) == s
  {
  }

  lemma LowerKeeps(s: string)
    requires forall i | 0 <= i < |s| :: Alnum(s[i]) || s[i] == '-'
    ensures Lower(s) == s
  {
  }

  lemma SlugOfAddress(name: string, domain: string)
    requires Canonical(name)
    ensures Slug(name + ("@" + domain)) == name
  {
    LocalPartBefore(name, domain);
    LowerKeeps(name);
    CollapseKeeps(name);
    StripKeeps(name);
  }

  /** Every canonical name of three characters or more is the base made from some address. */
  lemma NameOfAddress(name: string, domain: string, hex: string)
    requires Canonical(name) && |name| >= 3
    ensures BaseName(name + ("@" + domain), hex) == name
  {
    SlugOfAddress(name, domain);
  }

  lemma AskedTwiceAddress(hex: string, domain: string)
    ensures BaseName(ASKED_TWICE + ("@" + domain), hex) == ASKED_TWICE
  {
    NumberedParts(STEM, "2");
    NameOfAddress(ASKED_TWICE, domain, hex);
  }

  lemma AskedTwiceUsed(used: set<string>)
    requires used == {ASKED_TWICE}
    ensures FirstUnused(ASKED_TWICE, used, Numbered(ASKED_TWICE, 3), 3)
  {
    AskedTwiceNumbered();
    if Numbered(ASKED_TWICE, 3) == Numbered(ASKED_TWICE, 2) { NumberedInjective(ASKED_TWICE, 3, 2); }
    assert AllUsed(ASKED_TWICE, used, 3);
  }

  /**
    The base may itself be one of the numbered names, and is then asked for twice: with this
    address, whatever its domain, and this one name in use.
   */
  lemma BaseAskedTwice()
    ensures forall hex, domain :: BaseName(ASKED_TWICE + ("@" + domain), hex) == ASKED_TWICE
    ensures FirstUnused(ASKED_TWICE, {ASKED_TWICE}, Numbered(ASKED_TWICE, 3), |{ASKED_TWICE}| + 2)
  {
    AskedTwiceUsed({ASKED_TWICE});
    forall hex: string, domain: string ensures BaseName(ASKED_TWICE + ("@" + domain), hex) == ASKED_TWICE {
      AskedTwiceAddress(hex, domain);
    }
  }

  /** A name for a new human: the requested one in canonical form, or one made from the address. */
  method AvailableHumanUsername(requested: Option<string>, email: string, hex: string, used: set<string>)
    returns (r: Result<string, NameError>)
    requires |hex| == 12 && HexDigits(hex)
    ensures r.Ok? ==> r.value !in used
    ensures r.Ok? && |used| + 2 < SUFFIXES ==> Canonical(r.value)
    ensures requested.Some? && Canonicalize(requested.value).Err? ==> r.Err? && r.error.InvalidName?
    ensures requested.Some? && Canonicalize(requested.value).Ok? ==>
              var name := Canonicalize(requested.value).value;
              r == if name in used then Err(AlreadyRegistered(name)) else Ok(name)
    ensures requested.None? ==> r.Ok? && exists queries ::
      1 <= queries <= |used| + 2 && FirstUnused(BaseName(email, hex), used, r.value, queries)
  {
    if requested.Some? {
      var canonical := Canonicalize(requested.value);
      if canonical.Err? { return Err(InvalidName(canonical.error)); }
      CanonicalizeTwice(requested.value);
      if canonical.value in used { return Err(AlreadyRegistered(canonical.value)); }
      return Ok(canonical.value);
    }
    var base := BaseName(email, hex);
    BaseNameCanonical(email, hex);
    var name, queries := Search(base, used);
    if |used| + 2 < SUFFIXES { FirstUnusedCanonical(base, used, name, queries); }
    r := Ok(name);
  }

  // ----- The backfill -----

  datatype Row = Row(id: string, email: string, displayName: string)

  /** At most the first twelve characters. */
  function Twelve(s: string): string {
    if |s| > 12 then s[..12] else s
  }

  function BackfillBase(row: Row): string {
    var display := StripLower(row.displayName);
    if Matches(display) && NoDouble(display) then display
    else
      var email := Slug(row.email);
      if Matches(email) && NoDouble(email) then email
      else
        var identifier := Twelve(FilterHex(Lower(row.id)));
        "user-" + if identifier == [] then "legacy" else identifier
  }

  lemma BackfillBaseCanonical(row: Row)
    ensures Canonical(BackfillBase(row))
  {
    var identifier := Twelve(FilterHex(Lower(row.id)));
    UserNameCanonical(if identifier == [] then "legacy" else identifier);
  }

  function Names(names: seq<string>): set<string> {
    set i | 0 <= i < |names| :: names[i]
  }

  lemma {:induction false} NamesSize(names: seq<string>)
    ensures |Names(names)| <= |names|
    decreases |names|
  {
    if names == [] {
      assert Names(names) == {};
    } else {
      var n := |names| - 1;
      NamesSize(names[..n]);
      assert Names(names) == Names(names[..n]) + {names[n]};
    }
  }

  ghost predicate GivenInTurn(row: Row, earlier: seq<string>, name: string) {
    exists queries :: 1 <= queries <= |earlier| + 2 && FirstUnused(BackfillBase(row), Names(earlier), name, queries)
  }

  /** Each name was the first unused one when its row's turn came. */
  ghost predicate Turns(rows: seq<Row>, names: seq<string>) {
    names == [] ||
    (|names| <= |rows| && Turns(rows, names[..|names| - 1])
     && GivenInTurn(rows[|names| - 1], names[..|names| - 1], names[|names| - 1]))
  }

  predicate AllCanonical(names: seq<string>) {
    forall i | 0 <= i < |names| :: Canonical(names[i])
  }

  lemma TurnsMore(rows: seq<Row>, names: seq<string>, name: string)
    requires Turns(rows, names) && |names| < |rows| && GivenInTurn(rows[|names|], names, name)
    ensures Turns(rows, names + [name])
  {
    TurnsUnfold(rows, names + [name], names, name);
  }

  lemma TurnsUnfold(rows: seq<Row>, all: seq<string>, names: seq<string>, name: string)
    requires all == names + [name] && |all| <= |rows|
    ensures Turns(rows, all) <==> Turns(rows, names) && GivenInTurn(rows[|names|], names, name)
  {
    assert all[..|all| - 1] == names && all[|all| - 1] == name;
  }

  lemma DistinctMore(names: seq<string>, name: string)
    requires Distinct(names) && name !in Names(names)
    ensures Distinct(names + [name])
  {
    forall i | 0 <= i < |names| ensures names[i] != name { assert names[i] in Names(names); }
  }

  lemma CanonicalMore(names: seq<string>, row: Row, used: set<string>, name: string, queries: nat)
    requires AllCanonical(names) && FirstUnused(BackfillBase(row), used, name, queries) && 1 <= queries < SUFFIXES
    ensures AllCanonical(names + [name])
  {
    BackfillBaseCanonical(row);
    FirstUnusedCanonical(BackfillBase(row), used, name, queries);
  }

  /** Every row gets its base, or its base with the first free number, in the order of the rows. */
  method Backfill(rows: seq<Row>) returns (names: seq<string>)
    ensures |names| == |rows|
    ensures Distinct(names) && Turns(rows, names)
    ensures |rows| + 1 < SUFFIXES ==> AllCanonical(names)
  {
    names := [];
    var used: set<string> := {};
    for n := 0 to |rows|
      invariant |names| == n && used == Names(names)
      invariant Distinct(names) && Turns(rows, names)
      invariant |rows| + 1 < SUFFIXES ==> AllCanonical(names)
    {
      var candidate, queries := Search(BackfillBase(rows[n]), used);
      NamesSize(names);
      assert GivenInTurn(rows[n], names, candidate);
      TurnsMore(rows, names, candidate);
      DistinctMore(names, candidate);
      if |rows| + 1 < SUFFIXES { CanonicalMore(names, rows[n], used, candidate, queries); }
      NamesAdded(names, candidate);
      names := names + [candidate];
      used := used + {candidate};
    }
  }

  lemma NamesAdded(names: seq<string>, name: string)
    ensures Names(names + [name]) == Names(names) + {name}
  {
    var all := names + [name];
    forall x | x in Names(names) + {name} ensures x in Names(all) {
      if x in Names(names) {
        var i :| 0 <= i < |names| && names[i] == x;
        assert all[i] == x;
      } else {
        assert all[|names|] == x;
      }
    }
  }
}
