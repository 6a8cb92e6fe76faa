/** What the text operations on usernames amount to: words joined by hyphens; case and padding do not matter. */
module UsernameForms {
  import opened Prelude
  import opened Usernames

  // ----- A slug is the words of the local part, joined by single hyphens -----

  /** The maximal runs of letters and digits. */
  function Words(s: string): (words: seq<string>)
    ensures s != [] && Alnum(s[0]) ==> words != []
    ensures forall i | 0 <= i < |words| :: words[i] != [] && forall j | 0 <= j < |words[i]| :: Alnum(words[i][j])
  {
    if s == [] then []
    else if !Alnum(s[0]) then Words(s[1..])
    else if |s| > 1 && Alnum(s[1]) then
      var rest := Words(s[1..]);
      [[s[0]] + rest[0]] + rest[1..]
    else [[s[0]]] + Words(s[1..])
  }

  function Join(words: seq<string>): string {
    if words == [] then []
    else if |words| == 1 then words[0]
    else words[0] + "-" + Join(words[1..])
  }

  /** The words with a hyphen before them if the text starts between words, and after them if it ends so. */
  function Framed(s: string): string {
    var words := Words(s);
    if s == [] then []
    else if words == [] then "-"
    else (if Alnum(s[0]) then [] else "-") + Join(words) + (if Alnum(s[|s| - 1]) then [] else "-")
  }

  lemma JoinFirst(c: char, words: seq<string>)
    requires words != []
    ensures Join([[c] + words[0]] + words[1..]) == [c] + Join(words)
  {
    var first, rest := [c] + words[0], words[1..];
    var all := [first] + rest;
    assert all[0] == first && all[1..] == rest;
    if rest != [] {
      var tail := Join(rest);
      assert Join(all) == first + "-" + tail;
      Prepended([c], words[0], "-" + tail);
      Prepended(first, "-", tail);
      Prepended(words[0], "-", tail);
    }
  }

  lemma Prepended(a: string, b: string, c: string)
    ensures a + b + c == a + (b + c)
  {
  }

  lemma JoinNext(w: string, words: seq<string>)
    requires words != []
    ensures Join([w] + words) == w + "-" + Join(words)
  {
    assert ([w] + words)[1..] == words;
  }

  lemma {:induction false} NoWords(s: string)
    requires Words(s) == []
    ensures forall i | 0 <= i < |s| :: !Alnum(s[i])
    decreases |s|
  {
    if s != [] {
      NoWords(s[1..]);
      assert forall i | 0 < i < |s| :: s[i] == s[1..][i - 1];
    }
  }

  lemma InsideWord(s: string)
    requires |s| > 1 && Alnum(s[0]) && Alnum(s[1])
    ensures Framed(s) == [s[0]] + Framed(s[1..])
  {
    var rest := s[1..];
    JoinFirst(s[0], Words(rest));
    var joined, end := Join(Words(rest)), if Alnum(s[|s| - 1]) then [] else "-";
    assert rest[|rest| - 1] == s[|s| - 1];
    assert [] + ([s[0]] + joined) + end == [s[0]] + ([] + joined + end);
  }

  lemma EndOfWord(s: string)
    requires |s| > 1 && Alnum(s[0]) && !Alnum(s[1])
    ensures Framed(s) == [s[0]] + Framed(s[1..])
  {
    var rest := s[1..];
    var words := Words(rest);
    assert Words(s) == [[s[0]]] + words && rest[|rest| - 1] == s[|s| - 1];
    if words == [] {
      NoWords(rest);
      OneWord(s);
    } else {
      JoinNext([s[0]], words);
      Regroup([s[0]], Join(words), if Alnum(s[|s| - 1]) then [] else "-");
    }
  }

  lemma OneWord(s: string)
    requires |s| > 1 && Words(s) == [[s[0]]] && Alnum(s[0]) && !Alnum(s[|s| - 1])
    ensures Framed(s) == [s[0]] + "-"
  {
    assert [] + [s[0]] + "-" == [s[0]] + "-";
  }

  lemma Regroup(c: string, joined: string, end: string)
    ensures [] + (c + "-" + joined) + end == c + ("-" + joined + end)
  {
  }

  lemma OutsideWord(s: string)
    requires |s| > 1 && !Alnum(s[0])
    ensures Framed(s) == if Alnum(s[1]) then "-" + Framed(s[1..]) else Framed(s[1..])
  {
    var rest := s[1..];
    var joined, end := Join(Words(rest)), if Alnum(s[|s| - 1]) then [] else "-";
    assert rest[|rest| - 1] == s[|s| - 1];
    if Alnum(s[1]) { assert "-" + joined + end == "-" + ([] + joined + end); }
  }

  lemma FrameStarts(s: string)
    requires s != []
    ensures Framed(s) != [] && (Framed(s)[0] == '-' <==> !Alnum(s[0]))
  {
    if Words(s) != [] { JoinEnds(Words(s)); }
  }

  lemma OneCharacter(s: string)
    requires |s| == 1
    ensures Collapse(s) == Framed(s)
  {
    assert s[1..] == [] && Collapse([]) == [] && Words([]) == [];
    assert Collapse(s) == if Alnum(s[0]) then [s[0]] else "-";
    if Alnum(s[0]) {
      assert Words(s) == [[s[0]]] && Join(Words(s)) == [s[0]];
      assert [] + [s[0]] + [] == [s[0]];
    } else {
      assert Words(s) == [];
    }
  }

  lemma {:induction false} CollapseFrames(s: string)
    ensures Collapse(s) == Framed(s)
    decreases |s|
  {
    if |s| == 1 {
      OneCharacter(s);
    } else if |s| > 1 {
      CollapseFrames(s[1..]);
      FrameStarts(s[1..]);
      if !Alnum(s[0]) { OutsideWord(s); } else if Alnum(s[1]) { InsideWord(s); } else { EndOfWord(s); }
    }
  }

  lemma {:induction false} JoinEnds(words: seq<string>)
    requires words != []
    requires forall i | 0 <= i < |words| :: words[i] != [] && forall j | 0 <= j < |words[i]| :: Alnum(words[i][j])
    ensures var r := Join(words); r != [] && Alnum(r[0]) && Alnum(r[|r| - 1])
    decreases |words|
  {
    if |words| > 1 {
      JoinEnds(words[1..]);
      var r, tail := Join(words), Join(words[1..]);
      assert r[|r| - 1] == tail[|tail| - 1];
    }
  }

  /** Lower-casing, collapsing and stripping leave the words of the local part, joined by single hyphens. */
  lemma SlugIsWords(email: string)
    ensures Slug(email) == Join(Words(Lower(LocalPart(email))))
  {
    var s := Lower(LocalPart(email));
    CollapseFrames(s);
    var words := Words(s);
    if words == [] {
      assert LStripHyphen("-") == [];
    } else {
      JoinEnds(words);
      StripFrame(Join(words), s != [] && !Alnum(s[0]), s != [] && !Alnum(s[|s| - 1]));
    }
  }

  lemma LStripFrame(t: string, before: bool)
    requires t != [] && t[0] != '-'
    ensures LStripHyphen((if before then "-" else []) + t) == t
  {
    if before { assert ("-" + t)[1..] == t; } else { assert [] + t == t; }
  }

  lemma RStripFrame(r: string, after: bool)
    requires r != [] && r[|r| - 1] != '-'
    ensures RStripHyphen(r + if after then "-" else []) == r
  {
    if after { assert (r + "-")[..|r|] == r; } else { assert r + [] == r; }
  }

  lemma StripFrame(r: string, before: bool, after: bool)
    requires r != [] && r[0] != '-' && r[|r| - 1] != '-'
    ensures RStripHyphen(LStripHyphen((if before then "-" else []) + r + if after then "-" else [])) == r
  {
    var tail := r + if after then "-" else [];
    assert (if before then "-" else []) + r + (if after then "-" else []) == (if before then "-" else []) + tail;
    LStripFrame(tail, before);
    RStripFrame(r, after);
  }

  // ----- Case and padding -----

  /** The same letter or digit, of whichever case, or the same other character in lower case. */
  predicate SameLetter(c: char, d: char) {
    if 'A' <= c <= 'Z' then d as int == c as int + ('a' as int - 'A' as int) else c == d
  }

  predicate SameText(s: string, t: string) {
    |s| == |t| && forall i | 0 <= i < |s| :: SameLetter(s[i], t[i])
  }

  predicate Blank(s: string) {
    forall i | 0 <= i < |s| :: s[i] in {' ', '\t', '\n', '\r'} || (s[i] as int) in {11, 12, 28, 29, 30, 31}
  }

  /** The value is the name with other letters in upper case, and blanks around it. */
  ghost predicate Spells(value: string, name: string) {
    exists left: string, middle: string, right: string ::
      value == left + middle + right && Blank(left) && Blank(right) && SameText(middle, name)
  }

  lemma LowerIsSame(s: string, t: string)
    ensures SameText(s, t) <==> Lower(s) == t
  {
  }

  lemma {:induction false} LStripBlank(left: string, s: string)
    requires Blank(left) && s != [] && !Space(s[0])
    ensures LStrip(left + s) == s
    decreases |left|
  {
    if left == [] {
      assert left + s == s;
    } else {
      assert (left + s)[1..] == left[1..] + s;
      LStripBlank(left[1..], s);
    }
  }

  lemma {:induction false} RStripBlank(s: string, right: string)
    requires Blank(right) && s != [] && !Space(s[|s| - 1])
    ensures RStripSpace(s + right) == s
    decreases |right|
  {
    if right == [] {
      assert s + right == s;
    } else {
      var n := |right| - 1;
      assert (s + right)[..|s| + n] == s + right[..n];
      RStripBlank(s, right[..n]);
    }
  }

  lemma {:induction false} LStripped(s: string) returns (left: string)
    ensures s == left + LStrip(s) && Blank(left)
    decreases |s|
  {
    left := [];
    if s != [] && Space(s[0]) {
      var more := LStripped(s[1..]);
      left := [s[0]] + more;
    }
  }

  lemma {:induction false} RStripped(s: string) returns (right: string)
    ensures s == RStripSpace(s) + right && Blank(right)
    decreases |s|
  {
    right := [];
    if s != [] && Space(s[|s| - 1]) {
      var more := RStripped(s[..|s| - 1]);
      right := more + [s[|s| - 1]];
    }
  }

  lemma SpelledCanonicalizes(value: string, name: string)
    requires Canonical(name) && Spells(value, name)
    ensures Canonicalize(value) == Ok(name)
  {
    var left: string, middle: string, right: string :|
      value == left + middle + right && Blank(left) && Blank(right) && SameText(middle, name);
    LowerIsSame(middle, name);
    assert SameLetter(middle[0], name[0]) && SameLetter(middle[|middle| - 1], name[|name| - 1]);
    assert value == left + (middle + right);
    LStripBlank(left, middle + right);
    RStripBlank(middle, right);
  }

  /** Exactly the values that spell a canonical name, in any case and padding, are accepted as that name. */
  lemma CanonicalizeIffSpells(value: string, name: string)
    ensures Canonicalize(value) == Ok(name) <==> Canonical(name) && Spells(value, name)
  {
    if Canonicalize(value) == Ok(name) {
      var left := LStripped(value);
      var right := RStripped(LStrip(value));
      var middle := RStripSpace(LStrip(value));
      assert value == left + middle + right;
      LowerIsSame(middle, name);
      assert SameText(middle, name);
    }
    if Canonical(name) && Spells(value, name) { SpelledCanonicalizes(value, name); }
  }

  // ----- Registration and the backfill -----

  /** A registration without a wish gets the words of its address if they make 3 to 32 characters. */
  lemma BaseIsWords(email: string, hex: string)
    ensures var words := Join(Words(Lower(LocalPart(email))));
            BaseName(email, hex) == if 3 <= |words| <= 32 then words else "user-" + hex
  {
    SlugIsWords(email);
    SlugMatches(email);
  }

  lemma {:induction false} JoinChars(words: seq<string>)
    requires forall i | 0 <= i < |words| :: words[i] != [] && forall j | 0 <= j < |words[i]| :: Alnum(words[i][j])
    ensures forall i | 0 <= i < |Join(words)| :: Alnum(Join(words)[i]) || Join(words)[i] == '-'
    decreases |words|
  {
    if |words| > 1 { JoinChars(words[1..]); }
  }

  /** The first twelve hexadecimal digits of an id, or a word if it has none. */
  function Identifier(id: string): string {
    var digits := FilterHex(Lower(id));
    if digits == [] then "legacy" else if |digits| <= 12 then digits else digits[..12]
  }

  lemma IdentifierIsTwelve(id: string)
    ensures Identifier(id) == if Twelve(FilterHex(Lower(id))) == [] then "legacy" else Twelve(FilterHex(Lower(id)))
  {
  }

  /** Upper-case digits count as the lower-case ones, and everything else is left out. */
  lemma {:induction false} HexDigitsOf(id: string, digits: string)
    requires SameText(id, digits) && HexDigits(digits)
    ensures FilterHex(Lower(id)) == digits
  {
    LowerIsSame(id, digits);
    AllHex(digits);
  }

  lemma {:induction false} AllHex(s: string)
    requires HexDigits(s)
    ensures FilterHex(s) == s
    decreases |s|
  {
    if s != [] { AllHex(s[1..]); }
  }

  /**
    The backfill takes a display name that spells a canonical name, else what a registration with
    the address would get, which differs only for an address of one letter or digit.
   */
  lemma BackfillAgrees(row: Row, hex: string)
    ensures Canonicalize(row.displayName).Ok? ==> BackfillBase(row) == Canonicalize(row.displayName).value
    ensures var words := Join(Words(Lower(LocalPart(row.email))));
            Canonicalize(row.displayName).Err? ==>
              && (3 <= |words| <= 32 ==> BackfillBase(row) == words == BaseName(row.email, hex))
              && (|words| == 1 ==> BackfillBase(row) == words)
              && (|words| in {0, 2} || |words| > 32 ==> BackfillBase(row) == "user-" + Identifier(row.id))
  {
    BaseIsWords(row.email, hex);
    SlugIsWords(row.email);
    SlugMatches(row.email);
    IdentifierIsTwelve(row.id);
  }

  lemma EdgesMatch(r: string)
    requires forall i | 0 <= i < |r| :: Alnum(r[i]) || r[i] == '-'
    requires r != [] ==> Alnum(r[0]) && Alnum(r[|r| - 1])
    ensures Matches(r) <==> |r| == 1 || 3 <= |r| <= 32
  {
  }

  /** A slug is canonical exactly if it has one character or 3 to 32. */
  lemma SlugMatches(email: string)
    ensures var words := Join(Words(Lower(LocalPart(email))));
            Matches(Slug(email)) && NoDouble(Slug(email)) <==> |words| == 1 || 3 <= |words| <= 32
  {
    SlugIsWords(email);
    WordsMatch(Words(Lower(LocalPart(email))));
  }

  lemma WordsMatch(words: seq<string>)
    requires forall i | 0 <= i < |words| :: words[i] != [] && forall j | 0 <= j < |words[i]| :: Alnum(words[i][j])
    ensures Matches(Join(words)) <==> |Join(words)| == 1 || 3 <= |Join(words)| <= 32
  {
    if words != [] { JoinEnds(words); }
    JoinChars(words);
    EdgesMatch(Join(words));
  }
}
