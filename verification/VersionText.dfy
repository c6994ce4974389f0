/** The text side of the release script (scripts/release_version.py): finding a version number on a
    line of CMakeLists.txt with a regular expression, and replacing the digits of that line. */
module VersionText {

  datatype Option<T> = None | Some(value: T)

  predicate IsDigit(c: char) { '0' <= c <= '9' }

  /** The ASCII characters that \s stands for. */
  predicate IsSpace(c: char) { '\t' <= c <= '\r' || '\U{1C}' <= c <= ' ' }

  // ---- Runs of characters

  function Digits(s: string): (r: string) {
    if s != "" && IsDigit(s[0]) then [s[0]] + Digits(s[1..]) else ""
  }

  function AfterDigits(s: string): (r: string)
    ensures |r| <= |s|
    ensures s != "" && IsDigit(s[0]) ==> |r| < |s|
    ensures r == "" || !IsDigit(r[0])
  {
    if s != "" && IsDigit(s[0]) then AfterDigits(s[1..]) else s
  }

  function Word(s: string): string {
    if s != "" && !IsSpace(s[0]) then [s[0]] + Word(s[1..]) else ""
  }

  function AfterWord(s: string): string {
    if s != "" && !IsSpace(s[0]) then AfterWord(s[1..]) else s
  }

  function AfterSpaces(s: string): string {
    if s != "" && IsSpace(s[0]) then AfterSpaces(s[1..]) else s
  }

  // ---- Numbers

  function Decimal(n: nat): (s: string)
    ensures AllDigits(s)
  {
    if n < 10 then [DigitChar(n)] else Decimal(n / 10) + [DigitChar(n % 10)]
  }

  function DigitChar(n: nat): (c: char)
    requires n < 10
    ensures IsDigit(c)
  {
    '0' + n as char
  }

  predicate AllDigits(s: string) {
    s != "" && forall i :: 0 <= i < |s| ==> IsDigit(s[i])
  }

  predicate NoDigits(s: string) {
    forall i :: 0 <= i < |s| ==> !IsDigit(s[i])
  }

  function ParseInt(s: string): nat
    requires AllDigits(s)
  {
    var last := (s[|s| - 1] - '0') as nat;
    if |s| == 1 then last else 10 * ParseInt(s[..|s| - 1]) + last
  }

  lemma {:induction false} ParseIntOfDecimal(n: nat)
    ensures ParseInt(Decimal(n)) == n
  {
    if n >= 10 {
      ParseIntOfDecimal(n / 10);
      var s := Decimal(n);
      assert s[..|s| - 1] == Decimal(n / 10);
    }
  }

  // ---- The two patterns

  /** At the start of s: set(LIB_VERSION_(\S+)\s+(\d+)\) with its two groups. `lead` is all up to the
      first group. What follows a run of the first three is no part of it, so there is no choice. */
  function MatchPairHere(lead: string, s: string): Option<(string, string)> {
    if !(lead <= s) then None
    else
      var word := Word(s[|lead|..]);
      var gap := AfterWord(s[|lead|..]);
      var number := AfterSpaces(gap);
      if word != "" && number != gap && Digits(number) != "" && ")" <= AfterDigits(number)
      then Some((word, Digits(number)))
      else None
  }

  /** At the start of s: set(SHMDATA_REQUIRED_VERSION (\d+\.\d+)\) with the two numbers of its group. */
  function MatchDottedHere(lead: string, s: string): Option<(string, string)> {
    if !(lead <= s) then None
    else
      var first := s[|lead|..];
      var dot := AfterDigits(first);
      if Digits(first) != "" && "." <= dot && Digits(dot[1..]) != "" && ")" <= AfterDigits(dot[1..])
      then Some((Digits(first), Digits(dot[1..])))
      else None
  }

  /** re.search: the leftmost match. */
  function SearchPair(lead: string, s: string): Option<(string, string)> {
    if MatchPairHere(lead, s).Some? then MatchPairHere(lead, s)
    else if s == "" then None
    else SearchPair(lead, s[1..])
  }

  function SearchDotted(lead: string, s: string): Option<(string, string)> {
    if MatchDottedHere(lead, s).Some? then MatchDottedHere(lead, s)
    else if s == "" then None
    else SearchDotted(lead, s[1..])
  }

  // ---- The two substitutions

  /** re.sub(r"\d+", d, s): every run of digits. */
  function SubDigits(s: string, d: string): string
    decreases |s|
  {
    if s == "" then ""
    else if IsDigit(s[0]) then d + SubDigits(AfterDigits(s), d)
    else [s[0]] + SubDigits(s[1..], d)
  }

  /** re.sub(r"\d+\.\d+", a.b, s) */
  function SubDotted(s: string, a: string, b: string): string
    decreases |s|
  {
    if s == "" then ""
    else if IsDigit(s[0]) then
      var rest := AfterDigits(s);
      if "." <= rest && Digits(rest[1..]) != "" then a + ("." + (b + SubDotted(AfterDigits(rest[1..]), a, b)))
      else Digits(s) + SubDotted(rest, a, b)
    else [s[0]] + SubDotted(s[1..], a, b)
  }

  // ---- What a substitution does to the runs

  predicate DigitFree(s: string) { s == "" || !IsDigit(s[0]) }

  lemma {:induction false} CutDigits(s: string)
    ensures s == Digits(s) + AfterDigits(s)
    ensures s != "" && IsDigit(s[0]) ==> AllDigits(Digits(s))
    ensures s == "" || !IsDigit(s[0]) ==> Digits(s) == "" && AfterDigits(s) == s
  {
    if s != "" && IsDigit(s[0]) {
      CutDigits(s[1..]);
    }
  }

  /** A run of digits in front of something that starts otherwise. */
  lemma {:induction false} FrontRun(d: string, x: string)
    requires (forall i :: 0 <= i < |d| ==> IsDigit(d[i])) && DigitFree(x)
    ensures Digits(d + x) == d && AfterDigits(d + x) == x
    ensures Word(d + x) == d + Word(x) && AfterWord(d + x) == AfterWord(x)
  {
    FrontDigits(d, x);
    FrontWord(d, x);
  }

  lemma {:induction false} FrontDigits(d: string, x: string)
    requires (forall i :: 0 <= i < |d| ==> IsDigit(d[i])) && DigitFree(x)
    ensures Digits(d + x) == d && AfterDigits(d + x) == x
  {
    var s := d + x;
    if d == "" {
      assert s == x;
    } else {
      assert s[0] == d[0] && s[1..] == d[1..] + x;
      FrontDigits(d[1..], x);
    }
  }

  lemma {:induction false} FrontWord(d: string, x: string)
    requires forall i :: 0 <= i < |d| ==> IsDigit(d[i])
    ensures Word(d + x) == d + Word(x) && AfterWord(d + x) == AfterWord(x)
  {
    var s := d + x;
    if d == "" {
      assert s == x;
    } else {
      assert s[0] == d[0] && s[1..] == d[1..] + x;
      FrontWord(d[1..], x);
      assert Word(s) == [d[0]] + (d[1..] + Word(x));
    }
  }

  lemma {:induction false} WordIsDigitFree(s: string)
    ensures DigitFree(s) ==> DigitFree(Word(s)) && DigitFree(AfterWord(s))
    ensures AfterWord(s) == "" || IsSpace(AfterWord(s)[0])
  {
    if s != "" && !IsSpace(s[0]) {
      WordIsDigitFree(s[1..]);
    }
  }

  /** One step of SubDigits, whichever character comes first. */
  lemma {:induction false} SubDigitsStep(s: string, d: string)
    requires AllDigits(d)
    ensures DigitFree(s) ==> DigitFree(SubDigits(s, d))
    ensures s != "" && !IsDigit(s[0]) ==> SubDigits(s, d) == [s[0]] + SubDigits(s[1..], d)
    ensures s != "" && IsDigit(s[0]) ==> SubDigits(s, d) == d + SubDigits(AfterDigits(s), d)
    ensures s == "" <==> SubDigits(s, d) == ""
  {
  }

  lemma {:induction false} SubDigitsOfRun(run: string, x: string, d: string)
    requires AllDigits(run) && AllDigits(d) && DigitFree(x)
    ensures SubDigits(run + x, d) == d + SubDigits(x, d)
  {
    FrontRun(run, x);
  }

  lemma {:induction false} WordOfSub(s: string, d: string)
    requires AllDigits(d)
    ensures Word(SubDigits(s, d)) == SubDigits(Word(s), d)
    ensures AfterWord(SubDigits(s, d)) == SubDigits(AfterWord(s), d)
    decreases |s|
  {
    SubDigitsStep(s, d);
    if s != "" && IsDigit(s[0]) {
      var rest := AfterDigits(s);
      CutDigits(s);
      WordOfSub(rest, d);
      SubDigitsStep(rest, d);
      FrontRun(d, SubDigits(rest, d));
      FrontRun(Digits(s), rest);
      WordIsDigitFree(rest);
      SubDigitsOfRun(Digits(s), Word(rest), d);
    } else if s != "" && !IsSpace(s[0]) {
      WordOfSub(s[1..], d);
      assert Word(s)[1..] == Word(s[1..]);
    }
  }

  lemma {:induction false} SpacesOfSub(s: string, d: string)
    requires AllDigits(d)
    ensures AfterSpaces(SubDigits(s, d)) == SubDigits(AfterSpaces(s), d)
  {
    if s != "" && IsSpace(s[0]) {
      SpacesOfSub(s[1..], d);
    }
  }

  lemma {:induction false} LeadOfSub(lead: string, s: string, d: string)
    requires NoDigits(lead) && AllDigits(d)
    ensures lead <= SubDigits(s, d) <==> lead <= s
    ensures lead <= s ==> SubDigits(s, d)[|lead|..] == SubDigits(s[|lead|..], d)
  {
    if lead != "" {
      SubDigitsStep(s, d);
      if s != "" && s[0] == lead[0] {
        LeadOfSub(lead[1..], s[1..], d);
        assert lead <= s <==> lead[1..] <= s[1..];
        var t := SubDigits(s, d);
        assert t[1..] == SubDigits(s[1..], d);
        assert lead <= t <==> lead[1..] <= t[1..];
        if lead <= s {
          assert s[|lead|..] == s[1..][|lead[1..]|..];
          assert t[|lead|..] == t[1..][|lead[1..]|..];
        }
      }
    }
  }

  function Rewritten(m: Option<(string, string)>, d: string): Option<(string, string)> {
    match m
    case None => None
    case Some((word, _)) => Some((SubDigits(word, d), d))
  }

  lemma {:induction false} PairHereOfSub(lead: string, s: string, d: string)
    requires NoDigits(lead) && AllDigits(d)
    ensures MatchPairHere(lead, SubDigits(s, d)) == Rewritten(MatchPairHere(lead, s), d)
  {
    LeadOfSub(lead, s, d);
    if lead <= s {
      var x := s[|lead|..];
      WordOfSub(x, d);
      SubDigitsStep(Word(x), d);
      var gap := AfterWord(x);
      SpacesOfSub(gap, d);
      SpacesAreSpaces(gap, d);
      var number := AfterSpaces(gap);
      SubDigitsStep(number, d);
      CutDigits(number);
      if number != "" && IsDigit(number[0]) {
        SubDigitsStep(AfterDigits(number), d);
        FrontRun(d, SubDigits(AfterDigits(number), d));
      }
    }
  }

  lemma {:induction false} SpacesAreSpaces(s: string, d: string)
    requires AllDigits(d)
    ensures AfterSpaces(s) != s <==> s != "" && IsSpace(s[0])
    ensures AfterSpaces(SubDigits(s, d)) != SubDigits(s, d) <==> s != "" && IsSpace(s[0])
  {
    AfterSpacesIsShort(s);
    AfterSpacesIsShort(SubDigits(s, d));
  }

  lemma {:induction false} AfterSpacesIsShort(s: string)
    ensures |AfterSpaces(s)| <= |s|
    ensures s != "" && IsSpace(s[0]) ==> |AfterSpaces(s)| < |s|
  {
    if s != "" && IsSpace(s[0]) {
      AfterSpacesIsShort(s[1..]);
    }
  }

  predicate GoodLead(lead: string) {
    lead != "" && NoDigits(lead) && lead[0] != '.'
  }

  lemma {:induction false} SearchPairSkips(lead: string, d: string, x: string)
    requires GoodLead(lead) && forall i :: 0 <= i < |d| ==> IsDigit(d[i]) || d[i] == '.'
    ensures SearchPair(lead, d + x) == SearchPair(lead, x)
  {
    if d == "" {
      assert d + x == x;
    } else {
      assert (d + x)[1..] == d[1..] + x;
      SearchPairSkips(lead, d[1..], x);
    }
  }

  /** Replacing every run of digits on a line moves no match: what is found is the same text, with its
      runs replaced. */
  lemma {:induction false} SearchPairOfSub(lead: string, s: string, d: string)
    requires GoodLead(lead) && AllDigits(d)
    ensures SearchPair(lead, SubDigits(s, d)) == Rewritten(SearchPair(lead, s), d)
    decreases |s|
  {
    SubDigitsStep(s, d);
    PairHereOfSub(lead, s, d);
    if s != "" && IsDigit(s[0]) {
      CutDigits(s);
      SearchPairSkips(lead, Digits(s), AfterDigits(s));
      SearchPairSkips(lead, d, SubDigits(AfterDigits(s), d));
      SearchPairOfSub(lead, AfterDigits(s), d);
    } else if s != "" {
      SearchPairOfSub(lead, s[1..], d);
    }
  }

  lemma {:induction false} SubDigitsIs(w: string, d: string, k: string)
    requires AllDigits(d) && NoDigits(k)
    ensures SubDigits(w, d) == k <==> w == k
  {
    SubDigitsStep(w, d);
    if w != "" && !IsDigit(w[0]) && k != "" {
      SubDigitsIs(w[1..], d, k[1..]);
      assert SubDigits(w, d)[1..] == SubDigits(w[1..], d);
    } else if w != "" && IsDigit(w[0]) {
      assert SubDigits(w, d)[0] == d[0];
    }
  }

  lemma {:induction false} SubDigitsTwice(s: string, d: string, e: string)
    requires AllDigits(d) && AllDigits(e)
    ensures SubDigits(SubDigits(s, d), e) == SubDigits(s, e)
    decreases |s|
  {
    SubDigitsStep(s, d);
    if s != "" && IsDigit(s[0]) {
      var rest := AfterDigits(s);
      SubDigitsTwice(rest, d, e);
      SubDigitsStep(rest, d);
      SubDigitsOfRun(d, SubDigits(rest, d), e);
    } else if s != "" {
      SubDigitsTwice(s[1..], d, e);
    }
  }

  // ---- The same for the dotted pattern

  predicate StartsPair(s: string) {
    s != "" && IsDigit(s[0]) && "." <= AfterDigits(s) && Digits(AfterDigits(s)[1..]) != ""
  }

  /** What is left of s after the pair it starts with. */
  function AfterPair(s: string): (r: string)
    requires StartsPair(s)
    ensures |r| < |s| && DigitFree(r)
  {
    AfterDigits(AfterDigits(s)[1..])
  }

  lemma {:induction false} SubDottedStep(s: string, a: string, b: string)
    requires AllDigits(a) && AllDigits(b)
    ensures s == "" <==> SubDotted(s, a, b) == ""
    ensures DigitFree(s) <==> DigitFree(SubDotted(s, a, b))
    ensures s != "" && !IsDigit(s[0]) ==> SubDotted(s, a, b) == [s[0]] + SubDotted(s[1..], a, b)
    ensures StartsPair(s) ==> SubDotted(s, a, b) == a + ("." + (b + SubDotted(AfterPair(s), a, b)))
    ensures s != "" && IsDigit(s[0]) && !StartsPair(s) ==>
      SubDotted(s, a, b) == Digits(s) + SubDotted(AfterDigits(s), a, b)
  {
    CutDigits(s);
  }

  /** A pair in front of something that starts otherwise. */
  lemma {:induction false} FrontPair(a: string, b: string, x: string)
    requires AllDigits(a) && AllDigits(b) && DigitFree(x)
    ensures var s := a + ("." + (b + x));
      && Digits(s) == a && AfterDigits(s) == "." + (b + x) && AfterDigits(s)[1..] == b + x
      && Digits(b + x) == b && StartsPair(s) && AfterPair(s) == x
  {
    FrontRun(b, x);
    FrontRun(a, "." + (b + x));
  }

  lemma {:induction false} CutPair(s: string)
    requires StartsPair(s)
    ensures var b := Digits(AfterDigits(s)[1..]);
      AllDigits(Digits(s)) && AllDigits(b) && s == Digits(s) + ("." + (b + AfterPair(s)))
  {
    var dot := AfterDigits(s);
    CutDigits(s);
    CutDigits(dot[1..]);
    assert dot == "." + dot[1..];
    assert dot[1..] != "" && IsDigit(dot[1..][0]);
  }

  lemma {:induction false} LeadOfDotted(lead: string, s: string, a: string, b: string)
    requires NoDigits(lead) && AllDigits(a) && AllDigits(b)
    ensures lead <= SubDotted(s, a, b) <==> lead <= s
    ensures lead <= s ==> SubDotted(s, a, b)[|lead|..] == SubDotted(s[|lead|..], a, b)
  {
    if lead != "" {
      SubDottedStep(s, a, b);
      if s != "" && s[0] == lead[0] {
        LeadOfDotted(lead[1..], s[1..], a, b);
        assert lead <= s <==> lead[1..] <= s[1..];
        var t := SubDotted(s, a, b);
        assert t[1..] == SubDotted(s[1..], a, b);
        assert lead <= t <==> lead[1..] <= t[1..];
        if lead <= s {
          assert s[|lead|..] == s[1..][|lead[1..]|..];
          assert t[|lead|..] == t[1..][|lead[1..]|..];
        }
      }
    }
  }

  function Replaced(m: Option<(string, string)>, a: string, b: string): Option<(string, string)> {
    if m.None? then None else Some((a, b))
  }

  lemma {:induction false} DottedHereOfSub(lead: string, s: string, a: string, b: string)
    requires NoDigits(lead) && AllDigits(a) && AllDigits(b)
    ensures MatchDottedHere(lead, SubDotted(s, a, b)) == Replaced(MatchDottedHere(lead, s), a, b)
  {
    LeadOfDotted(lead, s, a, b);
    if lead <= s {
      var x := s[|lead|..];
      SubDottedStep(x, a, b);
      CutDigits(x);
      if StartsPair(x) {
        SubDottedStep(AfterPair(x), a, b);
        FrontPair(a, b, SubDotted(AfterPair(x), a, b));
      } else if x != "" && IsDigit(x[0]) {
        NoPairOfSub(x, a, b);
      }
    }
  }

  lemma {:induction false} NoPairOfSub(x: string, a: string, b: string)
    requires x != "" && IsDigit(x[0]) && !StartsPair(x) && AllDigits(a) && AllDigits(b)
    ensures !StartsPair(SubDotted(x, a, b))
  {
    var rest := AfterDigits(x);
    CutDigits(x);
    SubDottedStep(x, a, b);
    SubDottedStep(rest, a, b);
    FrontRun(Digits(x), SubDotted(rest, a, b));
    if "." <= rest {
      SubDottedStep(rest[1..], a, b);
      CutDigits(rest[1..]);
      CutDigits(SubDotted(rest[1..], a, b));
    }
  }

  lemma {:induction false} SearchDottedSkips(lead: string, d: string, x: string)
    requires GoodLead(lead) && forall i :: 0 <= i < |d| ==> IsDigit(d[i]) || d[i] == '.'
    ensures SearchDotted(lead, d + x) == SearchDotted(lead, x)
  {
    if d == "" {
      assert d + x == x;
    } else {
      assert (d + x)[1..] == d[1..] + x;
      SearchDottedSkips(lead, d[1..], x);
    }
  }

  lemma {:induction false} SearchDottedSkipsPair(lead: string, a: string, b: string, x: string)
    requires GoodLead(lead) && AllDigits(a) && AllDigits(b)
    ensures SearchDotted(lead, a + ("." + (b + x))) == SearchDotted(lead, x)
  {
    SearchDottedSkips(lead, a, "." + (b + x));
    SearchDottedSkips(lead, ".", b + x);
    SearchDottedSkips(lead, b, x);
  }

  /** Replacing every dotted pair of numbers on a line moves no match. */
  lemma {:induction false} SearchDottedOfSub(lead: string, s: string, a: string, b: string)
    requires GoodLead(lead) && AllDigits(a) && AllDigits(b)
    ensures SearchDotted(lead, SubDotted(s, a, b)) == Replaced(SearchDotted(lead, s), a, b)
    decreases |s|
  {
    SubDottedStep(s, a, b);
    DottedHereOfSub(lead, s, a, b);
    if StartsPair(s) {
      CutPair(s);
      SearchDottedSkipsPair(lead, Digits(s), Digits(AfterDigits(s)[1..]), AfterPair(s));
      SearchDottedSkipsPair(lead, a, b, SubDotted(AfterPair(s), a, b));
      SearchDottedOfSub(lead, AfterPair(s), a, b);
    } else if s != "" && IsDigit(s[0]) {
      CutDigits(s);
      SearchDottedSkips(lead, Digits(s), AfterDigits(s));
      SearchDottedSkips(lead, Digits(s), SubDotted(AfterDigits(s), a, b));
      SearchDottedOfSub(lead, AfterDigits(s), a, b);
    } else if s != "" {
      SearchDottedOfSub(lead, s[1..], a, b);
    }
  }

  lemma {:induction false} SubDottedTwice(s: string, a: string, b: string, c: string, d: string)
    requires AllDigits(a) && AllDigits(b) && AllDigits(c) && AllDigits(d)
    ensures SubDotted(SubDotted(s, a, b), c, d) == SubDotted(s, c, d)
    decreases |s|
  {
    SubDottedStep(s, a, b);
    SubDottedStep(s, c, d);
    SubDottedStep(SubDotted(s, a, b), c, d);
    if StartsPair(s) {
      SubDottedStep(AfterPair(s), a, b);
      FrontPair(a, b, SubDotted(AfterPair(s), a, b));
      SubDottedTwice(AfterPair(s), a, b, c, d);
    } else if s != "" && IsDigit(s[0]) {
      var rest := AfterDigits(s);
      NoPairOfSub(s, a, b);
      CutDigits(s);
      SubDottedStep(rest, a, b);
      FrontRun(Digits(s), SubDotted(rest, a, b));
      SubDottedTwice(rest, a, b, c, d);
    } else if s != "" {
      SubDottedTwice(s[1..], a, b, c, d);
    }
  }

  // ---- Each pattern under the substitution of the other

  lemma {:induction false} WordOfDotted(s: string, a: string, b: string)
    requires AllDigits(a) && AllDigits(b)
    ensures Word(SubDotted(s, a, b)) == SubDotted(Word(s), a, b)
    ensures AfterWord(SubDotted(s, a, b)) == SubDotted(AfterWord(s), a, b)
    decreases |s|
  {
    SubDottedStep(s, a, b);
    if StartsPair(s) {
      var rest := AfterPair(s);
      CutPair(s);
      WordOfDotted(rest, a, b);
      SubDottedStep(rest, a, b);
      WordOfPair(a, b, SubDotted(rest, a, b));
      WordOfPair(Digits(s), Digits(AfterDigits(s)[1..]), rest);
      WordIsDigitFree(rest);
      SubDottedOfPair(Digits(s), Digits(AfterDigits(s)[1..]), Word(rest), a, b);
    } else if s != "" && IsDigit(s[0]) {
      var rest := AfterDigits(s);
      CutDigits(s);
      WordOfDotted(rest, a, b);
      SubDottedStep(rest, a, b);
      FrontRun(Digits(s), SubDotted(rest, a, b));
      FrontRun(Digits(s), rest);
      WordHasNoPair(s);
      FrontRun(Digits(s), Word(rest));
      SubDottedStep(Word(s), a, b);
    } else if s != "" && !IsSpace(s[0]) {
      WordOfDotted(s[1..], a, b);
      SubDottedStep(Word(s), a, b);
      assert Word(s)[1..] == Word(s[1..]);
    }
  }

  lemma {:induction false} WordOfPair(a: string, b: string, x: string)
    requires AllDigits(a) && AllDigits(b) && DigitFree(x)
    ensures Word(a + ("." + (b + x))) == a + ("." + (b + Word(x)))
    ensures AfterWord(a + ("." + (b + x))) == AfterWord(x)
  {
    FrontWord(a, "." + (b + x));
    FrontWord(b, x);
    assert ("." + (b + x))[1..] == b + x;
  }

  lemma {:induction false} SubDottedOfPair(a: string, b: string, x: string, c: string, d: string)
    requires AllDigits(a) && AllDigits(b) && AllDigits(c) && AllDigits(d) && DigitFree(x)
    ensures SubDotted(a + ("." + (b + x)), c, d) == c + ("." + (d + SubDotted(x, c, d)))
  {
    FrontPair(a, b, x);
    SubDottedStep(a + ("." + (b + x)), c, d);
  }

  lemma {:induction false} WordHasNoPair(s: string)
    requires s != "" && IsDigit(s[0]) && !StartsPair(s)
    ensures !StartsPair(Word(s)) && DigitFree(Word(AfterDigits(s)))
  {
    var rest := AfterDigits(s);
    CutDigits(s);
    WordIsDigitFree(rest);
    FrontRun(Digits(s), rest);
    FrontRun(Digits(s), Word(rest));
    if "." <= Word(rest) {
      assert Word(rest)[0] == rest[0] && Word(rest)[1..] == Word(rest[1..]);
      WordIsDigitFree(rest[1..]);
      CutDigits(rest[1..]);
    }
  }

  lemma {:induction false} SpacesOfDotted(s: string, a: string, b: string)
    requires AllDigits(a) && AllDigits(b)
    ensures AfterSpaces(SubDotted(s, a, b)) == SubDotted(AfterSpaces(s), a, b)
    ensures AfterSpaces(SubDotted(s, a, b)) != SubDotted(s, a, b) <==> AfterSpaces(s) != s
  {
    SubDottedStep(s, a, b);
    AfterSpacesIsShort(s);
    AfterSpacesIsShort(SubDotted(s, a, b));
    if s != "" && IsSpace(s[0]) {
      SpacesOfDotted(s[1..], a, b);
    }
  }

  function WithWord(m: Option<(string, string)>, a: string, b: string): Option<(string, string)> {
    match m
    case None => None
    case Some((word, number)) => Some((SubDotted(word, a, b), number))
  }

  /** A number followed by a parenthesis is not part of a dotted pair. */
  lemma {:induction false} NumberOfDotted(s: string, a: string, b: string)
    requires AllDigits(a) && AllDigits(b)
    ensures var t := SubDotted(s, a, b);
      && (Digits(t) != "" && ")" <= AfterDigits(t) <==> Digits(s) != "" && ")" <= AfterDigits(s))
      && (")" <= AfterDigits(s) ==> Digits(t) == Digits(s))
  {
    SubDottedStep(s, a, b);
    CutDigits(s);
    CutDigits(SubDotted(s, a, b));
    if StartsPair(s) {
      SubDottedStep(AfterPair(s), a, b);
      FrontPair(a, b, SubDotted(AfterPair(s), a, b));
    } else if s != "" && IsDigit(s[0]) {
      SubDottedStep(AfterDigits(s), a, b);
      FrontRun(Digits(s), SubDotted(AfterDigits(s), a, b));
    }
  }

  lemma {:induction false} PairHereOfDotted(lead: string, s: string, a: string, b: string)
    requires NoDigits(lead) && AllDigits(a) && AllDigits(b)
    ensures MatchPairHere(lead, SubDotted(s, a, b)) == WithWord(MatchPairHere(lead, s), a, b)
  {
    LeadOfDotted(lead, s, a, b);
    if lead <= s {
      var x := s[|lead|..];
      WordOfDotted(x, a, b);
      SubDottedStep(Word(x), a, b);
      SpacesOfDotted(AfterWord(x), a, b);
      NumberOfDotted(AfterSpaces(AfterWord(x)), a, b);
    }
  }

  lemma {:induction false} SearchPairSkipsPair(lead: string, a: string, b: string, x: string)
    requires GoodLead(lead) && AllDigits(a) && AllDigits(b)
    ensures SearchPair(lead, a + ("." + (b + x))) == SearchPair(lead, x)
  {
    SearchPairSkips(lead, a, "." + (b + x));
    SearchPairSkips(lead, ".", b + x);
    SearchPairSkips(lead, b, x);
  }

  /** Replacing every dotted pair on a line leaves the version found there, and its number. */
  lemma {:induction false} SearchPairOfDotted(lead: string, s: string, a: string, b: string)
    requires GoodLead(lead) && AllDigits(a) && AllDigits(b)
    ensures SearchPair(lead, SubDotted(s, a, b)) == WithWord(SearchPair(lead, s), a, b)
    decreases |s|
  {
    SubDottedStep(s, a, b);
    PairHereOfDotted(lead, s, a, b);
    if StartsPair(s) {
      CutPair(s);
      SearchPairSkipsPair(lead, Digits(s), Digits(AfterDigits(s)[1..]), AfterPair(s));
      SearchPairSkipsPair(lead, a, b, SubDotted(AfterPair(s), a, b));
      SearchPairOfDotted(lead, AfterPair(s), a, b);
    } else if s != "" && IsDigit(s[0]) {
      CutDigits(s);
      SearchPairSkips(lead, Digits(s), AfterDigits(s));
      SearchPairSkips(lead, Digits(s), SubDotted(AfterDigits(s), a, b));
      SearchPairOfDotted(lead, AfterDigits(s), a, b);
    } else if s != "" {
      SearchPairOfDotted(lead, s[1..], a, b);
    }
  }

  lemma {:induction false} SubDottedIs(w: string, a: string, b: string, k: string)
    requires AllDigits(a) && AllDigits(b) && NoDigits(k)
    ensures SubDotted(w, a, b) == k <==> w == k
  {
    SubDottedStep(w, a, b);
    if w != "" && !IsDigit(w[0]) && k != "" {
      SubDottedIs(w[1..], a, b, k[1..]);
      assert SubDotted(w, a, b)[1..] == SubDotted(w[1..], a, b);
    }
  }

  lemma {:induction false} DottedHereOfDigits(lead: string, s: string, d: string)
    requires NoDigits(lead) && AllDigits(d)
    ensures MatchDottedHere(lead, SubDigits(s, d)) == Replaced(MatchDottedHere(lead, s), d, d)
  {
    LeadOfSub(lead, s, d);
    if lead <= s {
      var x := s[|lead|..];
      CutDigits(x);
      SubDigitsStep(x, d);
      if x != "" && IsDigit(x[0]) {
        var dot := AfterDigits(x);
        SubDigitsStep(dot, d);
        FrontRun(d, SubDigits(dot, d));
        if "." <= dot {
          NumberOfDigits(dot[1..], d);
        }
      }
    }
  }

  lemma {:induction false} NumberOfDigits(s: string, d: string)
    requires AllDigits(d)
    ensures var t := SubDigits(s, d);
      Digits(t) == (if Digits(s) == "" then "" else d) && AfterDigits(t) == SubDigits(AfterDigits(s), d)
      && (")" <= AfterDigits(t) <==> ")" <= AfterDigits(s))
  {
    CutDigits(s);
    SubDigitsStep(s, d);
    CutDigits(SubDigits(s, d));
    SubDigitsStep(AfterDigits(s), d);
    FrontRun(d, SubDigits(AfterDigits(s), d));
  }

  /** Replacing every number on a line leaves a dotted pair where there was one. */
  lemma {:induction false} SearchDottedOfDigits(lead: string, s: string, d: string)
    requires GoodLead(lead) && AllDigits(d)
    ensures SearchDotted(lead, SubDigits(s, d)) == Replaced(SearchDotted(lead, s), d, d)
    decreases |s|
  {
    SubDigitsStep(s, d);
    DottedHereOfDigits(lead, s, d);
    if s != "" && IsDigit(s[0]) {
      CutDigits(s);
      SearchDottedSkips(lead, Digits(s), AfterDigits(s));
      SearchDottedSkips(lead, d, SubDigits(AfterDigits(s), d));
      SearchDottedOfDigits(lead, AfterDigits(s), d);
    } else if s != "" {
      SearchDottedOfDigits(lead, s[1..], d);
    }
  }

  // ---- What the patterns stand for

  predicate AllSpaces(s: string) {
    s != "" && forall i :: 0 <= i < |s| ==> IsSpace(s[i])
  }

  predicate NoSpaces(s: string) {
    s != "" && forall i :: 0 <= i < |s| ==> !IsSpace(s[i])
  }

  /** The text reads: lead, a word, spaces, digits, a parenthesis, anything. */
  ghost predicate ReadsAs(lead: string, s: string, word: string, gap: string, number: string, rest: string) {
    && s == lead + (word + (gap + (number + (")" + rest))))
    && NoSpaces(word) && AllSpaces(gap) && AllDigits(number)
  }

  lemma {:induction false} CutWord(s: string)
    ensures s == Word(s) + AfterWord(s)
    ensures Word(s) == "" || NoSpaces(Word(s))
  {
    if s != "" && !IsSpace(s[0]) {
      CutWord(s[1..]);
    }
  }

  function Spaces(s: string): string {
    if s != "" && IsSpace(s[0]) then [s[0]] + Spaces(s[1..]) else ""
  }

  lemma {:induction false} CutSpaces(s: string)
    ensures s == Spaces(s) + AfterSpaces(s)
    ensures Spaces(s) == "" || AllSpaces(Spaces(s))
  {
    if s != "" && IsSpace(s[0]) {
      CutSpaces(s[1..]);
    }
  }

  lemma {:induction false} WordOfText(word: string, x: string)
    requires (forall i :: 0 <= i < |word| ==> !IsSpace(word[i])) && (x == "" || IsSpace(x[0]))
    ensures Word(word + x) == word && AfterWord(word + x) == x
  {
    if word == "" {
      assert word + x == x;
    } else {
      assert (word + x)[1..] == word[1..] + x;
      WordOfText(word[1..], x);
    }
  }

  lemma {:induction false} SpacesOfText(gap: string, x: string)
    requires (forall i :: 0 <= i < |gap| ==> IsSpace(gap[i])) && (x == "" || !IsSpace(x[0]))
    ensures AfterSpaces(gap + x) == x
  {
    if gap == "" {
      assert gap + x == x;
    } else {
      assert (gap + x)[1..] == gap[1..] + x;
      SpacesOfText(gap[1..], x);
    }
  }

  /** The pattern finds a word and a number at the start of a text exactly when the text can be read so. */
  lemma {:induction false} PairHereIff(lead: string, s: string, word: string, number: string)
    ensures MatchPairHere(lead, s) == Some((word, number)) <==>
      exists gap, rest :: ReadsAs(lead, s, word, gap, number, rest)
  {
    if MatchPairHere(lead, s) == Some((word, number)) {
      var x := s[|lead|..];
      var after := AfterDigits(AfterSpaces(AfterWord(x)));
      CutWord(x);
      CutSpaces(AfterWord(x));
      CutDigits(AfterSpaces(AfterWord(x)));
      assert after == ")" + after[1..];
      assert s == lead + x;
      assert ReadsAs(lead, s, word, Spaces(AfterWord(x)), number, after[1..]);
    }
    if gap, rest :| ReadsAs(lead, s, word, gap, number, rest) {
      ReadTextMatches(lead, s, word, gap, number, rest);
    }
  }

  lemma {:induction false} ReadTextMatches(lead: string, s: string, word: string, gap: string, number: string,
      rest: string)
    requires ReadsAs(lead, s, word, gap, number, rest)
    ensures MatchPairHere(lead, s) == Some((word, number))
  {
    var end := ")" + rest;
    var x := word + (gap + (number + end));
    assert s[|lead|..] == x && lead <= s;
    assert (gap + (number + end))[0] == gap[0] && (number + end)[0] == number[0];
    WordOfText(word, gap + (number + end));
    SpacesOfText(gap, number + end);
    FrontRun(number, end);
  }

  /** The search finds the leftmost place where the text can be read so, if there is one. */
  lemma {:induction false} SearchIsLeftmost(lead: string, s: string) returns (i: nat)
    ensures i <= |s| && forall j :: 0 <= j < i ==> MatchPairHere(lead, s[j..]).None?
    ensures SearchPair(lead, s) == MatchPairHere(lead, s[i..])
    ensures SearchPair(lead, s).None? ==> i == |s|
  {
    if MatchPairHere(lead, s).Some? || s == "" {
      i := 0;
      assert s[0..] == s;
    } else {
      var k := SearchIsLeftmost(lead, s[1..]);
      i := k + 1;
      assert s[i..] == s[1..][k..];
      forall j | 0 <= j < i ensures MatchPairHere(lead, s[j..]).None? {
        if j == 0 {
          assert s[0..] == s;
        } else {
          assert s[j..] == s[1..][j - 1..];
        }
      }
    }
  }

  /** The text reads: lead, digits, a dot, digits, a parenthesis, anything. */
  ghost predicate ReadsDotted(lead: string, s: string, a: string, b: string, rest: string) {
    s == lead + (a + ("." + (b + (")" + rest)))) && AllDigits(a) && AllDigits(b)
  }

  lemma {:induction false} DottedHereIff(lead: string, s: string, a: string, b: string)
    ensures MatchDottedHere(lead, s) == Some((a, b)) <==> exists rest :: ReadsDotted(lead, s, a, b, rest)
  {
    if MatchDottedHere(lead, s) == Some((a, b)) {
      var x := s[|lead|..];
      var dot := AfterDigits(x);
      var after := AfterDigits(dot[1..]);
      CutDigits(x);
      CutDigits(dot[1..]);
      assert dot == "." + dot[1..] && after == ")" + after[1..];
      assert s == lead + x;
      assert ReadsDotted(lead, s, a, b, after[1..]);
    }
    if rest :| ReadsDotted(lead, s, a, b, rest) {
      var end := ")" + rest;
      assert s[|lead|..] == a + ("." + (b + end)) && lead <= s;
      FrontPair(a, b, end);
    }
  }

  // ---- What the substitutions stand for

  /** Text without digits stays. */
  lemma {:induction false} SubOfText(s: string, d: string)
    requires NoDigits(s)
    ensures SubDigits(s, d) == s
  {
    if s != "" {
      SubOfText(s[1..], d);
    }
  }

  predicate CutsNoRun(a: string, b: string) {
    a == "" || b == "" || !IsDigit(a[|a| - 1]) || !IsDigit(b[0])
  }

  /** A substitution goes through a text piece by piece, where no run is cut. */
  lemma {:induction false} SubOfSum(a: string, b: string, d: string)
    requires AllDigits(d) && CutsNoRun(a, b)
    ensures SubDigits(a + b, d) == SubDigits(a, d) + SubDigits(b, d)
    decreases |a|
  {
    hide SubDigits;
    SubDigitsStep(a, d);
    if a == "" {
      assert a + b == b;
    } else if IsDigit(a[0]) {
      var run, rest := Digits(a), AfterDigits(a);
      CutDigits(a);
      RestCutsNoRun(a, b, run, rest);
      assert a + b == run + (rest + b);
      SubOfSum(rest, b, d);
      SubDigitsOfRun(run, rest + b, d);
    } else {
      assert (a + b)[0] == a[0] && (a + b)[1..] == a[1..] + b;
      SubDigitsStep(a + b, d);
      SubOfSum(a[1..], b, d);
    }
  }

  lemma {:induction false} RestCutsNoRun(a: string, b: string, run: string, rest: string)
    requires a == run + rest && AllDigits(run) && DigitFree(rest) && CutsNoRun(a, b)
    ensures DigitFree(rest + b) && CutsNoRun(rest, b)
  {
    if rest == "" {
      assert a == run && rest + b == b;
    } else {
      assert a[|a| - 1] == rest[|rest| - 1];
    }
  }
}
