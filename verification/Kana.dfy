/**
 What counts as one character of the syllabary
 (internal/modules/progress/mastery.go): validKana, a grammar that says the
 same thing, and the exact number of strings it accepts.
 */
module Kana {

  const HIRAGANA_FIRST := 0x3041
  const HIRAGANA_LAST := 0x3096
  const KATAKANA_FIRST := 0x30A1
  const KATAKANA_LAST := 0x30FA
  /** The katakana long vowel mark. */
  const CHOONPU: char := '\U{30FC}'
  const MAX_KANA_RUNES := 3

  predicate IsSmallYaYuYo(r: char) {
    var code := r as int;
    || code == 0x3083 || code == 0x3085 || code == 0x3087
    || code == 0x30E3 || code == 0x30E5 || code == 0x30E7
  }

  predicate IsKana(r: char) {
    || HIRAGANA_FIRST <= r as int <= HIRAGANA_LAST
    || KATAKANA_FIRST <= r as int <= KATAKANA_LAST
    || r == CHOONPU
  }

  predicate IsKanaBase(r: char) {
    IsKana(r) && !IsSmallYaYuYo(r) && r != CHOONPU
  }

  /** An optional small ya, yu or yo. */
  ghost predicate IsOptionalSmall(s: string) {
    s == "" || (|s| == 1 && IsSmallYaYuYo(s[0]))
  }

  ghost predicate IsOptionalChoonpu(s: string) {
    s == "" || s == [CHOONPU]
  }

  ghost predicate IsUnitOf(s: string, base: char, small: string, long: string) {
    s == [base] + small + long && IsKanaBase(base) && IsOptionalSmall(small) && IsOptionalChoonpu(long)
  }

  /** The grammar: one kana, or a base, an optional small kana, an optional mark. */
  ghost predicate IsKanaUnit(s: string) {
    || (|s| == 1 && IsKana(s[0]))
    || exists base, small, long :: IsUnitOf(s, base, small, long)
  }

  /** validKana accepts exactly the grammar. */
  method ValidKana(s: string) returns (valid: bool)
    ensures valid <==> IsKanaUnit(s)
  {
    if |s| == 0 || |s| > MAX_KANA_RUNES {
      return false;
    }
    if !IsKanaBase(s[0]) {
      return |s| == 1 && IsKana(s[0]);
    }
    var rest := s[1..];
    ghost var small, long := "", "";
    if |rest| > 0 && IsSmallYaYuYo(rest[0]) {
      small := rest[..1];
      rest := rest[1..];
    }
    if |rest| > 0 && rest[0] == CHOONPU {
      long := rest[..1];
      rest := rest[1..];
    }
    assert s == [s[0]] + small + long + rest;
    if rest == "" {
      assert IsUnitOf(s, s[0], small, long);
    }
    return |rest| == 0;
  }

  // ---- The grammar by code points ----

  /** A hiragana, a katakana or the long vowel mark. */
  ghost predicate IsKanaCode(code: int) {
    0x3041 <= code <= 0x3096 || 0x30A1 <= code <= 0x30FA || code == 0x30FC
  }

  ghost predicate IsSmallCode(code: int) {
    code in {0x3083, 0x3085, 0x3087, 0x30E3, 0x30E5, 0x30E7}
  }

  /** A kana that is neither the mark nor a small ya, yu or yo. */
  ghost predicate IsBaseCode(code: int) {
    IsKanaCode(code) && code != 0x30FC && !IsSmallCode(code)
  }

  /** One kana; or a base and a modifier; or a base, a small kana and the mark. */
  ghost predicate IsUnitByCodes(s: string) {
    || (|s| == 1 && IsKanaCode(s[0] as int))
    || (|s| == 2 && IsBaseCode(s[0] as int) && (IsSmallCode(s[1] as int) || s[1] as int == 0x30FC))
    || (|s| == 3 && IsBaseCode(s[0] as int) && IsSmallCode(s[1] as int) && s[2] as int == 0x30FC)
  }

  lemma CharactersByCode(c: char)
    ensures IsKana(c) <==> IsKanaCode(c as int)
    ensures IsSmallYaYuYo(c) <==> IsSmallCode(c as int)
    ensures IsKanaBase(c) <==> IsBaseCode(c as int)
    ensures c == CHOONPU <==> c as int == 0x30FC
  {
  }

  lemma LongUnits(s: string)
    requires |s| == 2 || |s| == 3
    ensures IsKanaUnit(s) <==> IsUnitByCodes(s)
  {
    CharactersByCode(s[0]);
    CharactersByCode(s[1]);
    CharactersByCode(s[|s| - 1]);
    if |s| == 2 && IsUnitByCodes(s) {
      assert IsUnitOf(s, s[0], if s[1] == CHOONPU then "" else s[1..], if s[1] == CHOONPU then s[1..] else "");
    } else if IsUnitByCodes(s) {
      assert IsUnitOf(s, s[0], s[1..2], s[2..]);
    }
  }

  /** Which strings are one character of the syllabary, code point by code point. */
  lemma UnitsByCodes(s: string)
    ensures IsKanaUnit(s) <==> IsUnitByCodes(s)
  {
    if |s| == 1 {
      CharactersByCode(s[0]);
      assert IsKanaBase(s[0]) ==> IsUnitOf(s, s[0], "", "");
    } else if |s| == 2 || |s| == 3 {
      LongUnits(s);
    }
  }

  // ---- Counting the grammar ----

  function Image<A, B>(f: A -> B, xs: set<A>): set<B> {
    set x | x in xs :: f(x)
  }

  ghost predicate InjectiveOn<A(!new), B>(f: A -> B, xs: set<A>) {
    forall x, y :: x in xs && y in xs && f(x) == f(y) ==> x == y
  }

  lemma {:induction false} ImageSize<A(!new), B>(f: A -> B, xs: set<A>)
    requires InjectiveOn(f, xs)
    ensures |Image(f, xs)| == |xs|
  {
    if xs != {} {
      var x :| x in xs;
      ImageSize(f, xs - {x});
      assert Image(f, xs) == Image(f, xs - {x}) + {f(x)};
      assert f(x) !in Image(f, xs - {x});
    }
  }

  function Pairs<A, B>(xs: set<A>, ys: set<B>): set<(A, B)> {
    set x, y | x in xs && y in ys :: (x, y)
  }

  lemma {:induction false} PairsSize<A(!new), B(!new)>(xs: set<A>, ys: set<B>)
    ensures |Pairs(xs, ys)| == |xs| * |ys|
  {
    if xs == {} {
      assert Pairs(xs, ys) == {};
    } else {
      var x :| x in xs;
      PairsSize(xs - {x}, ys);
      var withX := Image((y: B) => (x, y), ys);
      ImageSize((y: B) => (x, y), ys);
      assert Pairs(xs, ys) == Pairs(xs - {x}, ys) + withX;
      assert Pairs(xs - {x}, ys) !! withX;
      assert (|xs| - 1) * |ys| + |ys| == |xs| * |ys|;
    }
  }

  predicate InRange(code: int, first: int, last: int) {
    first <= code <= last
  }

  function Codes(first: int, last: int): set<int> {
    set code | first <= code <= last && InRange(code, first, last)
  }

  lemma {:induction false} CodesSize(first: int, last: int)
    requires first <= last + 1
    ensures |Codes(first, last)| == last + 1 - first
    decreases last + 1 - first
  {
    if first > last {
      assert Codes(first, last) == {};
    } else {
      CodesSize(first, last - 1);
      assert Codes(first, last) == Codes(first, last - 1) + {last};
    }
  }

  /** A code point of the basic plane below the surrogates, as a character. */
  function Rune(code: int): char {
    if 0 <= code < 0xD800 then code as char else 'a'
  }

  /** What may follow a base: nothing, a small kana, the mark, or both. */
  function Tails(small: set<char>, mark: char): set<string> {
    {"", [mark]} + Image((c: char) => [c], small) + Image((c: char) => [c, mark], small)
  }

  function WithTails(bases: set<char>, tails: set<string>): set<string> {
    Image((unit: (char, string)) => [unit.0] + unit.1, Pairs(bases, tails))
  }

  function Units(bases: set<char>, small: set<char>, mark: char): set<string> {
    WithTails(bases, Tails(small, mark)) + Image((c: char) => [c], small + {mark})
  }

  lemma SingletonsSize(cs: set<char>)
    ensures |Image((c: char) => [c], cs)| == |cs|
  {
    var one := (c: char) => [c];
    assert InjectiveOn(one, cs) by {
      assert forall c, d :: one(c) == one(d) ==> one(c)[0] == one(d)[0];
    }
    ImageSize(one, cs);
  }

  lemma TailsSize(small: set<char>, mark: char)
    requires mark !in small
    ensures |Tails(small, mark)| == 2 + 2 * |small|
  {
    var two := (c: char) => [c, mark];
    assert InjectiveOn(two, small) by {
      assert forall c, d :: two(c) == two(d) ==> two(c)[0] == two(d)[0];
    }
    ImageSize(two, small);
    SingletonsSize(small);
    var ones, twos := Image((c: char) => [c], small), Image(two, small);
    assert {"", [mark]} !! ones && ({"", [mark]} + ones) !! twos;
    assert Tails(small, mark) == {"", [mark]} + ones + twos;
  }

  lemma WithTailsSize(bases: set<char>, tails: set<string>)
    ensures |WithTails(bases, tails)| == |bases| * |tails|
  {
    var join := (unit: (char, string)) => [unit.0] + unit.1;
    forall u, v | join(u) == join(v) ensures u == v {
      assert u.0 == join(u)[0] && v.0 == join(v)[0];
      assert u.1 == join(u)[1..] && v.1 == join(v)[1..];
    }
    PairsSize(bases, tails);
    ImageSize(join, Pairs(bases, tails));
  }

  lemma UnitsSize(bases: set<char>, small: set<char>, mark: char)
    requires mark !in small && bases !! small + {mark}
    ensures |Units(bases, small, mark)| == |bases| * (2 + 2 * |small|) + |small| + 1
  {
    TailsSize(small, mark);
    WithTailsSize(bases, Tails(small, mark));
    SingletonsSize(small + {mark});
    forall s | s in WithTails(bases, Tails(small, mark)) ensures s != "" && s[0] in bases {
    }
    assert WithTails(bases, Tails(small, mark)) !! Image((c: char) => [c], small + {mark});
  }

  /** The characters with the given code points. */
  function Runes(codes: set<int>): set<char> {
    Image(Rune, codes)
  }

  ghost predicate BelowSurrogates(codes: set<int>) {
    forall code :: code in codes ==> 0 <= code < 0xD800
  }

  lemma RunesOfCodes(codes: set<int>)
    requires BelowSurrogates(codes)
    ensures |Runes(codes)| == |codes|
    ensures forall c: char :: c in Runes(codes) <==> c as int in codes
  {
    assert forall code :: code in codes ==> Rune(code) as int == code;
    ImageSize(Rune, codes);
    forall c: char | c as int in codes ensures c in Runes(codes) {
      assert Rune(c as int) == c;
    }
  }

  function SmallCodes(): set<int> {
    {0x3083, 0x3085, 0x3087, 0x30E3, 0x30E5, 0x30E7}
  }

  function BaseCodes(): set<int> {
    Codes(HIRAGANA_FIRST, HIRAGANA_LAST) + Codes(KATAKANA_FIRST, KATAKANA_LAST) - SmallCodes()
  }

  lemma CountCodes()
    ensures |SmallCodes()| == 6 && |BaseCodes()| == 170
  {
    var hiragana, katakana := Codes(HIRAGANA_FIRST, HIRAGANA_LAST), Codes(KATAKANA_FIRST, KATAKANA_LAST);
    CodesSize(HIRAGANA_FIRST, HIRAGANA_LAST);
    CodesSize(KATAKANA_FIRST, KATAKANA_LAST);
    assert hiragana !! katakana;
    assert |hiragana + katakana| == 176;
    assert SmallCodes() <= hiragana + katakana;
  }

  /** All the strings that are one character of the syllabary. */
  function KanaUnits(): set<string> {
    Units(Runes(BaseCodes()), Runes(SmallCodes()), CHOONPU)
  }

  lemma BasesAndSmall(c: char)
    ensures c in Runes(BaseCodes()) <==> IsKanaBase(c)
    ensures c in Runes(SmallCodes()) <==> IsSmallYaYuYo(c)
  {
    RunesOfCodes(BaseCodes());
    RunesOfCodes(SmallCodes());
  }

  ghost predicate IsTail(tail: string, small: string, long: string) {
    tail == small + long && IsOptionalSmall(small) && IsOptionalChoonpu(long)
  }

  lemma TailsMatchTheGrammar(tail: string)
    ensures tail in Tails(Runes(SmallCodes()), CHOONPU) <==> exists small, long :: IsTail(tail, small, long)
  {
    if tail in Tails(Runes(SmallCodes()), CHOONPU) {
      if tail == "" || tail == [CHOONPU] {
        assert IsTail(tail, "", tail);
      } else {
        BasesAndSmall(tail[0]);
        assert IsTail(tail, tail[..1], tail[1..]);
      }
    }
    if small, long :| IsTail(tail, small, long) {
      if small != "" {
        BasesAndSmall(small[0]);
        var one, two := (c: char) => [c], (c: char) => [c, CHOONPU];
        assert tail == one(small[0]) || tail == two(small[0]);
        assert one(small[0]) in Image(one, Runes(SmallCodes())) && two(small[0]) in Image(two, Runes(SmallCodes()));
      } else {
        assert tail == long;
      }
    }
  }

  lemma UnitsMatchTheGrammar(s: string)
    ensures s in KanaUnits() <==> IsKanaUnit(s)
  {
    var bases, small, tails := Runes(BaseCodes()), Runes(SmallCodes()), Tails(Runes(SmallCodes()), CHOONPU);
    if s != "" {
      BasesAndSmall(s[0]);
      TailsMatchTheGrammar(s[1..]);
      assert s == [s[0]] + s[1..];
      assert s in WithTails(bases, tails) <==> s[0] in bases && s[1..] in tails by {
        if s[0] in bases && s[1..] in tails {
          assert (s[0], s[1..]) in Pairs(bases, tails);
        }
        if s in WithTails(bases, tails) {
          var unit :| unit in Pairs(bases, tails) && s == [unit.0] + unit.1;
          assert unit.0 == s[0] && unit.1 == s[1..];
        }
      }
      if small', long :| IsTail(s[1..], small', long) {
        assert s == [s[0]] + small' + long;
        assert IsKanaBase(s[0]) ==> IsUnitOf(s, s[0], small', long);
      }
      if base, small', long :| IsUnitOf(s, base, small', long) {
        assert s[1..] == small' + long;
        assert IsTail(s[1..], small', long);
      }
      if |s| == 1 {
        assert s[1..] == "" && IsTail("", "", "");
        assert s in Image((c: char) => [c], small + {CHOONPU}) <==> s[0] in small + {CHOONPU};
      }
    }
  }

  lemma BasesAreApart()
    ensures CHOONPU !in Runes(SmallCodes()) && Runes(BaseCodes()) !! Runes(SmallCodes()) + {CHOONPU}
  {
    forall c | c in Runes(BaseCodes()) ensures c !in Runes(SmallCodes()) + {CHOONPU} {
      BasesAndSmall(c);
    }
    BasesAndSmall(CHOONPU);
  }

  lemma RunesAreCounted()
    ensures |Runes(SmallCodes())| == 6 && |Runes(BaseCodes())| == 170
  {
    CountCodes();
    RunesOfCodes(BaseCodes());
    RunesOfCodes(SmallCodes());
  }

  /** Exactly 2387 strings are one character of the syllabary. */
  lemma KanaUnitsAreCounted()
    ensures forall s: string :: s in KanaUnits() <==> IsKanaUnit(s)
    ensures |KanaUnits()| == 2387
  {
    forall s: string ensures s in KanaUnits() <==> IsKanaUnit(s) {
      UnitsMatchTheGrammar(s);
    }
    RunesAreCounted();
    BasesAreApart();
    UnitsSize(Runes(BaseCodes()), Runes(SmallCodes()), CHOONPU);
  }
}
