/**
 The pieces of Go's string library the services rely on. A string is a sequence
 of Unicode scalar values; Go compares and measures their UTF-8 encoding.
 */
module Text {

  /** How many bytes the UTF-8 encoding of one character takes. */
  function RuneBytes(c: char): nat {
    var code := c as int;
    if code < 0x80 then 1 else if code < 0x800 then 2 else if code < 0x1_0000 then 3 else 4
  }

  /** Go's len(s). */
  function ByteLength(s: string): (r: nat)
    ensures |s| <= r <= 4 * |s|
  {
    if s == "" then 0 else RuneBytes(s[0]) + ByteLength(s[1..])
  }

  /** The bits of a code point that UTF-8 can write in so many bytes. */
  function PayloadLimit(bytes: nat): nat
    requires bytes <= 4
  {
    [0, 0x80, 0x20 * 0x40, 0x10 * 0x40 * 0x40, 0x8 * 0x40 * 0x40 * 0x40][bytes]
  }

  /** Every character takes the fewest bytes whose payload holds its code point: 7, 5 + 6, 4 + 12 or 3 + 18 bits. */
  lemma RunesTakeTheFewestBytes(c: char)
    ensures 1 <= RuneBytes(c) <= 4
    ensures PayloadLimit(RuneBytes(c) - 1) <= c as int < PayloadLimit(RuneBytes(c))
  {
  }

  lemma {:induction false} ByteLengthConcat(a: string, b: string)
    ensures ByteLength(a + b) == ByteLength(a) + ByteLength(b)
  {
    if a == "" {
      assert a + b == b;
    } else {
      assert (a + b)[1..] == a[1..] + b;
      ByteLengthConcat(a[1..], b);
    }
  }

  /** Unicode White_Space, which is what strings.TrimSpace strips. */
  predicate IsSpace(c: char) {
    var code := c as int;
    || 0x09 <= code <= 0x0D || code == 0x20 || code == 0x85 || code == 0xA0 || code == 0x1680
    || 0x2000 <= code <= 0x200A || code == 0x2028 || code == 0x2029 || code == 0x202F
    || code == 0x205F || code == 0x3000
  }

  function TrimLeft(s: string): (r: string)
    ensures r == "" || !IsSpace(r[0])
    ensures |r| <= |s| && r == s[|s| - |r|..]
    ensures forall i :: 0 <= i < |s| - |r| ==> IsSpace(s[i])
  {
    if s != "" && IsSpace(s[0]) then TrimLeft(s[1..]) else s
  }

  function TrimRight(s: string): (r: string)
    ensures r == "" || !IsSpace(r[|r| - 1])
    ensures |r| <= |s| && r == s[..|r|]
    ensures forall i :: |r| <= i < |s| ==> IsSpace(s[i])
  {
    if s != "" && IsSpace(s[|s| - 1]) then TrimRight(s[..|s| - 1]) else s
  }

  function TrimSpace(s: string): (r: string)
    ensures r == "" || (!IsSpace(r[0]) && !IsSpace(r[|r| - 1]))
  {
    TrimRight(TrimLeft(s))
  }

  ghost predicate AllSpace(s: string) {
    forall i :: 0 <= i < |s| ==> IsSpace(s[i])
  }

  lemma TrimLeftSplits(s: string) returns (left: string)
    ensures s == left + TrimLeft(s) && AllSpace(left)
  {
    left := s[..|s| - |TrimLeft(s)|];
  }

  lemma TrimRightSplits(s: string) returns (right: string)
    ensures s == TrimRight(s) + right && AllSpace(right)
  {
    right := s[|TrimRight(s)|..];
  }

  lemma Reassociate(a: string, b: string, c: string)
    ensures a + (b + c) == a + b + c
  {
  }

  /** Unicode White_Space by code point: controls, spaces, and the two separators. */
  ghost predicate IsSpaceCode(code: int) {
    code in {9, 10, 11, 12, 13, 32, 133, 160, 5760, 8192, 8193, 8194, 8195, 8196, 8197, 8198, 8199, 8200, 8201, 8202,
             8232, 8233, 8239, 8287, 12288}
  }

  lemma SpacesByCode(c: char)
    ensures IsSpace(c) <==> IsSpaceCode(c as int)
  {
  }

  /** Neither end is white space any more. */
  lemma TrimSpaceLeavesNoSpace(s: string)
    ensures TrimSpace(s) != "" ==>
              !IsSpaceCode(TrimSpace(s)[0] as int) && !IsSpaceCode(TrimSpace(s)[|TrimSpace(s)| - 1] as int)
  {
    if TrimSpace(s) != "" {
      SpacesByCode(TrimSpace(s)[0]);
      SpacesByCode(TrimSpace(s)[|TrimSpace(s)| - 1]);
    }
  }

  /** Only white space is stripped, and only from the ends. */
  lemma TrimSpaceKeepsTheMiddle(s: string)
    ensures exists left, right :: s == left + TrimSpace(s) + right && AllSpace(left) && AllSpace(right)
  {
    var left := TrimLeftSplits(s);
    var right := TrimRightSplits(TrimLeft(s));
    Reassociate(left, TrimSpace(s), right);
  }

  // ---- The order of sort.Strings: on UTF-8 it is the order of the characters ----

  predicate Less(a: string, b: string) {
    b != "" && (a == "" || a[0] < b[0] || (a[0] == b[0] && Less(a[1..], b[1..])))
  }

  /** a ends where b goes on, or has the smaller character where they first differ. */
  ghost predicate DiffersFirst(a: string, b: string, n: nat) {
    && n <= |a| && n < |b| && a[..n] == b[..n]
    && (n == |a| || a[n] as int < b[n] as int)
  }

  /** The order is lexicographic, character by character. */
  lemma {:induction false} LessIsLexicographic(a: string, b: string)
    ensures Less(a, b) <==> exists n: nat :: DiffersFirst(a, b, n)
  {
    if a == "" || b == "" || a[0] != b[0] {
      if b != "" && (a == "" || a[0] < b[0]) {
        assert DiffersFirst(a, b, 0);
      }
    } else {
      LessIsLexicographic(a[1..], b[1..]);
      if n: nat :| DiffersFirst(a[1..], b[1..], n) {
        assert a[..n + 1] == [a[0]] + a[1..][..n] && b[..n + 1] == [b[0]] + b[1..][..n];
        assert DiffersFirst(a, b, n + 1);
      }
      if n: nat :| DiffersFirst(a, b, n) {
        assert a[1..][..n - 1] == a[..n][1..] && b[1..][..n - 1] == b[..n][1..];
        assert DiffersFirst(a[1..], b[1..], n - 1);
      }
    }
  }

  lemma {:induction false} LessIsTotal(a: string, b: string)
    ensures Less(a, b) || a == b || Less(b, a)
    ensures !(Less(a, b) && Less(b, a)) && !Less(a, a)
  {
    if a != "" {
      if b != "" {
        LessIsTotal(a[1..], b[1..]);
      }
      LessIsTotal(a[1..], a[1..]);
    }
  }

  lemma {:induction false} LessIsTransitive(a: string, b: string, c: string)
    requires Less(a, b) && Less(b, c)
    ensures Less(a, c)
  {
    if a != "" && a[0] == b[0] == c[0] {
      LessIsTransitive(a[1..], b[1..], c[1..]);
    }
  }

  ghost predicate StrictlySorted(s: seq<string>) {
    forall i, j :: 0 <= i < j < |s| ==> Less(s[i], s[j])
  }

  ghost function Elements<T>(s: seq<T>): set<T> {
    set x | x in s
  }

  /** The place of x in a strictly sorted list; a value already there stays single. */
  function InsertUnique(x: string, s: seq<string>): (r: seq<string>)
    ensures Elements(r) == Elements(s) + {x}
    ensures StrictlySorted(s) ==> StrictlySorted(r)
  {
    if s == [] then [x]
    else if x == s[0] then s
    else if Less(x, s[0]) then
      assert StrictlySorted(s) ==> StrictlySorted([x] + s) by {
        if StrictlySorted(s) {
          forall i | 0 < i < |s| ensures Less(x, s[i]) {
            LessIsTransitive(x, s[0], s[i]);
          }
        }
      }
      [x] + s
    else
      var rest := InsertUnique(x, s[1..]);
      assert s == [s[0]] + s[1..];
      assert Elements(s) == {s[0]} + Elements(s[1..]);
      assert Elements([s[0]] + rest) == {s[0]} + Elements(rest);
      assert StrictlySorted(s) ==> StrictlySorted([s[0]] + rest) by {
        if StrictlySorted(s) {
          LessIsTotal(x, s[0]);
          forall i | 0 <= i < |rest| ensures Less(s[0], rest[i]) {
            assert rest[i] in Elements(s[1..]) + {x};
          }
        }
      }
      [s[0]] + rest
  }

  /** The unique strictly increasing list with the elements of values. */
  function SortedUniqueOf(values: seq<string>): (r: seq<string>)
    ensures StrictlySorted(r)
    ensures Elements(r) == Elements(values)
  {
    if values == [] then []
    else
      var init, last := values[..|values| - 1], values[|values| - 1];
      assert values == init + [last];
      InsertUnique(last, SortedUniqueOf(init))
  }

  lemma NoElements<T>(s: seq<T>)
    ensures s == [] <==> Elements(s) == {}
  {
    if s != [] {
      assert s[0] in Elements(s);
    }
  }

  lemma HeadIsLeast(a: seq<string>, b: seq<string>)
    requires a != [] && b != [] && StrictlySorted(a) && Elements(a) == Elements(b)
    ensures a[0] == b[0] || Less(a[0], b[0])
  {
    assert b[0] in Elements(a);
  }

  lemma TailElements(a: seq<string>)
    requires a != [] && StrictlySorted(a)
    ensures Elements(a[1..]) == Elements(a) - {a[0]}
  {
    LessIsTotal(a[0], a[0]);
    assert a == [a[0]] + a[1..];
  }

  /** Strictly increasing lists with the same elements are the same list. */
  lemma {:induction false} StrictlySortedIsUnique(a: seq<string>, b: seq<string>)
    requires StrictlySorted(a) && StrictlySorted(b)
    requires Elements(a) == Elements(b)
    ensures a == b
  {
    NoElements(a);
    NoElements(b);
    if a != [] {
      HeadIsLeast(a, b);
      HeadIsLeast(b, a);
      LessIsTotal(a[0], b[0]);
      TailElements(a);
      TailElements(b);
      StrictlySortedIsUnique(a[1..], b[1..]);
      assert a == [a[0]] + a[1..] && b == [b[0]] + b[1..];
    }
  }

  lemma ElementsOfConcat<T>(a: seq<T>, b: seq<T>)
    ensures Elements(a + b) == Elements(a) + Elements(b)
  {
    forall x | x in Elements(a) + Elements(b) ensures x in Elements(a + b) {
      assert x in a + b;
    }
  }

  /** Same elements, same canonical list: order and repetition do not matter. */
  lemma SameElementsSameList(a: seq<string>, b: seq<string>)
    requires Elements(a) == Elements(b)
    ensures SortedUniqueOf(a) == SortedUniqueOf(b)
  {
    StrictlySortedIsUnique(SortedUniqueOf(a), SortedUniqueOf(b));
  }

  /** sort.Strings, as an insertion sort: any correct sort returns this list. */
  method SortStrings(values: seq<string>) returns (sorted: seq<string>)
    requires forall i, j :: 0 <= i < j < |values| ==> values[i] != values[j]
    ensures StrictlySorted(sorted)
    ensures Elements(sorted) == Elements(values)
  {
    sorted := [];
    for n := 0 to |values|
      invariant StrictlySorted(sorted)
      invariant Elements(sorted) == Elements(values[..n])
    {
      assert values[..n + 1] == values[..n] + [values[n]];
      sorted := InsertUnique(values[n], sorted);
    }
    assert values[..|values|] == values;
  }
}
