/** Byte strings and the token estimate every context budget is built on.

    A `string` here is a sequence of bytes, one `char` per byte. */
module Text {

  datatype Option<T> = None | Some(value: T)

  /** The six ASCII white-space bytes the estimator does not count. */
  predicate IsSpace(c: char) {
    c == ' ' || c == '\t' || c == '\n' || c == '\r' || c == '\U{0C}' || c == '\U{0B}'
  }

  function NonSpace(s: string): nat {
    if s == "" then 0
    else NonSpace(s[..|s| - 1]) + if IsSpace(s[|s| - 1]) then 0 else 1
  }

  /** Non-space bytes divided by four, rounded down. */
  function Tokens(s: string): nat {
    NonSpace(s) / 4
  }

  method ApproxTextTokens(value: string) returns (tokens: nat)
    ensures tokens == Tokens(value)
    ensures 4 * tokens <= |value|
  {
    var nonSpace := 0;
    for i := 0 to |value|
      invariant nonSpace == NonSpace(value[..i])
      invariant nonSpace <= i
    {
      assert value[..i + 1][..i] == value[..i];
      if !IsSpace(value[i]) {
        nonSpace := nonSpace + 1;
      }
    }
    assert value[..|value|] == value;
    tokens := nonSpace / 4;
  }

  predicate IsOneOfSix(c: char) {
    c in [' ', '\t', '\n', '\r', '\U{0C}', '\U{0B}']
  }

  lemma SpacesAreSix(c: char)
    ensures IsSpace(c) <==> IsOneOfSix(c)
  {
  }

  /** The positions of the bytes that count. */
  function Counted(s: string): set<int> {
    set k | 0 <= k < |s| && !IsOneOfSix(s[k])
  }

  lemma CountedInit(s: string)
    requires s != ""
    ensures var n := |s| - 1; |Counted(s)| == |Counted(s[..n])| + if IsOneOfSix(s[n]) then 0 else 1
  {
    hide IsOneOfSix;
    var n := |s| - 1;
    assert Counted(s) == Counted(s[..n]) + if IsOneOfSix(s[n]) then {} else {n};
  }

  /** A text costs a quarter of the bytes it has other than the six spaces. */
  lemma {:induction false} TokensCount(s: string)
    ensures NonSpace(s) == |Counted(s)| && Tokens(s) == |Counted(s)| / 4
  {
    hide IsOneOfSix, IsSpace;
    if s != "" {
      hide Counted;
      TokensCount(s[..|s| - 1]);
      CountedInit(s);
      SpacesAreSix(s[|s| - 1]);
    } else {
      assert Counted(s) == {};
    }
  }

  predicate AllSpaces(s: string) {
    forall k :: 0 <= k < |s| ==> IsOneOfSix(s[k])
  }

  lemma {:induction false} TrimLeftIs(s: string) returns (head: string)
    ensures s == head + TrimLeft(s) && AllSpaces(head)
    ensures TrimLeft(s) == "" || !IsOneOfSix(TrimLeft(s)[0])
  {
    head := "";
    if s != "" && IsSpace(s[0]) {
      head := TrimLeftIs(s[1..]);
      head := [s[0]] + head;
    }
  }

  lemma {:induction false} TrimRightIs(s: string) returns (tail: string)
    ensures s == TrimRight(s) + tail && AllSpaces(tail)
    ensures TrimRight(s) == "" || !IsOneOfSix(TrimRight(s)[|TrimRight(s)| - 1])
    ensures TrimRight(s) != "" ==> TrimRight(s)[0] == s[0]
  {
    tail := "";
    if s != "" && IsSpace(s[|s| - 1]) {
      tail := TrimRightIs(s[..|s| - 1]);
      tail := tail + [s[|s| - 1]];
    }
  }

  /** Trimming removes the spaces at both ends and nothing else. */
  lemma TrimSpaceIs(s: string) returns (head: string, tail: string)
    ensures s == head + TrimSpace(s) + tail && AllSpaces(head) && AllSpaces(tail)
    ensures TrimSpace(s) == "" || Trimmed(TrimSpace(s))
  {
    head := TrimLeftIs(s);
    tail := TrimRightIs(TrimLeft(s));
    assert head + (TrimSpace(s) + tail) == head + TrimSpace(s) + tail;
  }

  lemma {:induction false} NonSpaceConcat(a: string, b: string)
    ensures NonSpace(a + b) == NonSpace(a) + NonSpace(b)
  {
    if b == "" {
      assert a + b == a;
    } else {
      var n := |b| - 1;
      assert (a + b)[..|a + b| - 1] == a + b[..n];
      NonSpaceConcat(a, b[..n]);
    }
  }

  lemma {:induction false} NonSpaceBound(s: string)
    ensures NonSpace(s) <= |s|
  {
    if s != "" {
      NonSpaceBound(s[..|s| - 1]);
    }
  }

  /** A run of one non-space byte counts every byte. */
  lemma {:induction false} NonSpaceRun(s: string)
    requires forall k :: 0 <= k < |s| ==> !IsSpace(s[k])
    ensures NonSpace(s) == |s|
  {
    if s != "" {
      NonSpaceRun(s[..|s| - 1]);
    }
  }

  function TrimLeft(s: string): string {
    if s != "" && IsSpace(s[0]) then TrimLeft(s[1..]) else s
  }

  function TrimRight(s: string): string {
    if s != "" && IsSpace(s[|s| - 1]) then TrimRight(s[..|s| - 1]) else s
  }

  function TrimSpace(s: string): string {
    TrimRight(TrimLeft(s))
  }

  predicate HasPrefix(s: string, prefix: string) {
    prefix <= s
  }

  /** The text has no white space at either end, so trimming keeps it. */
  predicate Trimmed(s: string) {
    s != "" && !IsSpace(s[0]) && !IsSpace(s[|s| - 1])
  }

  lemma {:induction false} TrimmedIsKept(s: string)
    requires Trimmed(s)
    ensures TrimSpace(s) == s
  {
    assert TrimLeft(s) == s;
  }

  /** A text holding a non-space byte does not trim away. */
  lemma {:induction false} TrimKeepsSubstance(s: string)
    requires NonSpace(s) > 0
    ensures TrimSpace(s) != ""
  {
    TrimLeftSubstance(s);
    TrimRightSubstance(TrimLeft(s));
  }

  lemma {:induction false} TrimLeftSubstance(s: string)
    ensures NonSpace(TrimLeft(s)) == NonSpace(s)
  {
    if s != "" && IsSpace(s[0]) {
      TrimLeftSubstance(s[1..]);
      NonSpaceConcat([s[0]], s[1..]);
      assert s == [s[0]] + s[1..];
      assert [s[0]][..0] == "";
    }
  }

  lemma {:induction false} TrimRightSubstance(s: string)
    ensures NonSpace(TrimRight(s)) == NonSpace(s)
  {
    if s != "" && IsSpace(s[|s| - 1]) {
      TrimRightSubstance(s[..|s| - 1]);
    }
  }

  /** ASCII lower case. */
  function LowerByte(c: char): char {
    if 'A' <= c <= 'Z' then c - 'A' + 'a' else c
  }

  function ToLower(s: string): (t: string)
    ensures |t| == |s|
  {
    seq(|s|, k requires 0 <= k < |s| => LowerByte(s[k]))
  }

  function Digit(d: nat): char
    requires d < 10
  {
    ['0', '1', '2', '3', '4', '5', '6', '7', '8', '9'][d]
  }

  /** `%d` of a non-negative integer. */
  function Decimal(n: nat): string {
    if n < 10 then [Digit(n)] else Decimal(n / 10) + [Digit(n % 10)]
  }

  lemma {:induction false} DecimalDigits(n: nat)
    ensures Decimal(n) != "" && forall k :: 0 <= k < |Decimal(n)| ==> '0' <= Decimal(n)[k] <= '9'
  {
    if n >= 10 {
      DecimalDigits(n / 10);
    }
  }

  /** The number a run of digits stands for. */
  function ReadDecimal(s: string): int {
    if s == "" then 0 else 10 * ReadDecimal(s[..|s| - 1]) + (s[|s| - 1] as int - '0' as int)
  }

  lemma {:induction false} DecimalReadsBack(n: nat)
    ensures ReadDecimal(Decimal(n)) == n
  {
    var s := Decimal(n);
    DigitIs(n % 10);
    if n >= 10 {
      DecimalReadsBack(n / 10);
      assert s[..|s| - 1] == Decimal(n / 10);
    } else {
      assert s[..0] == "";
    }
  }

  lemma DigitIs(d: nat)
    requires d < 10
    ensures Digit(d) as int - '0' as int == d
  {
  }

  /** The first of a byte splits a text in one way. */
  lemma SplitsAt(a: string, c: char, b: string, a': string, b': string)
    requires c !in a && c !in a' && a + [c] + b == a' + [c] + b'
    ensures a == a' && b == b'
  {
    var s, t := a + [c] + b, a' + [c] + b';
    assert s[|a|] == c && t[|a'|] == c;
    assert forall k :: 0 <= k < |a| ==> s[k] == a[k] && a[k] in a;
    assert forall k :: 0 <= k < |a'| ==> t[k] == a'[k] && a'[k] in a';
    assert |a| == |a'|;
    assert s[..|a|] == a && t[..|a'|] == a';
    assert s[|a| + 1..] == b && t[|a'| + 1..] == b';
  }

  /** `needle` starts at byte `i` of `s`. */
  predicate OccursAt(s: string, needle: string, i: int) {
    0 <= i && i + |needle| <= |s| && s[i..i + |needle|] == needle
  }

  predicate Contains(s: string, needle: string) {
    exists i :: 0 <= i <= |s| && OccursAt(s, needle, i)
  }

  /** The last position `needle` starts at within the first `bound + 1` positions, or -1. */
  function LastIndexFrom(s: string, needle: string, bound: nat): int
    ensures -1 <= LastIndexFrom(s, needle, bound) <= bound
  {
    if OccursAt(s, needle, bound) then bound
    else if bound == 0 then -1
    else LastIndexFrom(s, needle, bound - 1)
  }

  function LastIndex(s: string, needle: string): (i: int)
    ensures i >= 0 ==> OccursAt(s, needle, i)
    ensures forall j :: i < j <= |s| ==> !OccursAt(s, needle, j)
  {
    LastIndexFromIsLast(s, needle, |s|);
    LastIndexFrom(s, needle, |s|)
  }

  lemma {:induction false} LastIndexFromIsLast(s: string, needle: string, bound: nat)
    ensures LastIndexFrom(s, needle, bound) >= 0 ==> OccursAt(s, needle, LastIndexFrom(s, needle, bound))
    ensures forall j :: LastIndexFrom(s, needle, bound) < j <= bound ==> !OccursAt(s, needle, j)
  {
    if !OccursAt(s, needle, bound) && bound > 0 {
      LastIndexFromIsLast(s, needle, bound - 1);
    }
  }

  /** The position of the first `c`, or -1. */
  function IndexByte(s: string, c: char): (i: int)
    ensures -1 <= i < |s|
    ensures i >= 0 ==> s[i] == c
    ensures forall j :: 0 <= j < (if i < 0 then |s| else i) ==> s[j] != c
  {
    if s == "" then -1
    else if s[0] == c then 0
    else
      var rest := IndexByte(s[1..], c);
      if rest < 0 then -1 else rest + 1
  }
}
