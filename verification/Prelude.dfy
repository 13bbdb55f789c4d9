/** Options, results, text helpers and list lookups shared by every module. */
module Prelude {

  datatype Option<+T> = None | Some(value: T)

  datatype Result<+T, +E> = Ok(value: T) | Err(error: E)

  const U32_MAX: nat := 0xFFFF_FFFF
  const U64_MAX: nat := 0xFFFF_FFFF_FFFF_FFFF

  // ---------------------------------------------------------------- text

  /** The code points with the Unicode White_Space property. */
  predicate IsWhitespace(c: char) {
    '\U{0009}' <= c <= '\U{000D}' || c == ' ' || c == '\U{0085}' || c == '\U{00A0}'
    || c == '\U{1680}' || '\U{2000}' <= c <= '\U{200A}' || c == '\U{2028}' || c == '\U{2029}'
    || c == '\U{202F}' || c == '\U{205F}' || c == '\U{3000}'
  }

  function TrimStart(s: string): string {
    if s != "" && IsWhitespace(s[0]) then TrimStart(s[1..]) else s
  }

  function TrimEnd(s: string): string {
    if s != "" && IsWhitespace(s[|s| - 1]) then TrimEnd(s[..|s| - 1]) else s
  }

  function Trim(s: string): string {
    TrimEnd(TrimStart(s))
  }

  predicate Blank(s: string) {
    Trim(s) == ""
  }

  lemma {:induction false} TrimStartShape(s: string)
    ensures var t := TrimStart(s); t == "" || !IsWhitespace(t[0])
  {
    if s != "" && IsWhitespace(s[0]) {
      TrimStartShape(s[1..]);
    }
  }

  lemma {:induction false} TrimEndShape(s: string)
    ensures TrimEnd(s) <= s
    ensures var t := TrimEnd(s); t == "" || !IsWhitespace(t[|t| - 1])
  {
    if s != "" && IsWhitespace(s[|s| - 1]) {
      TrimEndShape(s[..|s| - 1]);
    }
  }

  /** Trimming twice is trimming once, so a text that is not blank stays so after it is trimmed. */
  lemma TrimIdempotent(s: string)
    ensures Trim(Trim(s)) == Trim(s)
  {
    TrimStartShape(s);
    TrimEndShape(TrimStart(s));
    var t := Trim(s);
    assert t != "" ==> t[0] == TrimStart(s)[0];
    assert TrimStart(t) == t;
  }

  ghost predicate AllWhitespace(s: string) {
    forall i | 0 <= i < |s| :: IsWhitespace(s[i])
  }

  lemma {:induction false} TrimStartSplit(s: string)
    ensures var t := TrimStart(s);
            |t| <= |s| && s == s[..|s| - |t|] + t && AllWhitespace(s[..|s| - |t|])
  {
    if s != "" && IsWhitespace(s[0]) {
      TrimStartSplit(s[1..]);
      var t := TrimStart(s);
      var cut := |s| - |t|;
      assert s[..cut] == [s[0]] + s[1..][..cut - 1];
    }
  }

  lemma {:induction false} TrimEndSplit(s: string)
    ensures var t := TrimEnd(s);
            |t| <= |s| && s == t + s[|t|..] && AllWhitespace(s[|t|..])
  {
    if s != "" && IsWhitespace(s[|s| - 1]) {
      var front := s[..|s| - 1];
      TrimEndSplit(front);
      var t := TrimEnd(s);
      assert s[|t|..] == front[|t|..] + [s[|s| - 1]];
    }
  }

  /** What is left of a text is what stands between the white space at its ends. */
  lemma TrimMeaning(s: string)
    ensures exists before, after ::
              s == before + Trim(s) + after && AllWhitespace(before) && AllWhitespace(after)
    ensures var t := Trim(s); t != "" ==> !IsWhitespace(t[0]) && !IsWhitespace(t[|t| - 1])
  {
    var start := TrimStart(s);
    var t := Trim(s);
    TrimStartSplit(s);
    TrimEndSplit(start);
    TrimStartShape(s);
    TrimEndShape(start);
    var before, after := s[..|s| - |start|], start[|t|..];
    assert s == before + t + after;
  }

  /** A text is blank exactly when it has no character but white space. */
  lemma BlankMeaning(s: string)
    ensures Blank(s) <==> forall i | 0 <= i < |s| :: IsWhitespace(s[i])
  {
    TrimMeaning(s);
    var t := Trim(s);
    var before, after :| s == before + t + after && AllWhitespace(before) && AllWhitespace(after);
    if t != "" { assert s[|before|] == t[0]; }
  }

  function Utf8Width(c: char): nat {
    if c < '\U{0080}' then 1 else if c < '\U{0800}' then 2 else if c < '\U{10000}' then 3 else 4
  }

  /** Length in bytes of the UTF-8 encoding. */
  function Utf8Len(s: string): nat {
    if s == "" then 0 else Utf8Width(s[0]) + Utf8Len(s[1..])
  }

  /** A character takes one to four bytes, and one exactly when it is ASCII. */
  lemma {:induction false} Utf8Bounds(s: string)
    ensures |s| <= Utf8Len(s) <= 4 * |s|
    ensures Utf8Len(s) == |s| <==> forall i | 0 <= i < |s| :: s[i] < '\U{0080}'
  {
    if s != "" { Utf8Bounds(s[1..]); }
  }

  predicate ValidSha256Hex(s: string) {
    |s| == 64 && forall i | 0 <= i < |s| :: '0' <= s[i] <= '9' || 'a' <= s[i] <= 'f'
  }

  function TrimAll(values: seq<string>): (r: seq<string>)
    ensures |r| == |values|
  {
    seq(|values|, i requires 0 <= i < |values| => Trim(values[i]))
  }

  // ---------------------------------------------------------------- bounded arithmetic

  function Min(a: nat, b: nat): nat {
    if a <= b then a else b
  }

  function CheckedAddU32(a: nat, b: nat): Option<nat> {
    if a + b <= U32_MAX then Some(a + b) else None
  }

  function SatAddU32(a: nat, b: nat): nat {
    if a + b <= U32_MAX then a + b else U32_MAX
  }

  function SatAddU64(a: nat, b: nat): nat {
    if a + b <= U64_MAX then a + b else U64_MAX
  }

  // ---------------------------------------------------------------- lists

  /** Position of the first occurrence. */
  function IndexOf<T(==)>(s: seq<T>, x: T): (r: Option<nat>)
    ensures r.Some? <==> x in s
    ensures r.Some? ==> r.value < |s| && s[r.value] == x
    ensures r.Some? ==> forall i | 0 <= i < r.value :: s[i] != x
  {
    if s == [] then None
    else if s[0] == x then Some(0)
    else
      match IndexOf(s[1..], x)
      case None => None
      case Some(i) => Some(i + 1)
  }

  ghost predicate Distinct<T>(s: seq<T>) {
    forall i, j | 0 <= i < j < |s| :: s[i] != s[j]
  }

  lemma IndexOfDistinct<T>(s: seq<T>, i: nat)
    requires i < |s| && Distinct(s)
    ensures IndexOf(s, s[i]) == Some(i)
  {
    var k := IndexOf(s, s[i]).value;
    assert k == i;
  }

  /** Growing a list leaves the first occurrence of an element where it was. */
  lemma IndexOfPrefix<T>(s: seq<T>, t: seq<T>, x: T)
    requires s <= t && x in s
    ensures IndexOf(t, x) == IndexOf(s, x)
  {
    var i, j := IndexOf(s, x).value, IndexOf(t, x).value;
    assert t[i] == s[i];
    assert forall k | 0 <= k < |s| :: t[k] == s[k];
  }

  function Remove<T(==)>(s: seq<T>, x: T): seq<T> {
    if s == [] then []
    else if s[0] == x then Remove(s[1..], x)
    else [s[0]] + Remove(s[1..], x)
  }

  lemma {:induction false} RemoveElements<T>(s: seq<T>, x: T)
    ensures forall y :: y in Remove(s, x) <==> y in s && y != x
  {
    if s != [] {
      RemoveElements(s[1..], x);
      assert s == [s[0]] + s[1..];
    }
  }

  lemma {:induction false} RemoveDistinct<T>(s: seq<T>, x: T)
    requires Distinct(s)
    ensures Distinct(Remove(s, x))
  {
    if s != [] {
      RemoveDistinct(s[1..], x);
      RemoveElements(s[1..], x);
      var r := Remove(s[1..], x);
      forall j | 0 <= j < |r| ensures r[j] != s[0] {
        assert r[j] in r;
      }
    }
  }
}
