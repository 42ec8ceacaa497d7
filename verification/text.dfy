/**
 * Character- and string-level building blocks shared by the schemas and the
 * pages: the character classes the validators' regular expressions use,
 * JavaScript's `toLowerCase` (on ASCII letters), `includes` and `trim`.
 */
module Text {

  /** An absent (`undefined`) or present value. */
  datatype Option<T> = None | Some(value: T) {
    /** `v || d` for a value whose only falsy form is absence. */
    function GetOr(default: T): T {
      if Some? then value else default
    }
  }

  /** The regular-expression class `[0-9]`. */
  predicate IsDigit(c: char) {
    '0' <= c <= '9'
  }

  predicate AllDigits(s: string) {
    forall i :: 0 <= i < |s| ==> IsDigit(s[i])
  }

  /** The regular-expression class `\w`, that is `[A-Za-z0-9_]`. */
  predicate IsWordChar(c: char) {
    'a' <= c <= 'z' || 'A' <= c <= 'Z' || IsDigit(c) || c == '_'
  }

  predicate IsUpper(c: char) {
    'A' <= c <= 'Z'
  }

  /** `toLowerCase` on one character; only the ASCII letters are mapped. */
  function LowerChar(c: char): (r: char)
    ensures !IsUpper(r)
    ensures IsUpper(c) ==> r as int == c as int + 32
    ensures !IsUpper(c) ==> r == c
  {
    if IsUpper(c) then (c as int + 32) as char else c
  }

  /** `String.prototype.toLowerCase`, letter by letter. */
  function ToLower(s: string): (r: string)
    ensures |r| == |s|
    ensures forall i :: 0 <= i < |s| ==> r[i] == LowerChar(s[i])
    ensures forall i :: 0 <= i < |r| ==> !IsUpper(r[i])
  {
    if s == [] then [] else [LowerChar(s[0])] + ToLower(s[1..])
  }

  /** Lowering an already lowered string changes nothing. */
  lemma ToLowerIdempotent(s: string)
    ensures ToLower(ToLower(s)) == ToLower(s)
  {
    var once := ToLower(s);
    assert forall i :: 0 <= i < |once| ==> LowerChar(once[i]) == once[i];
  }

  lemma ToLowerAppend(a: string, b: string)
    ensures ToLower(a + b) == ToLower(a) + ToLower(b)
  {
  }

  /** `t` sits in `s` starting at index `i`. */
  predicate OccursAt(s: string, t: string, i: int) {
    0 <= i && i + |t| <= |s| && s[i..i + |t|] == t
  }

  /** `s.includes(t)`. */
  predicate Includes(s: string, t: string) {
    exists i :: 0 <= i <= |s| && OccursAt(s, t, i)
  }

  /** `s.toLowerCase().includes(t.toLowerCase())`. */
  predicate IncludesIgnoringCase(s: string, t: string) {
    Includes(ToLower(s), ToLower(t))
  }

  /** Every string includes the empty string, so an empty search term matches everything. */
  lemma IncludesEmpty(s: string)
    ensures Includes(s, "")
    ensures IncludesIgnoringCase(s, "")
  {
    assert OccursAt(s, "", 0);
    assert OccursAt(ToLower(s), ToLower(""), 0);
  }

  /** A string includes itself, in either case-sensitivity. */
  lemma IncludesSelf(s: string)
    ensures Includes(s, s)
    ensures IncludesIgnoringCase(s, s)
  {
    assert s[0..|s|] == s;
    assert OccursAt(s, s, 0);
    assert ToLower(s)[0..|s|] == ToLower(s);
    assert OccursAt(ToLower(s), ToLower(s), 0);
  }

  /** A case-sensitive occurrence is also a case-insensitive one. */
  lemma IncludesImpliesIgnoringCase(s: string, t: string)
    requires Includes(s, t)
    ensures IncludesIgnoringCase(s, t)
  {
    var i :| 0 <= i <= |s| && OccursAt(s, t, i);
    var ls, lt := ToLower(s), ToLower(t);
    assert ls[i..i + |t|] == lt by {
      forall k | 0 <= k < |t|
        ensures ls[i..i + |t|][k] == lt[k]
      {
        assert s[i..i + |t|][k] == t[k];
      }
    }
    assert OccursAt(ls, lt, i);
  }

  /**
   * ECMAScript WhiteSpace and LineTerminator code points: what
   * `String.prototype.trim` removes.
   */
  predicate IsJsSpace(c: char) {
    var n := c as int;
    n == 0x09 || n == 0x0A || n == 0x0B || n == 0x0C || n == 0x0D || n == 0x20
    || n == 0xA0 || n == 0x1680 || (0x2000 <= n <= 0x200A) || n == 0x2028
    || n == 0x2029 || n == 0x202F || n == 0x205F || n == 0x3000 || n == 0xFEFF
  }

  predicate AllSpace(s: string) {
    forall i :: 0 <= i < |s| ==> IsJsSpace(s[i])
  }

  /** Every character outside `s[i..j]` is white space. */
  predicate BlankOutside(s: string, i: int, j: int)
    requires 0 <= i <= j <= |s|
  {
    && (forall k :: 0 <= k < i ==> IsJsSpace(s[k]))
    && (forall k :: j <= k < |s| ==> IsJsSpace(s[k]))
  }

  /** Drops the leading white space: the result is a suffix of `s` after blanks only. */
  function TrimStart(s: string): (r: string)
    ensures |r| <= |s| && r == s[|s| - |r|..]
    ensures forall k :: 0 <= k < |s| - |r| ==> IsJsSpace(s[k])
    ensures r != [] ==> !IsJsSpace(r[0])
  {
    if s != [] && IsJsSpace(s[0]) then
      var r := TrimStart(s[1..]);
      assert forall k :: 1 <= k < |s| - |r| ==> s[k] == s[1..][k - 1];
      r
    else s
  }

  /** Drops the trailing white space: the result is a prefix of `s` followed by blanks only. */
  function TrimEnd(s: string): (r: string)
    ensures |r| <= |s| && r == s[..|r|]
    ensures forall k :: |r| <= k < |s| ==> IsJsSpace(s[k])
    ensures r != [] ==> !IsJsSpace(r[|r| - 1])
  {
    if s != [] && IsJsSpace(s[|s| - 1]) then TrimEnd(s[..|s| - 1]) else s
  }

  /** `String.prototype.trim`: neither end of the result is white space. */
  function Trim(s: string): (r: string)
    ensures r != [] ==> !IsJsSpace(r[0]) && !IsJsSpace(r[|r| - 1])
  {
    TrimEnd(TrimStart(s))
  }

  /** The trimmed string is a slice of `s` with only white space cut away at either end. */
  lemma TrimIsInnerSlice(s: string)
    ensures exists i, j :: 0 <= i <= j <= |s| && Trim(s) == s[i..j] && BlankOutside(s, i, j)
  {
    var t := TrimStart(s);
    var r := TrimEnd(t);
    var i := |s| - |t|;
    var j := i + |r|;
    TrimEndWithin(s, i);
    assert Trim(s) == s[i..j];
  }

  /** Trimming the end of a suffix of `s` leaves a slice of `s` whose cut-off end is blank. */
  lemma TrimEndWithin(s: string, i: nat)
    requires i <= |s| && BlankOutside(s, i, |s|)
    ensures var r := TrimEnd(s[i..]); i + |r| <= |s| && r == s[i..i + |r|] && BlankOutside(s, i, i + |r|)
  {
    var t := s[i..];
    var r := TrimEnd(t);
    forall k | i + |r| <= k < |s|
      ensures IsJsSpace(s[k])
    {
      assert s[k] == t[k - i];
    }
  }

  lemma TrimStartNoSpace(s: string)
    requires s == [] || !IsJsSpace(s[0])
    ensures TrimStart(s) == s
  {
  }

  lemma TrimEndNoSpace(s: string)
    requires s == [] || !IsJsSpace(s[|s| - 1])
    ensures TrimEnd(s) == s
  {
  }

  /** Trimming twice is trimming once: a stored, trimmed value is a fixed point. */
  lemma TrimIdempotent(s: string)
    ensures Trim(Trim(s)) == Trim(s)
  {
    var r := Trim(s);
    TrimStartNoSpace(r);
    TrimEndNoSpace(r);
  }

  /** The trimmed string is empty exactly when the input is blank. */
  lemma {:induction false} TrimEmptyIffBlank(s: string)
    ensures Trim(s) == "" <==> AllSpace(s)
  {
    if AllSpace(s) {
      BlankTrimStart(s);
    }
  }

  lemma {:induction false} BlankTrimStart(s: string)
    requires AllSpace(s)
    ensures TrimStart(s) == ""
  {
    if s != [] {
      BlankTrimStart(s[1..]);
    }
  }

  lemma LowerKeepsSpace(c: char)
    ensures IsJsSpace(LowerChar(c)) == IsJsSpace(c)
  {
  }

  lemma {:induction false} LowerTrimStartCommute(s: string)
    ensures ToLower(TrimStart(s)) == TrimStart(ToLower(s))
  {
    if s != [] {
      LowerKeepsSpace(s[0]);
      assert ToLower(s)[1..] == ToLower(s[1..]);
      if IsJsSpace(s[0]) {
        LowerTrimStartCommute(s[1..]);
      }
    }
  }

  lemma {:induction false} LowerTrimEndCommute(s: string)
    ensures ToLower(TrimEnd(s)) == TrimEnd(ToLower(s))
  {
    if s != [] {
      var n := |s| - 1;
      LowerKeepsSpace(s[n]);
      assert ToLower(s)[..n] == ToLower(s[..n]);
      if IsJsSpace(s[n]) {
        LowerTrimEndCommute(s[..n]);
      }
    }
  }

  /**
   * Lower-casing and trimming commute, so the order in which a schema applies
   * its `trim` and `lowercase` setters does not matter.
   */
  lemma LowerTrimCommute(s: string)
    ensures ToLower(Trim(s)) == Trim(ToLower(s))
  {
    LowerTrimEndCommute(TrimStart(s));
    LowerTrimStartCommute(s);
  }
}
