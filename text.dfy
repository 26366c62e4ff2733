/** String operations of Python that the modelled code relies on: `str.lower()`,
    the `in` substring test, `str.split()` without arguments, and `'%s' %` of an
    integer, a string or `None`. */
module Text {
  import opened Values

  // ---------------------------------------------------------------------------
  // Case

  function LowerChar(c: char): char
  {
    if 'A' <= c <= 'Z' then (c as int + 32) as char else c
  }

  function UpperChar(c: char): char
  {
    if 'a' <= c <= 'z' then (c as int - 32) as char else c
  }

  /** `s.lower()` on the ASCII letters; every other character is kept. */
  function Lower(s: string): (r: string)
    ensures |r| == |s|
  {
    if s == [] then [] else [LowerChar(s[0])] + Lower(s[1..])
  }

  /** `s.upper()` on the ASCII letters. */
  function Upper(s: string): (r: string)
    ensures |r| == |s|
  {
    if s == [] then [] else [UpperChar(s[0])] + Upper(s[1..])
  }

  lemma {:induction false} LowerAt(s: string, i: nat)
    requires i < |s|
    ensures Lower(s)[i] == LowerChar(s[i])
  {
    if i > 0 {
      LowerAt(s[1..], i - 1);
    }
  }

  lemma {:induction false} UpperAt(s: string, i: nat)
    requires i < |s|
    ensures Upper(s)[i] == UpperChar(s[i])
  {
    if i > 0 {
      UpperAt(s[1..], i - 1);
    }
  }

  /** Two strings are equal up to the case of their ASCII letters. */
  predicate EqualIgnoringCase(s: string, t: string)
  {
    |s| == |t| && forall i :: 0 <= i < |s| ==> LowerChar(s[i]) == LowerChar(t[i])
  }

  /** Lower-casing identifies exactly the strings that differ only in case. */
  lemma LowerEqualIff(s: string, t: string)
    ensures Lower(s) == Lower(t) <==> EqualIgnoringCase(s, t)
  {
    if Lower(s) == Lower(t) {
      forall i | 0 <= i < |s|
        ensures LowerChar(s[i]) == LowerChar(t[i])
      {
        LowerAt(s, i);
        LowerAt(t, i);
      }
    }
    if EqualIgnoringCase(s, t) {
      forall i | 0 <= i < |s|
        ensures Lower(s)[i] == Lower(t)[i]
      {
        LowerAt(s, i);
        LowerAt(t, i);
      }
    }
  }

  /** Upper-casing a string never changes what it lower-cases to. */
  lemma UpperKeepsLower(s: string)
    ensures Lower(Upper(s)) == Lower(s)
  {
    forall i | 0 <= i < |s|
      ensures LowerChar(Upper(s)[i]) == LowerChar(s[i])
    {
      UpperAt(s, i);
    }
    LowerEqualIff(Upper(s), s);
  }

  // ---------------------------------------------------------------------------
  // Substrings

  /** Python's `p in s` for strings. */
  predicate Contains(s: string, p: string)
    decreases |s|
  {
    p <= s || (s != [] && Contains(s[1..], p))
  }

  lemma {:induction false} ContainsAfter(pre: string, p: string, post: string)
    ensures Contains(pre + p + post, p)
    decreases |pre|
  {
    if pre == [] {
      assert pre + p + post == p + post;
    } else {
      assert (pre + p + post)[1..] == pre[1..] + p + post;
      ContainsAfter(pre[1..], p, post);
    }
  }

  /** Index of the last of the first `k` lines that contains `marker`. */
  function LastContaining(lines: seq<string>, k: nat, marker: string): (r: Option<nat>)
    requires k <= |lines|
    ensures r.Some? ==> r.value < k && Contains(lines[r.value], marker)
    ensures r.Some? ==> forall j :: r.value < j < k ==> !Contains(lines[j], marker)
    ensures r.None? ==> forall j :: 0 <= j < k ==> !Contains(lines[j], marker)
  {
    if k == 0 then None
    else if Contains(lines[k - 1], marker) then Some(k - 1)
    else LastContaining(lines, k - 1, marker)
  }

  /** Every character of a contained string occurs in the containing one. */
  lemma {:induction false} ContainsChars(s: string, p: string, c: char)
    requires Contains(s, p) && c in p
    ensures c in s
    decreases |s|
  {
    if p <= s {
      var k :| 0 <= k < |p| && p[k] == c;
      assert s[k] == c;
    } else {
      ContainsChars(s[1..], p, c);
      var k :| 0 <= k < |s[1..]| && s[1..][k] == c;
      assert s[k + 1] == c;
    }
  }

  // ---------------------------------------------------------------------------
  // Whitespace splitting

  /** The characters Python's `str.isspace()` accepts. */
  predicate IsSpace(c: char)
  {
    var n := c as int;
    n == 0x20 || 0x09 <= n <= 0x0D || 0x1C <= n <= 0x1F || n == 0x85 || n == 0xA0 ||
    n == 0x1680 || 0x2000 <= n <= 0x200A || n == 0x2028 || n == 0x2029 ||
    n == 0x202F || n == 0x205F || n == 0x3000
  }

  predicate AllSpaces(s: string)
  {
    forall i :: 0 <= i < |s| ==> IsSpace(s[i])
  }

  /** A field produced by `str.split()`: non-empty and free of whitespace. */
  predicate IsToken(t: string)
  {
    t != [] && forall i :: 0 <= i < |t| ==> !IsSpace(t[i])
  }

  /** Length of the longest whitespace-free prefix. */
  function TokenLength(s: string): (n: nat)
    ensures n <= |s|
    ensures forall i :: 0 <= i < n ==> !IsSpace(s[i])
    ensures n < |s| ==> IsSpace(s[n])
  {
    if s == [] || IsSpace(s[0]) then 0 else 1 + TokenLength(s[1..])
  }

  /** `s.split()`: the maximal whitespace-free runs of `s`, in order. */
  function SplitWs(s: string): (r: seq<string>)
    ensures forall k :: 0 <= k < |r| ==> IsToken(r[k])
    decreases |s|
  {
    if s == [] then []
    else if IsSpace(s[0]) then SplitWs(s[1..])
    else
      var n := TokenLength(s);
      [s[..n]] + SplitWs(s[n..])
  }

  lemma {:induction false} SplitSkipsSpaces(pad: string, s: string)
    requires AllSpaces(pad)
    ensures SplitWs(pad + s) == SplitWs(s)
    decreases |pad|
  {
    if pad == [] {
      assert pad + s == s;
    } else {
      assert (pad + s)[1..] == pad[1..] + s;
      assert IsSpace((pad + s)[0]);
      SplitSkipsSpaces(pad[1..], s);
    }
  }

  lemma {:induction false} TokenLengthOf(t: string, rest: string)
    requires forall i :: 0 <= i < |t| ==> !IsSpace(t[i])
    requires rest == [] || IsSpace(rest[0])
    ensures TokenLength(t + rest) == |t|
    decreases |t|
  {
    if t == [] {
      assert t + rest == rest;
    } else {
      assert (t + rest)[1..] == t[1..] + rest;
      TokenLengthOf(t[1..], rest);
    }
  }

  /** A token followed by whitespace (or nothing) is the first field of the split. */
  lemma SplitToken(t: string, rest: string)
    requires IsToken(t)
    requires rest == [] || IsSpace(rest[0])
    ensures SplitWs(t + rest) == [t] + SplitWs(rest)
  {
    TokenLengthOf(t, rest);
    var s := t + rest;
    assert s[..|t|] == t;
    assert s[|t|..] == rest;
  }

  // ---------------------------------------------------------------------------
  // Rendering with '%s'

  function DigitChar(d: nat): char
    requires d < 10
  {
    ('0' as int + d) as char
  }

  /** The decimal digits of a natural number. */
  function NatToString(n: nat): (r: string)
    ensures r != []
    ensures forall i :: 0 <= i < |r| ==> '0' <= r[i] <= '9'
  {
    if n < 10 then [DigitChar(n)] else NatToString(n / 10) + [DigitChar(n % 10)]
  }

  /** The number a string of decimal digits denotes. */
  function DigitsValue(s: string): nat
    requires forall i :: 0 <= i < |s| ==> '0' <= s[i] <= '9'
  {
    if s == [] then 0 else 10 * DigitsValue(s[..|s| - 1]) + (s[|s| - 1] as int - '0' as int)
  }

  /** Rendering a number in decimal loses nothing: reading the digits gives it back. */
  lemma {:induction false} NatToStringRoundTrip(n: nat)
    ensures DigitsValue(NatToString(n)) == n
  {
    if n >= 10 {
      var s := NatToString(n);
      assert s[..|s| - 1] == NatToString(n / 10);
      NatToStringRoundTrip(n / 10);
    }
  }

  /** `'%s' % i` for an integer. */
  function IntToString(i: int): (r: string)
    ensures r != []
    ensures (r[0] == '-') <==> i < 0
  {
    if i < 0 then "-" + NatToString(-i) else NatToString(i)
  }

  /** Different integers render differently. */
  lemma IntToStringInjective(i: int, j: int)
    requires IntToString(i) == IntToString(j)
    ensures i == j
  {
    if i < 0 {
      assert NatToString(-i) == IntToString(i)[1..];
      assert NatToString(-j) == IntToString(j)[1..];
      NatToStringRoundTrip(-i);
      NatToStringRoundTrip(-j);
    } else {
      NatToStringRoundTrip(i);
      NatToStringRoundTrip(j);
    }
  }

  // ---------------------------------------------------------------------------
  // Reading numbers

  /** `[float(x) for x in items]` with `float()` given as `toFloat`: the first item
      it refuses is reported. */
  function ParseFloats(items: seq<string>, toFloat: string -> Option<real>)
    : (r: Result<seq<real>, string>)
    ensures r.Ok? ==> |r.value| == |items| &&
                      forall k :: 0 <= k < |items| ==> toFloat(items[k]) == Some(r.value[k])
    ensures r.Err? ==> r.error in items && toFloat(r.error).None?
  {
    if items == [] then Ok([])
    else match toFloat(items[0])
      case None => Err(items[0])
      case Some(x) =>
        match ParseFloats(items[1..], toFloat)
        case Err(e) => Err(e)
        case Ok(xs) => Ok([x] + xs)
  }

  /** A job or calculation index as the callers pass it: an integer or a string. */
  datatype JobId = IntId(n: int) | StrId(s: string)

  /** `'%s' % job_id`. */
  function ShowJobId(j: JobId): string
  {
    match j
    case IntId(n) => IntToString(n)
    case StrId(s) => s
  }

  /** `'%s' % id` where `id` may be `None`. */
  function ShowOptionalId(j: Option<JobId>): (r: string)
    ensures j.None? ==> r == "None"
  {
    match j
    case None => "None"
    case Some(id) => ShowJobId(id)
  }

  /** `job_id is None or job_id == 1`, and equally `job_id in [None, 1]`. */
  predicate IsDefaultJob(j: Option<JobId>)
  {
    j == None || j == Some(IntId(1))
  }
}
