/** String helpers with the meaning JavaScript gives them: `trim`, a split on
    the line-break pattern `\r\n|\r|\n`, `startsWith`, and the decimal text of
    a number in a template literal. */
module Text {

  /** The characters `String.prototype.trim` removes: ECMAScript WhiteSpace
      (tab, vertical tab, form feed, space, no-break space, byte order mark and
      the Unicode space separators) and LineTerminator (LF, CR, LS, PS). */
  predicate IsTrimmable(c: char)
  {
    var k := c as int;
    || k == 0x09 || k == 0x0A || k == 0x0B || k == 0x0C || k == 0x0D
    || k == 0x20 || k == 0xA0 || k == 0x1680
    || (0x2000 <= k <= 0x200A)
    || k == 0x2028 || k == 0x2029 || k == 0x202F || k == 0x205F
    || k == 0x3000 || k == 0xFEFF
  }

  predicate AllTrimmable(s: string)
  {
    forall i :: 0 <= i < |s| ==> IsTrimmable(s[i])
  }

  /** True of a string that `trim` leaves as it is. */
  predicate IsTrimmed(s: string)
  {
    s == [] || (!IsTrimmable(s[0]) && !IsTrimmable(s[|s| - 1]))
  }

  predicate IsBreak(c: char)
  {
    c == '\r' || c == '\n'
  }

  /** The string holds neither CR nor LF. */
  predicate NoBreak(s: string)
  {
    forall i :: 0 <= i < |s| ==> !IsBreak(s[i])
  }

  predicate StartsWith(s: string, prefix: string)
  {
    |prefix| <= |s| && s[..|prefix|] == prefix
  }

  /** The first index at or after `i` that holds a character `trim` keeps,
      or `|s|` when there is none. */
  function SkipLead(s: string, i: nat): (k: nat)
    requires i <= |s|
    ensures i <= k <= |s|
    ensures forall j :: i <= j < k ==> IsTrimmable(s[j])
    ensures k < |s| ==> !IsTrimmable(s[k])
    decreases |s| - i
  {
    if i < |s| && IsTrimmable(s[i]) then SkipLead(s, i + 1) else i
  }

  /** The least index `k` at or above `lo`, and at most `hi`, with only
      trimmable characters in `s[k..hi]`. */
  function SkipTrail(s: string, lo: nat, hi: nat): (k: nat)
    requires lo <= hi <= |s|
    ensures lo <= k <= hi
    ensures forall j :: k <= j < hi ==> IsTrimmable(s[j])
    ensures k > lo ==> !IsTrimmable(s[k - 1])
    decreases hi - lo
  {
    if hi > lo && IsTrimmable(s[hi - 1]) then SkipTrail(s, lo, hi - 1) else hi
  }

  /** How many characters `Trim` drops at the front. */
  function Lead(s: string): (k: nat)
    ensures k <= |s|
  {
    SkipLead(s, 0)
  }

  /** `s.trim()`: the result is the piece of `s` that starts `Lead(s)`
      characters in, only trimmable characters lie around it, and it neither
      starts nor ends with one. */
  function Trim(s: string): (r: string)
    ensures Lead(s) + |r| <= |s| && r == s[Lead(s)..Lead(s) + |r|]
    ensures forall j :: 0 <= j < Lead(s) ==> IsTrimmable(s[j])
    ensures forall j :: Lead(s) + |r| <= j < |s| ==> IsTrimmable(s[j])
    ensures IsTrimmed(r)
    ensures r == [] <==> AllTrimmable(s)
  {
    var lo := SkipLead(s, 0);
    var hi := SkipTrail(s, lo, |s|);
    var r := s[lo..hi];
    assert r != [] ==> r[0] == s[lo] && r[|r| - 1] == s[hi - 1];
    assert r == [] ==> lo == |s|;
    r
  }

  /** A trimmed string is a fixed point of `Trim`. */
  lemma TrimOfTrimmed(s: string)
    requires IsTrimmed(s)
    ensures Trim(s) == s
  {
    if s != [] {
      assert !IsTrimmable(s[0]);
      assert SkipLead(s, 0) == 0;
      assert SkipTrail(s, 0, |s|) == |s|;
    }
  }

  /** `Trim` is idempotent. */
  lemma TrimIdempotent(s: string)
    ensures Trim(Trim(s)) == Trim(s)
  {
    TrimOfTrimmed(Trim(s));
  }

  /** Whatever `Trim` returns is a piece of its argument, so a break-free
      argument gives a break-free result. */
  lemma TrimKeepsNoBreak(s: string)
    requires NoBreak(s)
    ensures NoBreak(Trim(s))
  {
    var r := Trim(s);
    var k := Lead(s);
    forall i | 0 <= i < |r|
      ensures !IsBreak(r[i])
    {
      assert r[i] == s[k + i];
    }
  }

  /** `s.split(/\r\n|\r|\n/)`: the pieces between line breaks, where a CR
      directly followed by LF is one break. There is always at least one
      piece, and no piece holds a CR or LF. */
  function SplitLines(s: string): (parts: seq<string>)
    ensures |parts| >= 1
    ensures forall i :: 0 <= i < |parts| ==> NoBreak(parts[i])
    decreases |s|
  {
    if |s| == 0 then [""]
    else if s[0] == '\n' then [""] + SplitLines(s[1..])
    else if s[0] == '\r' then
      if |s| > 1 && s[1] == '\n' then [""] + SplitLines(s[2..])
      else [""] + SplitLines(s[1..])
    else
      var rest := SplitLines(s[1..]);
      [[s[0]] + rest[0]] + rest[1..]
  }

  /** The pieces glued back with LF between them. */
  function JoinLines(parts: seq<string>): string
  {
    if |parts| == 0 then ""
    else if |parts| == 1 then parts[0]
    else parts[0] + "\n" + JoinLines(parts[1..])
  }

  /** A reference for what splitting forgets: every CRLF and every lone CR
      becomes LF. */
  function NormalizeBreaks(s: string): (r: string)
    decreases |s|
  {
    if |s| == 0 then ""
    else if s[0] == '\r' then
      if |s| > 1 && s[1] == '\n' then "\n" + NormalizeBreaks(s[2..])
      else "\n" + NormalizeBreaks(s[1..])
    else [s[0]] + NormalizeBreaks(s[1..])
  }

  lemma JoinLinesConsFirst(c: char, p: string, tail: seq<string>)
    ensures JoinLines([[c] + p] + tail) == [c] + JoinLines([p] + tail)
  {
    if |tail| > 0 {
      assert ([[c] + p] + tail)[1..] == tail;
      assert ([p] + tail)[1..] == tail;
    }
  }

  /** Splitting then joining with LF normalizes the line breaks. */
  lemma {:induction false} JoinSplitLines(s: string)
    ensures JoinLines(SplitLines(s)) == NormalizeBreaks(s)
    decreases |s|
  {
    if |s| == 0 {
    } else if s[0] == '\n' || s[0] == '\r' {
      var k := if s[0] == '\r' && |s| > 1 && s[1] == '\n' then 2 else 1;
      var rest := SplitLines(s[k..]);
      assert SplitLines(s) == [""] + rest;
      JoinSplitLines(s[k..]);
      assert ([""] + rest)[1..] == rest;
    } else {
      var rest := SplitLines(s[1..]);
      JoinSplitLines(s[1..]);
      JoinLinesConsFirst(s[0], rest[0], rest[1..]);
      assert [rest[0]] + rest[1..] == rest;
    }
  }

  lemma {:induction false} SplitLinesOfPiece(p: string, t: string)
    requires NoBreak(p)
    ensures SplitLines(p) == [p]
    ensures SplitLines(p + "\n" + t) == [p] + SplitLines(t)
    decreases |p|
  {
    if |p| == 0 {
      assert p + "\n" + t == "\n" + t;
      assert ("\n" + t)[1..] == t;
    } else {
      assert !IsBreak(p[0]);
      SplitLinesOfPiece(p[1..], t);
      assert (p + "\n" + t)[1..] == p[1..] + "\n" + t;
      assert [p[0]] + p[1..] == p;
    }
  }

  /** Joining break-free pieces with LF and splitting again gives the pieces
      back. */
  lemma {:induction false} SplitJoinLines(parts: seq<string>)
    requires |parts| >= 1
    requires forall i :: 0 <= i < |parts| ==> NoBreak(parts[i])
    ensures SplitLines(JoinLines(parts)) == parts
    decreases |parts|
  {
    if |parts| == 1 {
      SplitLinesOfPiece(parts[0], "");
    } else {
      SplitJoinLines(parts[1..]);
      SplitLinesOfPiece(parts[0], JoinLines(parts[1..]));
      assert [parts[0]] + parts[1..] == parts;
    }
  }

  function DigitChar(d: nat): (c: char)
    requires d < 10
    ensures '0' <= c <= '9' && c as int - '0' as int == d
  {
    ('0' as int + d) as char
  }

  predicate IsDigits(s: string)
  {
    forall i :: 0 <= i < |s| ==> '0' <= s[i] <= '9'
  }

  /** The decimal text of a number, as `${n}` writes it: non-empty, digits
      only, and no leading zero. */
  function DecimalString(n: nat): (r: string)
    ensures |r| >= 1 && IsDigits(r)
    ensures r[0] == '0' ==> n == 0
    decreases n
  {
    if n < 10 then [DigitChar(n)]
    else DecimalString(n / 10) + [DigitChar(n % 10)]
  }

  /** The number a string of digits denotes. */
  function DecimalValue(s: string): nat
    requires IsDigits(s)
  {
    if |s| == 0 then 0
    else DecimalValue(s[..|s| - 1]) * 10 + (s[|s| - 1] as int - '0' as int)
  }

  /** Reading back the decimal text of `n` gives `n`. */
  lemma {:induction false} DecimalRoundTrip(n: nat)
    ensures DecimalValue(DecimalString(n)) == n
    decreases n
  {
    if n >= 10 {
      DecimalRoundTrip(n / 10);
      var s := DecimalString(n);
      assert s[..|s| - 1] == DecimalString(n / 10);
    }
  }

  /** Different numbers have different decimal texts. */
  lemma DecimalStringInjective(m: nat, n: nat)
    requires DecimalString(m) == DecimalString(n)
    ensures m == n
  {
    DecimalRoundTrip(m);
    DecimalRoundTrip(n);
  }
}
