/** The string operations of Go's `strings` and `strconv` packages that the converter uses. */
module Text {

  datatype Option<+T> = None | Some(value: T) {
    function GetOr(default: T): T {
      match this
      case Some(v) => v
      case None => default
    }
  }

  // ---------- Splitting and joining ----------

  /** `strings.Split` and `strings.SplitSeq` with a one-character separator. */
  function Split(s: string, sep: char): (parts: seq<string>)
    ensures |parts| >= 1
    ensures forall p | p in parts :: sep !in p
  {
    if s == "" then [""]
    else
      var rest := Split(s[1..], sep);
      if s[0] == sep then [""] + rest else [[s[0]] + rest[0]] + rest[1..]
  }

  function Join(parts: seq<string>, sep: char): string
    requires |parts| >= 1
  {
    if |parts| == 1 then parts[0] else parts[0] + [sep] + Join(parts[1..], sep)
  }

  lemma SplitFirst(s: string, sep: char)
    ensures Split(s, sep) ==
            if s == "" then [""]
            else if s[0] == sep then [""] + Split(s[1..], sep)
            else [[s[0]] + Split(s[1..], sep)[0]] + Split(s[1..], sep)[1..]
  {
  }

  lemma {:induction false} SplitOfConcat(a: string, b: string, sep: char)
    ensures Split(a + [sep] + b, sep) == Split(a, sep) + Split(b, sep)
  {
    hide Split;
    var s := a + [sep] + b;
    SplitFirst(s, sep);
    SplitFirst(a, sep);
    if a == "" {
      assert s[1..] == b;
    } else {
      SplitOfConcat(a[1..], b, sep);
      assert s[1..] == a[1..] + [sep] + b && s[0] == a[0];
      var left, right := Split(a[1..], sep), Split(b, sep);
      assert (left + right)[0] == left[0] && (left + right)[1..] == left[1..] + right;
    }
  }

  lemma {:induction false} SplitWithoutSeparator(a: string, sep: char)
    requires sep !in a
    ensures Split(a, sep) == [a]
  {
    if a != "" {
      SplitWithoutSeparator(a[1..], sep);
      assert [a[0]] + a[1..] == a;
    }
  }

  lemma SplitAtSeparator(a: string, b: string, sep: char)
    requires sep !in a
    ensures Split(a + [sep] + b, sep) == [a] + Split(b, sep)
  {
    hide Split;
    SplitOfConcat(a, b, sep);
    SplitWithoutSeparator(a, sep);
  }

  /** Splitting is the left inverse of joining, for parts that do not hold the separator. */
  lemma {:induction false} SplitOfJoin(parts: seq<string>, sep: char)
    requires |parts| >= 1
    requires forall p | p in parts :: sep !in p
    ensures Split(Join(parts, sep), sep) == parts
  {
    if |parts| == 1 {
      SplitWithoutSeparator(parts[0], sep);
      assert parts == [parts[0]];
    } else {
      SplitAtSeparator(parts[0], Join(parts[1..], sep), sep);
      SplitOfJoin(parts[1..], sep);
      assert parts == [parts[0]] + parts[1..];
    }
  }

  // ---------- Trimming and case ----------

  /** Unicode White_Space, as `unicode.IsSpace` reads it. */
  predicate IsSpace(c: char) {
    || '\U{0009}' <= c <= '\U{000D}'
    || c == ' ' || c == '\U{0085}' || c == '\U{00A0}' || c == '\U{1680}'
    || '\U{2000}' <= c <= '\U{200A}'
    || c == '\U{2028}' || c == '\U{2029}' || c == '\U{202F}' || c == '\U{205F}' || c == '\U{3000}'
  }

  function TrimLeft(s: string): (r: string)
    ensures r == "" || !IsSpace(r[0])
    ensures |r| <= |s| && r == s[|s| - |r|..]
    ensures forall i | 0 <= i < |s| - |r| :: IsSpace(s[i])
  {
    if s != "" && IsSpace(s[0]) then TrimLeft(s[1..]) else s
  }

  function TrimRight(s: string): (r: string)
    ensures r == "" || !IsSpace(r[|r| - 1])
    ensures |r| <= |s| && r == s[..|r|]
    ensures forall i | |r| <= i < |s| :: IsSpace(s[i])
  {
    if s != "" && IsSpace(s[|s| - 1]) then TrimRight(s[..|s| - 1]) else s
  }

  /** `strings.TrimSpace`. */
  function TrimSpace(s: string): string {
    TrimRight(TrimLeft(s))
  }

  predicate Blank(s: string) { forall c | c in s :: IsSpace(c) }

  predicate Trimmed(s: string) { s == "" || (!IsSpace(s[0]) && !IsSpace(s[|s| - 1])) }

  lemma {:induction false} TrimLeftOfPadded(pre: string, s: string)
    requires Blank(pre) && (s == "" || !IsSpace(s[0]))
    ensures TrimLeft(pre + s) == s
  {
    hide IsSpace;
    if pre == "" {
      assert pre + s == s;
    } else {
      assert pre[0] in pre && (pre + s)[0] == pre[0] && (pre + s)[1..] == pre[1..] + s;
      TrimLeftOfPadded(pre[1..], s);
    }
  }

  lemma {:induction false} TrimRightOfPadded(s: string, post: string)
    requires Blank(post) && (s == "" || !IsSpace(s[|s| - 1]))
    ensures TrimRight(s + post) == s
  {
    hide IsSpace;
    if post == "" {
      assert s + post == s;
    } else {
      var all, last := s + post, post[|post| - 1];
      assert last in post && all[|all| - 1] == last && all[..|all| - 1] == s + post[..|post| - 1];
      TrimRightOfPadded(s, post[..|post| - 1]);
    }
  }

  /** Trimming removes the spaces on both sides and nothing else. */
  lemma TrimOfPadded(pre: string, core: string, post: string)
    requires Blank(pre) && Blank(post) && Trimmed(core)
    ensures TrimSpace(pre + core + post) == core
  {
    hide TrimLeft;
    hide TrimRight;
    if core == "" {
      assert pre + core + post == (pre + post) + "";
      TrimLeftOfPadded(pre + post, "");
      TrimRightOfPadded("", "");
      assert "" + "" == "";
    } else {
      assert pre + core + post == pre + (core + post);
      TrimLeftOfPadded(pre, core + post);
      TrimRightOfPadded(core, post);
    }
  }

  /** Lower case on ASCII letters: what matters for comparing with "http", "https", "set" and "delete". */
  function ToLower(s: string): string {
    seq(|s|, i requires 0 <= i < |s| =>
      if 'A' <= s[i] <= 'Z' then s[i] - 'A' + 'a' else s[i])
  }

  // ---------- Numbers ----------

  const MAX_INT32 := 0x7FFF_FFFF
  const TWO_TO_THE_31 := 0x8000_0000
  const TWO_TO_THE_63 := 0x8000_0000_0000_0000
  const TWO_TO_THE_64 := 0x1_0000_0000_0000_0000

  predicate IsDigit(c: char) { '0' <= c <= '9' }

  predicate AllDigits(s: string) { forall c | c in s :: IsDigit(c) }

  function DigitsValue(s: string): nat
    requires AllDigits(s)
  {
    if s == "" then 0
    else
      assert IsDigit(s[|s| - 1]);
      DigitsValue(s[..|s| - 1]) * 10 + (s[|s| - 1] - '0') as nat
  }

  /** `strconv.ParseInt(s, 10, bits)`, where `limit` is 2^(bits-1); `strconv.Atoi` is the 64-bit case. */
  function ParseInt(s: string, limit: int): (r: Option<int>)
    requires limit > 0
    ensures r.Some? ==> -limit <= r.value < limit
    ensures r.Some? && '-' !in s ==> 0 <= r.value
  {
    var negative := s != "" && s[0] == '-';
    var digits := if s != "" && (s[0] == '-' || s[0] == '+') then s[1..] else s;
    if digits == "" || !AllDigits(digits) then None
    else
      var n: int := DigitsValue(digits);
      if negative then (if n > limit then None else Some(-n))
      else if n >= limit then None else Some(n)
  }

  /** `strconv.ParseBool`. */
  function ParseBool(s: string): Option<bool> {
    if s in ["1", "t", "T", "TRUE", "true", "True"] then Some(true)
    else if s in ["0", "f", "F", "FALSE", "false", "False"] then Some(false)
    else None
  }

  function Print(n: nat): (s: string)
    ensures s != "" && AllDigits(s)
  {
    if n < 10 then [n as char + '0'] else Print(n / 10) + [(n % 10) as char + '0']
  }

  lemma {:induction false} DigitsOfPrint(n: nat)
    ensures DigitsValue(Print(n)) == n
  {
    if n >= 10 {
      DigitsOfPrint(n / 10);
      var s := Print(n);
      assert s[..|s| - 1] == Print(n / 10);
    } else {
      assert Print(n)[..0] == "";
    }
  }

  lemma ParseOfPrint(n: nat, limit: nat)
    requires n < limit
    ensures ParseInt(Print(n), limit) == Some(n)
  {
    DigitsOfPrint(n);
    assert IsDigit(Print(n)[0]);
  }

  /** One sign may come first; the least number is read, the greatest is one less. */
  lemma ParseOfSigned(n: nat, limit: int)
    requires limit > 0
    ensures ParseInt(['-'] + Print(n), limit) == if n <= limit then Some(0 - n) else None
    ensures ParseInt(['+'] + Print(n), limit) == if n < limit then Some(n) else None
    ensures ParseInt(Print(n), limit) == if n < limit then Some(n) else None
  {
    DigitsOfPrint(n);
    assert IsDigit(Print(n)[0]);
    assert (['-'] + Print(n))[1..] == Print(n) == (['+'] + Print(n))[1..];
  }

  /** Nothing else is read as a number: at most one sign, and digits, at least one of them. */
  lemma OnlyNumbersParse(s: string, limit: int)
    requires limit > 0 && ParseInt(s, limit).Some?
    ensures s != "" && AllDigits(s[1..]) && if |s| == 1 then IsDigit(s[0]) else IsDigit(s[0]) || s[0] in "+-"
  {
    hide DigitsValue;
  }

  lemma TrimOfPrint(n: nat)
    ensures TrimSpace(Print(n)) == Print(n)
  {
    hide Print;
    hide TrimSpace;
    var s := Print(n);
    assert IsDigit(s[0]) && IsDigit(s[|s| - 1]);
    assert s == "" + s + "";
    TrimOfPadded("", s, "");
  }

  lemma PrintIsPlain(n: nat)
    ensures '-' !in Print(n) && ',' !in Print(n)
  {
  }

  /** Two's-complement reading of a Go `int64` product. */
  function WrapInt64(x: int): (r: int)
    ensures -TWO_TO_THE_63 <= r < TWO_TO_THE_63
    ensures (x - r) % TWO_TO_THE_64 == 0
  {
    (x + TWO_TO_THE_63) % TWO_TO_THE_64 - TWO_TO_THE_63
  }
}
