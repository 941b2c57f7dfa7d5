/**
 * Shared vocabulary of the model: optional values and error results (the
 * source's exceptions), vectors over the reals (the source's doubles), and
 * the text conventions its file formats rely on: decimal integers as
 * `lexical_cast<int>` reads and `operator<<` writes them, the space
 * tokenizer, Java's `String.split(" ")`, and `std::getline` line splitting.
 */
module Common {

  //#################### OPTIONS AND RESULTS ####################

  datatype Option<T> = None | Some(value: T)

  /** A computation that either yields a value or throws an exception with a cause string. */
  datatype Result<T> = Ok(value: T) | Err(error: string)
  {
    predicate IsFailure() { Err? }

    function PropagateFailure<U>(): Result<U>
      requires Err?
    {
      Err(error)
    }

    function Extract(): T
      requires Ok?
    {
      value
    }
  }

  /** The elements a test keeps, in order. */
  function Kept<T>(keep: T -> bool, bs: seq<T>): (r: seq<T>)
    ensures |r| <= |bs|
    ensures forall i :: 0 <= i < |r| ==> keep(r[i])
  {
    if |bs| == 0 then []
    else Kept(keep, bs[..|bs| - 1]) + (if keep(bs[|bs| - 1]) then [bs[|bs| - 1]] else [])
  }

  /** Keeping from a run with one more element at the end. */
  lemma KeptSnoc<T>(keep: T -> bool, xs: seq<T>, x: T)
    ensures Kept(keep, xs + [x]) == Kept(keep, xs) + (if keep(x) then [x] else [])
  {
    assert (xs + [x])[..|xs|] == xs;
  }

  /** Values gathered so far in front of those a later step yields; an error stays an error. */
  function Prepend<T>(acc: seq<T>, r: Result<seq<T>>): (q: Result<seq<T>>)
    ensures q.Ok? <==> r.Ok?
    ensures r.Ok? ==> q.value == acc + r.value
    ensures r.Err? ==> q == Err(r.error)
  {
    match r
    case Ok(v) => Ok(acc + v)
    case Err(e) => Err(e)
  }

  lemma PrependNil<T>(r: Result<seq<T>>)
    ensures Prepend([], r) == r
  {
    if r.Ok? {
      assert [] + r.value == r.value;
    }
  }

  lemma PrependPrepend<T>(a: seq<T>, b: seq<T>, r: Result<seq<T>>)
    ensures Prepend(a, Prepend(b, r)) == Prepend(a + b, r)
  {
    if r.Ok? {
      assert a + (b + r.value) == a + b + r.value;
    }
  }

  /** A loop step that parses one more value: what is gathered so far, then `v`, then the rest. */
  lemma PrependStep<T>(whole: Result<seq<T>>, acc: seq<T>, here: Result<seq<T>>, v: T, rest: Result<seq<T>>)
    requires whole == Prepend(acc, here) && here == Prepend([v], rest)
    ensures whole == Prepend(acc + [v], rest)
  {
    PrependPrepend(acc, [v], rest);
  }

  //#################### VECTORS ####################

  datatype Vec3 = Vec3(x: real, y: real, z: real)

  datatype Vec2 = Vec2(x: real, y: real)

  const Zero3: Vec3 := Vec3(0.0, 0.0, 0.0)

  function Add(a: Vec3, b: Vec3): Vec3 { Vec3(a.x + b.x, a.y + b.y, a.z + b.z) }

  function Sub(a: Vec3, b: Vec3): Vec3 { Vec3(a.x - b.x, a.y - b.y, a.z - b.z) }

  function Neg(a: Vec3): Vec3 { Vec3(-a.x, -a.y, -a.z) }

  function Scale(a: Vec3, k: real): Vec3 { Vec3(a.x * k, a.y * k, a.z * k) }

  function Dot(a: Vec3, b: Vec3): real { a.x * b.x + a.y * b.y + a.z * b.z }

  function Sub2(a: Vec2, b: Vec2): Vec2 { Vec2(a.x - b.x, a.y - b.y) }

  /** The sum of a sequence of vectors, added up from the first. */
  function Sum(vs: seq<Vec3>): Vec3
  {
    if |vs| == 0 then Zero3 else Add(Sum(vs[..|vs| - 1]), vs[|vs| - 1])
  }

  //#################### 32-BIT INTEGERS ####################

  const IntMin: int := -0x8000_0000
  const IntMax: int := 0x7FFF_FFFF

  predicate IsInt32(i: int) { IntMin <= i <= IntMax }

  //#################### DECIMAL TEXT ####################

  predicate IsDigit(c: char) { '0' <= c <= '9' }

  function DigitChar(d: nat): (c: char)
    requires d < 10
    ensures IsDigit(c) && c as int - '0' as int == d
  {
    ('0' as int + d) as char
  }

  /** The value of a non-empty run of decimal digits, most significant first; None for anything else. */
  function Digits(s: string): Option<nat>
    decreases |s|
  {
    if |s| == 0 || !IsDigit(s[|s| - 1]) then None
    else
      var d := s[|s| - 1] as int - '0' as int;
      if |s| == 1 then Some(d)
      else
        match Digits(s[..|s| - 1])
        case None => None
        case Some(v) => Some(10 * v + d)
  }

  /** Decimal form of a natural number, as `operator<<` writes it. */
  function NatToString(n: nat): (s: string)
    ensures |s| > 0
  {
    if n < 10 then [DigitChar(n)] else NatToString(n / 10) + [DigitChar(n % 10)]
  }

  /** Decimal form of an integer: a minus sign for negatives, no sign otherwise. */
  function IntToString(i: int): (s: string)
    ensures |s| > 0
  {
    if i < 0 then "-" + NatToString(-i) else NatToString(i)
  }

  lemma {:induction false} NatToStringDigits(n: nat)
    ensures forall k :: 0 <= k < |NatToString(n)| ==> IsDigit(NatToString(n)[k])
  {
    if n >= 10 {
      NatToStringDigits(n / 10);
    }
  }

  /** A decimal integer is one token, signed exactly when negative. */
  lemma IntToStringToken(i: int)
    ensures IsToken(IntToString(i)) && (IntToString(i)[0] == '-' <==> i < 0)
  {
    var s := IntToString(i);
    if i < 0 {
      NatToStringDigits(-i);
      assert forall k :: 1 <= k < |s| ==> s[k] == NatToString(-i)[k - 1];
    } else {
      NatToStringDigits(i);
    }
  }

  /**
   * `lexical_cast<int>`: an optional sign followed by at least one digit and
   * nothing else; a value outside the 32-bit range is rejected.
   */
  function ParseInt(s: string): (r: Option<int>)
    ensures r.Some? ==> IsInt32(r.value)
  {
    var signed := |s| > 0 && (s[0] == '-' || s[0] == '+');
    var negative := signed && s[0] == '-';
    var body := if signed then s[1..] else s;
    match Digits(body)
    case None => None
    case Some(v) =>
      var x: int := if negative then -(v as int) else v;
      if IsInt32(x) then Some(x) else None
  }

  lemma {:induction false} DigitsOfNatToString(n: nat)
    ensures Digits(NatToString(n)) == Some(n)
  {
    var s := NatToString(n);
    if n >= 10 {
      assert s[..|s| - 1] == NatToString(n / 10);
      DigitsOfNatToString(n / 10);
    }
  }

  /** What `operator<<` writes for an int, `lexical_cast<int>` reads back. */
  lemma ParseIntToString(i: int)
    requires IsInt32(i)
    ensures ParseInt(IntToString(i)) == Some(i)
  {
    var s := IntToString(i);
    if i < 0 {
      var d := NatToString(-i);
      DigitsOfNatToString(-i);
      assert s == "-" + d;
      assert s[1..] == d;
    } else {
      var d := NatToString(i);
      DigitsOfNatToString(i);
      assert s == d;
      assert IsDigit(s[0]) by {
        NatToStringDigits(i);
      }
    }
  }

  function NotDigit(c: char): bool { !IsDigit(c) }

  /**
   * `operator>>(int&)` on a string stream in the C locale: white space is
   * skipped, then an optional sign and the longest run of digits after it
   * are consumed, and whatever follows stays in the stream. None (failbit)
   * when no digit follows, or when the value is outside the 32-bit range.
   */
  function ExtractInt(s: string): (r: Option<(int, string)>)
    ensures r.Some? ==> IsInt32(r.value.0)
    decreases |s|
  {
    if |s| > 0 && IsSpace(s[0]) then ExtractInt(s[1..])
    else
      var signed := |s| > 0 && (s[0] == '-' || s[0] == '+');
      var start := if signed then 1 else 0;
      var e := NextSep(s, start, NotDigit);
      match Digits(s[start..e])
      case None => None
      case Some(v) =>
        var x: int := if signed && s[0] == '-' then -(v as int) else v;
        if IsInt32(x) then Some((x, s[e..])) else None
  }

  lemma {:induction false} DigitsAreDigits(s: string)
    requires Digits(s).Some?
    ensures |s| > 0 && forall k :: 0 <= k < |s| ==> IsDigit(s[k])
    decreases |s|
  {
    if |s| > 1 {
      DigitsAreDigits(s[..|s| - 1]);
      assert forall k :: 0 <= k < |s| - 1 ==> s[k] == s[..|s| - 1][k];
    }
  }

  lemma {:induction false} NextSepAt(s: string, k: nat, e: nat, sep: char -> bool)
    requires k <= e <= |s|
    requires forall m :: k <= m < e ==> !sep(s[m])
    requires e == |s| || sep(s[e])
    ensures NextSep(s, k, sep) == e
    decreases e - k
  {
    if k < e {
      NextSepAt(s, k + 1, e, sep);
    }
  }

  /**
   * A word that `lexical_cast<int>` accepts, followed by the end of the
   * text or by anything but a digit, is extracted whole by `operator>>`:
   * the two readers agree on whole words.
   */
  lemma ExtractIntOfWord(t: string, rest: string)
    requires ParseInt(t).Some?
    requires |rest| == 0 || !IsDigit(rest[0])
    ensures ExtractInt(t + rest) == Some((ParseInt(t).value, rest))
  {
    var s := t + rest;
    var signed := |t| > 0 && (t[0] == '-' || t[0] == '+');
    var start := if signed then 1 else 0;
    var body := if signed then t[1..] else t;
    DigitsAreDigits(body);
    assert s[0] == t[0] && !IsSpace(s[0]);
    forall m | start <= m < |t| ensures !NotDigit(s[m]) {
      assert s[m] == body[m - start];
    }
    NextSepAt(s, start, |t|, NotDigit);
    assert s[start..|t|] == body;
    assert s[|t|..] == rest;
  }

  /** White space in front of an int is skipped. */
  lemma ExtractIntSkips(w: string, s: string)
    requires forall k :: 0 <= k < |w| ==> IsSpace(w[k])
    ensures ExtractInt(w + s) == ExtractInt(s)
    decreases |w|
  {
    if |w| > 0 {
      assert (w + s)[0] == w[0] && IsSpace(w[0]);
      assert (w + s)[1..] == w[1..] + s;
      ExtractIntSkips(w[1..], s);
    } else {
      assert w + s == s;
    }
  }

  /**
   * `ss >> a >> b`: two ints extracted in turn, and what the stream holds
   * after them; once the first extraction fails the second fails too.
   */
  function ExtractTwoInts(s: string): (r: Option<(int, int, string)>)
    ensures r.Some? ==> IsInt32(r.value.0) && IsInt32(r.value.1)
  {
    match ExtractInt(s)
    case None => None
    case Some((a, afterA)) =>
      match ExtractInt(afterA)
      case None => None
      case Some((b, afterB)) => Some((a, b, afterB))
  }

  /** Two `lexical_cast<int>` words separated by a space are extracted whole, in order. */
  lemma ExtractTwoWords(a: string, b: string, rest: string)
    requires ParseInt(a).Some? && ParseInt(b).Some?
    requires |rest| == 0 || !IsDigit(rest[0])
    ensures ExtractTwoInts(a + " " + b + rest) == Some((ParseInt(a).value, ParseInt(b).value, rest))
  {
    var afterA := " " + b + rest;
    assert a + " " + b + rest == a + afterA;
    ExtractIntOfWord(a, afterA);
    assert afterA == " " + (b + rest);
    ExtractIntSkips(" ", b + rest);
    ExtractIntOfWord(b, rest);
  }

  /** An int followed at once by a negative int: the minus sign ends the first number. */
  lemma GluedSignHead(i: int, c: int, tail: string)
    requires IsInt32(i) && IsInt32(c) && c < 0
    requires |tail| > 0 && tail[0] == ' '
    ensures ExtractTwoInts(IntToString(i) + IntToString(c) + tail) == Some((i, c, tail))
  {
    var a := IntToString(i);
    var b := IntToString(c);
    ParseIntToString(i);
    ParseIntToString(c);
    IntToStringToken(c);
    assert a + b + tail == a + (b + tail);
    ExtractIntOfWord(a, b + tail);
    ExtractIntOfWord(b, tail);
  }

  //#################### TOKENS ####################

  /** `std::isspace` in the C locale: what `operator>>` skips. */
  predicate IsSpace(c: char) { c == ' ' || c == '\t' || c == '\n' || c == '\r' || c == '\U{000B}' || c == '\U{000C}' }

  /** A token that survives both tokenizers unchanged: non-empty, no white space. */
  predicate IsToken(s: string) { |s| > 0 && forall k :: 0 <= k < |s| ==> !IsSpace(s[k]) }

  /** Index of the first separator at or after `k`, or |s| if there is none. */
  function NextSep(s: string, k: nat, sep: char -> bool): (e: nat)
    requires k <= |s|
    ensures k <= e <= |s|
    ensures forall m :: k <= m < e ==> !sep(s[m])
    ensures e < |s| ==> sep(s[e])
    decreases |s| - k
  {
    if k == |s| || sep(s[k]) then k else NextSep(s, k + 1, sep)
  }

  /**
   * Maximal runs of non-separator characters, in order; empty runs are
   * dropped. With `sep` = space this is boost's `char_separator(" ")`
   * tokenizer; with `sep` = IsSpace it is what repeated `operator>>`
   * string extraction yields.
   */
  function Words(s: string, sep: char -> bool): seq<string>
    decreases |s|
  {
    if |s| == 0 then []
    else if sep(s[0]) then Words(s[1..], sep)
    else
      var e := NextSep(s, 0, sep);
      [s[..e]] + Words(s[e..], sep)
  }

  function IsBlank(c: char): bool { c == ' ' }

  /** Boost tokenizer over single spaces. */
  function Tokens(s: string): seq<string> { Words(s, IsBlank) }

  /** Words as `operator>>` extraction sees them. */
  function StreamWords(s: string): seq<string> { Words(s, IsSpace) }

  /** The tokens joined by single spaces. */
  function Join(ts: seq<string>): string
  {
    if |ts| == 0 then "" else if |ts| == 1 then ts[0] else ts[0] + " " + Join(ts[1..])
  }

  /** Joining two non-empty runs of tokens puts one space between them. */
  lemma {:induction false} JoinAppend(a: seq<string>, b: seq<string>)
    requires |a| > 0 && |b| > 0
    ensures Join(a + b) == Join(a) + " " + Join(b)
  {
    if |a| > 1 {
      assert (a + b)[1..] == a[1..] + b;
      JoinAppend(a[1..], b);
    } else {
      assert (a + b)[1..] == b;
    }
  }

  /** Lines joined by spaces are still one line. */
  lemma {:induction false} JoinOfLines(ts: seq<string>)
    requires AllLines(ts)
    ensures IsLine(Join(ts))
  {
    if |ts| > 1 {
      JoinOfLines(ts[1..]);
      assert IsLine(ts[0]);
      var j := Join(ts[1..]);
      assert Join(ts) == ts[0] + " " + j;
      forall k | 0 <= k < |Join(ts)| ensures Join(ts)[k] != '\n' {
        if k > |ts[0]| {
          assert Join(ts)[k] == j[k - |ts[0]| - 1];
        } else if k < |ts[0]| {
          assert Join(ts)[k] == ts[0][k];
        }
      }
    } else if |ts| == 1 {
      assert IsLine(ts[0]);
    }
  }

  /** Writing token k after tokens 0 … k−1: a space in between unless it is the first. */
  lemma JoinPrefixStep(ts: seq<string>, k: nat)
    requires k < |ts|
    ensures Join(ts[..k + 1]) == if k == 0 then ts[0] else Join(ts[..k]) + " " + ts[k]
  {
    if k > 0 {
      assert ts[..k + 1] == ts[..k] + [ts[k]];
      JoinAppend(ts[..k], [ts[k]]);
    } else {
      assert ts[..1] == [ts[0]];
    }
  }

  lemma {:induction false} NextSepOfToken(t: string, rest: string, sep: char -> bool)
    requires |t| > 0 && forall k :: 0 <= k < |t| ==> !sep(t[k])
    requires |rest| == 0 || sep(rest[0])
    ensures NextSep(t + rest, 0, sep) == |t|
  {
    var s := t + rest;
    var j := 0;
    while j < |t|
      invariant 0 <= j <= |t|
      invariant NextSep(s, 0, sep) == NextSep(s, j, sep)
    {
      j := j + 1;
    }
  }

  /** A word followed by a separator (or by nothing) is peeled off first. */
  lemma WordsCons(t: string, rest: string, sep: char -> bool)
    requires |t| > 0 && forall k :: 0 <= k < |t| ==> !sep(t[k])
    requires |rest| == 0 || sep(rest[0])
    ensures Words(t + rest, sep) == [t] + Words(rest, sep)
  {
    NextSepOfToken(t, rest, sep);
    var s := t + rest;
    assert s[..|t|] == t;
    assert s[|t|..] == rest;
  }

  lemma WordsSkip(rest: string, sep: char -> bool)
    requires |rest| > 0 && sep(rest[0])
    ensures Words(rest, sep) == Words(rest[1..], sep)
  {
  }

  /** Separator-only text has no words. */
  lemma {:induction false} WordsOfSeparators(s: string, sep: char -> bool)
    requires forall k :: 0 <= k < |s| ==> sep(s[k])
    ensures Words(s, sep) == []
  {
    if |s| > 0 {
      WordsOfSeparators(s[1..], sep);
    }
  }

  predicate NoSep(t: string, sep: char -> bool) { forall k :: 0 <= k < |t| ==> !sep(t[k]) }

  /** Joining words by one space and splitting again gives the words back. */
  lemma {:induction false} WordsOfJoin(ts: seq<string>, sep: char -> bool)
    requires sep(' ')
    requires forall i :: 0 <= i < |ts| ==> |ts[i]| > 0 && NoSep(ts[i], sep)
    ensures Words(Join(ts), sep) == ts
  {
    if |ts| == 1 {
      assert ts[0] + "" == ts[0];
      WordsCons(ts[0], "", sep);
    } else if |ts| > 1 {
      var rest := " " + Join(ts[1..]);
      assert Join(ts) == ts[0] + rest;
      WordsCons(ts[0], rest, sep);
      WordsSkip(rest, sep);
      assert rest[1..] == Join(ts[1..]);
      WordsOfJoin(ts[1..], sep);
    }
  }

  /** Concatenation splits at a separator: the words of both parts, in order. */
  lemma {:induction false} WordsAppend(a: string, b: string, sep: char -> bool)
    requires |b| == 0 || sep(b[0])
    requires |a| == 0 || sep(a[|a| - 1])
    ensures Words(a + b, sep) == Words(a, sep) + Words(b, sep)
    decreases |a|
  {
    if |a| == 0 {
      assert a + b == b;
    } else {
      if sep(a[0]) {
        assert (a + b)[1..] == a[1..] + b;
        WordsAppend(a[1..], b, sep);
      } else {
        var e := NextSep(a, 0, sep);
        WordsAppendStep(a, b, sep, e);
        WordsAppend(a[e..], b, sep);
        ConsAppend(Words(a + b, sep), Words(a[e..] + b, sep), Words(a, sep), Words(b, sep));
      }
    }
  }

  /** The first word of `a`, ended by a separator inside `a`, comes first in the words of a + b too. */
  lemma WordsAppendStep(a: string, b: string, sep: char -> bool, e: nat)
    requires |a| > 0 && sep(a[|a| - 1]) && !sep(a[0]) && e == NextSep(a, 0, sep)
    ensures 0 < e < |a| && sep(a[e..][|a[e..]| - 1])
    ensures Words(a, sep) == [a[..e]] + Words(a[e..], sep)
    ensures Words(a + b, sep) == [a[..e]] + Words(a[e..] + b, sep)
  {
    var t := a[..e];
    var rest := a[e..];
    assert a == t + rest;
    WordsCons(t, rest, sep);
    assert a + b == t + (rest + b);
    WordsCons(t, rest + b, sep);
  }

  //#################### PREFIXES AND SUBSTRINGS ####################

  /** `s.substr(0, n)`: at most the first n characters. */
  function Prefix(s: string, n: nat): (r: string)
    ensures |r| == if n <= |s| then n else |s|
  {
    if n <= |s| then s[..n] else s
  }

  /** The first index of c in s, as `find`/`indexOf` report it. */
  function IndexOf(s: string, c: char): (r: Option<nat>)
    ensures r.Some? ==> r.value < |s| && s[r.value] == c && forall k :: 0 <= k < r.value ==> s[k] != c
    ensures r.None? ==> forall k :: 0 <= k < |s| ==> s[k] != c
  {
    var e := NextSep(s, 0, d => d == c);
    if e == |s| then None else Some(e)
  }

  //#################### JAVA STRINGS ####################

  /** Java's `trim`: leading characters up to and including ' ' removed. */
  function TrimStart(s: string): (r: string)
    ensures |r| <= |s| && r == s[|s| - |r|..]
    ensures |r| > 0 ==> r[0] > ' '
    decreases |s|
  {
    if |s| > 0 && s[0] <= ' ' then TrimStart(s[1..]) else s
  }

  /** Java's `trim`: trailing characters up to and including ' ' removed. */
  function TrimEnd(s: string): (r: string)
    ensures |r| <= |s| && r == s[..|r|]
    ensures |r| > 0 ==> r[|r| - 1] > ' '
    decreases |s|
  {
    if |s| > 0 && s[|s| - 1] <= ' ' then TrimEnd(s[..|s| - 1]) else s
  }

  /** `String.trim`: both ends stripped of characters no greater than ' '. */
  function Trim(s: string): (r: string)
    ensures |r| <= |s|
    ensures |r| > 0 ==> r[0] > ' ' && r[|r| - 1] > ' '
  {
    var t := TrimStart(s);
    var r := TrimEnd(t);
    assert |r| > 0 ==> r[0] == t[0];
    r
  }

  /** Text that starts and ends with characters above ' ' is its own trim. */
  lemma TrimClean(s: string)
    requires |s| > 0 && s[0] > ' ' && s[|s| - 1] > ' '
    ensures Trim(s) == s
  {
  }

  /** The pieces between single spaces, empty ones included. */
  function Pieces(s: string): (ps: seq<string>)
    ensures |ps| > 0
    decreases |s|
  {
    match IndexOf(s, ' ')
    case None => [s]
    case Some(i) => [s[..i]] + Pieces(s[i + 1..])
  }

  function DropTrailingEmpty(ps: seq<string>): (r: seq<string>)
    ensures |r| <= |ps| && r == ps[..|r|]
    ensures |r| > 0 ==> r[|r| - 1] != ""
    ensures forall k :: |r| <= k < |ps| ==> ps[k] == ""
  {
    if |ps| > 0 && ps[|ps| - 1] == "" then DropTrailingEmpty(ps[..|ps| - 1]) else ps
  }

  /**
   * `String.split(" ")`: the text itself when it has no space; otherwise
   * the pieces between spaces with the trailing empty ones removed.
   */
  function JavaSplit(s: string): (r: seq<string>)
    ensures IndexOf(s, ' ').None? ==> r == [s]
  {
    if IndexOf(s, ' ').None? then [s] else DropTrailingEmpty(Pieces(s))
  }

  /** Words without spaces, joined by single spaces: the first is split off at the first space. */
  lemma IndexOfJoin(ts: seq<string>)
    requires |ts| > 1 && forall i :: 0 <= i < |ts| ==> NoSep(ts[i], IsBlank)
    ensures IndexOf(Join(ts), ' ') == Some(|ts[0]|)
    ensures Join(ts)[..|ts[0]|] == ts[0] && Join(ts)[|ts[0]| + 1..] == Join(ts[1..])
  {
    var s := Join(ts);
    assert s == ts[0] + " " + Join(ts[1..]);
    assert s[|ts[0]|] == ' ';
    assert NoSep(ts[0], IsBlank);
    assert forall k :: 0 <= k < |ts[0]| ==> s[k] == ts[0][k];
  }

  /** A word without spaces has no space to find. */
  lemma IndexOfWord(t: string)
    requires NoSep(t, IsBlank)
    ensures IndexOf(t, ' ').None?
  {
    assert forall k :: 0 <= k < |t| ==> !IsBlank(t[k]);
  }

  /** A word without spaces, a space, then anything: the first space is right after the word. */
  lemma IndexOfSpaced(t: string, rest: string)
    requires NoSep(t, IsBlank)
    ensures IndexOf(t + " " + rest, ' ') == Some(|t|)
    ensures (t + " " + rest)[..|t|] == t && (t + " " + rest)[|t| + 1..] == rest
  {
    var s := t + " " + rest;
    assert s[|t|] == ' ';
    assert forall k :: 0 <= k < |t| ==> s[k] == t[k] && !IsBlank(t[k]);
  }

  /** Two lines joined by a space are one line. */
  lemma SpacedLine(t: string, rest: string)
    requires IsLine(t) && IsLine(rest)
    ensures IsLine(t + " " + rest)
  {
    var s := t + " " + rest;
    forall k | 0 <= k < |s| ensures s[k] != '\n' {
      if k < |t| {
        assert s[k] == t[k];
      } else if k > |t| {
        assert s[k] == rest[k - |t| - 1];
      }
    }
  }

  lemma {:induction false} PiecesOfJoin(ts: seq<string>)
    requires |ts| > 0 && forall i :: 0 <= i < |ts| ==> NoSep(ts[i], IsBlank)
    ensures Pieces(Join(ts)) == ts
  {
    if |ts| == 1 {
      IndexOfWord(ts[0]);
    } else {
      var s := Join(ts);
      var i := |ts[0]|;
      IndexOfJoin(ts);
      PiecesOfJoin(ts[1..]);
      assert Pieces(s) == [s[..i]] + Pieces(s[i + 1..]);
      assert s[..i] == ts[0] && Pieces(s[i + 1..]) == ts[1..];
      assert ts == [ts[0]] + ts[1..];
    }
  }

  /** Splitting words joined by single spaces gives the words back, when the last is not empty. */
  lemma JavaSplitOfJoin(ts: seq<string>)
    requires |ts| > 0 && ts[|ts| - 1] != "" && forall i :: 0 <= i < |ts| ==> NoSep(ts[i], IsBlank)
    ensures JavaSplit(Join(ts)) == ts
  {
    PiecesOfJoin(ts);
    if |ts| == 1 {
      IndexOfWord(ts[0]);
    } else {
      IndexOfJoin(ts);
    }
  }

  //#################### LINES ####################

  /**
   * The lines `std::getline` (or Java's `readLine`) returns one after another
   * from the text s: pieces separated by '\n'; a final '\n' ends the last
   * line rather than starting an empty one.
   */
  function SplitLines(s: string): seq<string>
    decreases |s|
  {
    if |s| == 0 then []
    else
      var e := NextSep(s, 0, c => c == '\n');
      if e == |s| then [s] else [s[..e]] + SplitLines(s[e + 1..])
  }

  predicate IsLine(l: string) { forall k :: 0 <= k < |l| ==> l[k] != '\n' }

  /** Every element is a line. */
  predicate AllLines(ls: seq<string>) { forall i :: 0 <= i < |ls| ==> IsLine(ls[i]) }

  lemma AllLinesAppend(a: seq<string>, b: seq<string>)
    requires AllLines(a) && AllLines(b)
    ensures AllLines(a + b)
  {
    forall i | 0 <= i < |a + b| ensures IsLine((a + b)[i]) {
      if i >= |a| {
        assert (a + b)[i] == b[i - |a|];
      }
    }
  }

  /** Each line followed by '\n': what a writer produces line by line. */
  function Unlines(ls: seq<string>): string
  {
    if |ls| == 0 then "" else ls[0] + "\n" + Unlines(ls[1..])
  }

  lemma UnlinesAppend(a: seq<string>, b: seq<string>)
    ensures Unlines(a + b) == Unlines(a) + Unlines(b)
  {
    if |a| == 0 {
      assert a + b == b;
    } else {
      assert (a + b)[1..] == a[1..] + b;
      UnlinesAppend(a[1..], b);
    }
  }

  /** Writing line i after the head and lines 0 … i−1. */
  lemma UnlinesStep(head: seq<string>, ls: seq<string>, i: nat, out: string)
    requires i < |ls|
    requires out == Unlines(head + ls[..i])
    ensures out + ls[i] + "\n" == Unlines(head + ls[..i + 1])
  {
    assert head + ls[..i + 1] == (head + ls[..i]) + [ls[i]];
    UnlinesSnoc(head + ls[..i], ls[i]);
  }

  /** Writing line i after lines 0 … i−1. */
  lemma UnlinesTake(ls: seq<string>, i: nat, out: string)
    requires i < |ls|
    requires out == Unlines(ls[..i])
    ensures out + ls[i] + "\n" == Unlines(ls[..i + 1])
  {
    assert ls[..i + 1] == ls[..i] + [ls[i]];
    UnlinesSnoc(ls[..i], ls[i]);
  }

  /** The lines of each element in turn. */
  function ConcatLines<X>(g: X -> seq<string>, xs: seq<X>): seq<string>
  {
    if |xs| == 0 then [] else g(xs[0]) + ConcatLines(g, xs[1..])
  }

  lemma {:induction false} ConcatLinesSnoc<X>(g: X -> seq<string>, xs: seq<X>)
    requires |xs| > 0
    ensures ConcatLines(g, xs) == ConcatLines(g, xs[..|xs| - 1]) + g(xs[|xs| - 1])
    decreases |xs|
  {
    if |xs| > 1 {
      var n := |xs|;
      ConcatLinesSnoc(g, xs[1..]);
      assert xs[1..][..n - 2] == xs[..n - 1][1..] && xs[..n - 1][0] == xs[0];
      assert xs[1..][n - 2] == xs[n - 1];
    } else {
      assert xs[..0] == [] && xs[1..] == [];
    }
  }

  lemma {:induction false} ConcatLinesAreLines<X>(g: X -> seq<string>, xs: seq<X>)
    requires forall k :: 0 <= k < |xs| ==> AllLines(g(xs[k]))
    ensures AllLines(ConcatLines(g, xs))
    decreases |xs|
  {
    if |xs| > 0 {
      ConcatLinesAreLines(g, xs[1..]);
      AllLinesAppend(g(xs[0]), ConcatLines(g, xs[1..]));
    }
  }

  /** Writing the lines of element i after the head and the lines of elements 0 … i−1. */
  lemma ConcatLinesStep<X>(g: X -> seq<string>, head: seq<string>, xs: seq<X>, i: nat, out: string)
    requires i < |xs|
    requires out == Unlines(head + ConcatLines(g, xs[..i]))
    ensures out + Unlines(g(xs[i])) == Unlines(head + ConcatLines(g, xs[..i + 1]))
  {
    ConcatLinesSnoc(g, xs[..i + 1]);
    assert xs[..i + 1][..i] == xs[..i];
    assert head + ConcatLines(g, xs[..i + 1]) == (head + ConcatLines(g, xs[..i])) + g(xs[i]);
    UnlinesAppend(head + ConcatLines(g, xs[..i]), g(xs[i]));
  }

  /** The head of a block: its name, `{`, and one more line. */
  lemma HeadText(name: string, line: string)
    ensures Unlines([name, "{", line]) == name + "\n{\n" + line + "\n"
  {
    var head := [name, "{", line];
    assert Unlines(head[2..]) == line + "\n";
    assert Unlines(head[1..]) == "{\n" + line + "\n";
  }

  lemma UnlinesSnoc(ls: seq<string>, l: string)
    ensures Unlines(ls + [l]) == Unlines(ls) + l + "\n"
  {
    UnlinesAppend(ls, [l]);
    assert Unlines([l]) == l + "\n" + Unlines([]);
  }

  lemma {:induction false} SplitLinesCons(l: string, rest: string)
    requires IsLine(l)
    ensures SplitLines(l + "\n" + rest) == [l] + SplitLines(rest)
  {
    var s := l + "\n" + rest;
    var j := 0;
    while j < |l|
      invariant 0 <= j <= |l|
      invariant NextSep(s, 0, c => c == '\n') == NextSep(s, j, c => c == '\n')
    {
      j := j + 1;
    }
    assert s[..|l|] == l;
    assert s[|l| + 1..] == rest;
  }

  lemma {:induction false} SplitLinesLast(l: string)
    requires IsLine(l) && |l| > 0
    ensures SplitLines(l) == [l]
  {
    var j := 0;
    while j < |l|
      invariant 0 <= j <= |l|
      invariant NextSep(l, 0, c => c == '\n') == NextSep(l, j, c => c == '\n')
    {
      j := j + 1;
    }
  }

  /** An index into the front part of a concatenation. */
  lemma PrefixIndex<T>(a: seq<T>, b: seq<T>, k: nat)
    requires k < |a|
    ensures (a + b)[k] == a[k]
  {
  }

  lemma ConsAppend<T>(a: seq<T>, b: seq<T>, xs: seq<T>, r: seq<T>)
    requires |xs| > 0 && a == [xs[0]] + b && b == xs[1..] + r
    ensures a == xs + r
  {
    assert xs == [xs[0]] + xs[1..];
  }

  /** Appending t to head + a gives head + b when b is a followed by t. */
  lemma AppendStep<T>(line: seq<T>, head: seq<T>, a: seq<T>, b: seq<T>, t: seq<T>)
    requires line == head + a && b == a + t
    ensures line + t == head + b
  {
  }

  lemma SplitLinesOfUnlinesStep(ls: seq<string>, rest: string)
    requires AllLines(ls) && |ls| > 0
    ensures SplitLines(Unlines(ls) + rest) == [ls[0]] + SplitLines(Unlines(ls[1..]) + rest)
    ensures AllLines(ls[1..])
  {
    var tail := Unlines(ls[1..]) + rest;
    assert IsLine(ls[0]);
    assert Unlines(ls) + rest == ls[0] + "\n" + tail;
    SplitLinesCons(ls[0], tail);
  }

  /** Text written line by line is read back as the same lines. */
  lemma {:induction false} SplitLinesOfUnlines(ls: seq<string>, rest: string)
    requires AllLines(ls)
    ensures SplitLines(Unlines(ls) + rest) == ls + SplitLines(rest)
  {
    if |ls| == 0 {
      assert Unlines(ls) + rest == rest;
    } else {
      SplitLinesOfUnlinesStep(ls, rest);
      SplitLinesOfUnlines(ls[1..], rest);
      ConsAppend(SplitLines(Unlines(ls) + rest), SplitLines(Unlines(ls[1..]) + rest), ls, SplitLines(rest));
    }
  }

  /** Lines separated by '\n' with no final '\n': what `println` for all but the last line, then `print`, writes. */
  function JoinLines(ls: seq<string>): string
  {
    if |ls| == 0 then "" else Unlines(ls[..|ls| - 1]) + ls[|ls| - 1]
  }

  /** Two runs of lines written one after the other, separated by '\n'. */
  lemma JoinLinesAppend(a: seq<string>, b: seq<string>)
    requires |a| > 0 && |b| > 0
    ensures JoinLines(a) + "\n" + JoinLines(b) == JoinLines(a + b)
  {
    var n := |a|;
    var m := |b|;
    var ua, la := Unlines(a[..n - 1]), a[n - 1];
    var ub, lb := Unlines(b[..m - 1]), b[m - 1];
    assert a == a[..n - 1] + [la];
    UnlinesSnoc(a[..n - 1], la);
    UnlinesAppend(a, b[..m - 1]);
    assert (a + b)[..n + m - 1] == a + b[..m - 1];
    assert (a + b)[n + m - 1] == lb;
    assert JoinLines(a + b) == Unlines(a) + ub + lb;
  }

  /** Text written as lines with no final '\n' reads back as those lines when the last is not empty. */
  lemma SplitLinesOfJoinLines(ls: seq<string>)
    requires AllLines(ls) && |ls| > 0 && ls[|ls| - 1] != ""
    ensures SplitLines(JoinLines(ls)) == ls
  {
    var n := |ls|;
    assert AllLines(ls[..n - 1]);
    assert IsLine(ls[n - 1]);
    SplitLinesOfUnlines(ls[..n - 1], ls[n - 1]);
    SplitLinesLast(ls[n - 1]);
    assert ls == ls[..n - 1] + [ls[n - 1]];
  }

  //#################### NUMBERS AS TEXT ####################

  /**
   * How floating-point numbers are written and read back (C++ `operator<<`
   * and `lexical_cast<float>`, Java's `Double.toString` and
   * `Double.parseDouble`). The formats themselves are outside the model.
   */
  datatype NumberText = NumberText(show: real -> string, read: string -> Option<real>)

  /** Every number is written as one token that reads back as some number. */
  ghost predicate WellFormed(f: NumberText)
  {
    forall x :: IsToken(f.show(x)) && f.read(f.show(x)).Some?
  }

  /** Reading back what was written gives the number itself (true of Java's doubles). */
  ghost predicate Exact(f: NumberText)
  {
    forall x :: f.read(f.show(x)) == Some(x)
  }
}
