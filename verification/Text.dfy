/** Helpers shared by the models: optional values and results, sets listed in
    some order, joining and splitting, UTF-8 length, and decimal printing, with
    the laws the other modules rely on. */
module Text {
  datatype Option<+T> = None | Some(value: T)

  /** A value, or the error that was thrown instead. */
  datatype Result<+T, +E> = Ok(value: T) | Err(error: E) {
    predicate IsFailure() { Err? }

    function PropagateFailure<U>(): Result<U, E>
      requires Err?
    {
      Err(error)
    }

    function Extract(): T
      requires Ok?
    {
      value
    }
  }

  /** `items` lists a set without repetition. */
  ghost predicate Lists<T(!new)>(items: seq<T>, all: set<T>) {
    (forall x :: x in items <==> x in all)
    && forall i, j :: 0 <= i < j < |items| ==> items[i] != items[j]
  }

  lemma ListsTogether<T(!new)>(a: seq<T>, b: seq<T>, left: set<T>, right: set<T>)
    requires Lists(a, left) && Lists(b, right) && left !! right
    ensures Lists(a + b, left + right)
  {
    forall x ensures x in a + b <==> x in left + right {}
    forall i, j | 0 <= i < j < |a + b| ensures (a + b)[i] != (a + b)[j] {
      if i < |a| <= j {
        assert a[i] in left && b[j - |a|] in right;
      }
    }
  }

  /** The elements of a set, in some order. */
  method Enumerate<T(==, !new)>(all: set<T>) returns (items: seq<T>)
    ensures Lists(items, all)
  {
    items := [];
    var left := all;
    while left != {}
      invariant left <= all
      invariant Lists(items, all - left)
      decreases left
    {
      var x :| x in left;
      items := items + [x];
      left := left - {x};
    }
  }

  /** `Array.prototype.join`. */
  function Join(parts: seq<string>, separator: string): string {
    if |parts| == 0 then ""
    else if |parts| == 1 then parts[0]
    else parts[0] + separator + Join(parts[1..], separator)
  }

  /** `String.prototype.split` on a one-character separator. */
  function Split(s: string, separator: char): (parts: seq<string>)
    ensures |parts| >= 1
  {
    if s == "" then [""]
    else
      var rest := Split(s[1..], separator);
      if s[0] == separator then [""] + rest else [[s[0]] + rest[0]] + rest[1..]
  }

  lemma {:induction false} SplitPart(part: string, tail: string, separator: char)
    requires separator !in part
    requires tail == "" || tail[0] == separator
    ensures Split(part + tail, separator)
         == [part] + (if tail == "" then [] else Split(tail[1..], separator))
  {
    if part == "" {
      assert part + tail == tail;
    } else {
      SplitPart(part[1..], tail, separator);
      assert (part + tail)[1..] == part[1..] + tail;
      assert [part[0]] + part[1..] == part;
    }
  }

  /** Splitting undoes joining as long as no part contains the separator. */
  lemma {:induction false} SplitJoin(parts: seq<string>, separator: char)
    requires |parts| >= 1
    requires forall i :: 0 <= i < |parts| ==> separator !in parts[i]
    ensures Split(Join(parts, [separator]), separator) == parts
  {
    if |parts| == 1 {
      SplitPart(parts[0], "", separator);
      assert parts[0] + "" == parts[0];
    } else {
      var tail := [separator] + Join(parts[1..], [separator]);
      SplitJoin(parts[1..], separator);
      SplitPart(parts[0], tail, separator);
      assert parts[0] + [separator] + Join(parts[1..], [separator]) == parts[0] + tail;
      assert tail[1..] == Join(parts[1..], [separator]);
      assert [parts[0]] + parts[1..] == parts;
    }
  }

  /** Joining undoes splitting, always. */
  lemma {:induction false} JoinSplit(s: string, separator: char)
    ensures Join(Split(s, separator), [separator]) == s
  {
    if s != "" {
      JoinSplit(s[1..], separator);
      var rest := Split(s[1..], separator);
      if s[0] == separator {
        assert ([""] + rest)[1..] == rest;
      } else {
        assert ([[s[0]] + rest[0]] + rest[1..])[1..] == rest[1..];
      }
    }
  }

  lemma SplitNothing(separator: char)
    ensures Split("", separator) == [""]
  {}

  lemma SplitSteps(s: string, separator: char)
    requires s != ""
    ensures Split(s, separator) ==
      var rest := Split(s[1..], separator);
      if s[0] == separator then [""] + rest else [[s[0]] + rest[0]] + rest[1..]
  {}

  lemma {:induction false} SplitAppend(a: string, b: string, separator: char)
    ensures Split(a + [separator] + b, separator) == Split(a, separator) + Split(b, separator)
  {
    hide *;
    var s := a + [separator] + b;
    SplitSteps(s, separator);
    if a == "" {
      SplitNothing(separator);
      assert s[1..] == b;
    } else {
      SplitAppend(a[1..], b, separator);
      assert s[1..] == a[1..] + [separator] + b;
      var x, y := Split(a[1..], separator), Split(b, separator);
      assert (x + y)[0] == x[0] && (x + y)[1..] == x[1..] + y;
      SplitSteps(a, separator);
      assert s[0] == a[0];
    }
  }

  lemma {:induction false} JoinConcat(a: seq<string>, b: seq<string>, separator: string)
    requires a != [] && b != []
    ensures Join(a + b, separator) == Join(a, separator) + separator + Join(b, separator)
  {
    if |a| == 1 {
      assert (a + b)[1..] == b;
    } else {
      JoinConcat(a[1..], b, separator);
      assert (a + b)[1..] == a[1..] + b;
    }
  }

  lemma {:induction false} JoinAppend(parts: seq<string>, part: string, separator: string)
    requires |parts| >= 1
    ensures Join(parts + [part], separator) == Join(parts, separator) + separator + part
  {
    if |parts| == 1 {
      assert (parts + [part])[1..] == [part];
    } else {
      JoinAppend(parts[1..], part, separator);
      assert (parts + [part])[1..] == parts[1..] + [part];
    }
  }

  lemma JoinHead(parts: seq<string>, separator: string)
    requires |parts| >= 1 && parts[0] != ""
    ensures Join(parts, separator) != "" && Join(parts, separator)[0] == parts[0][0]
  {}

  lemma JoinSplitsOff(parts: seq<string>, separator: string, tail: string)
    requires |parts| > 1
    ensures Join(parts, separator) + tail
         == parts[0] + (separator + (Join(parts[1..], separator) + tail))
  {}

  /** UTF-8 width of one character. */
  function CharBytes(c: char): nat {
    if c as int < 0x80 then 1
    else if c as int < 0x800 then 2
    else if c as int < 0x1_0000 then 3
    else 4
  }

  /** `Buffer.byteLength(s, 'utf8')`. */
  function ByteLength(s: string): nat {
    if s == "" then 0 else CharBytes(s[0]) + ByteLength(s[1..])
  }

  lemma {:induction false} ByteLengthAppend(a: string, b: string)
    ensures ByteLength(a + b) == ByteLength(a) + ByteLength(b)
  {
    if a == "" {
      assert a + b == b;
    } else {
      assert (a + b)[1..] == a[1..] + b;
      ByteLengthAppend(a[1..], b);
    }
  }

  predicate IsDigit(c: char) { '0' <= c <= '9' }

  function DigitChar(d: nat): char
    requires d < 10
  {
    '0' + d as char
  }

  /** Decimal digits of a natural number, without leading zeros. */
  function Decimal(n: nat): (digits: string) {
    if n < 10 then [DigitChar(n)] else Decimal(n / 10) + [DigitChar(n % 10)]
  }

  function Undecimal(digits: string): nat
    requires forall i :: 0 <= i < |digits| ==> IsDigit(digits[i])
  {
    if digits == "" then 0
    else
      var last := digits[|digits| - 1];
      assert IsDigit(last);
      Undecimal(digits[..|digits| - 1]) * 10 + (last as int - '0' as int)
  }

  /** Each digit counts ten times the next. */
  lemma UndecimalSteps(digits: string, digit: char)
    requires IsDigit(digit) && forall i :: 0 <= i < |digits| ==> IsDigit(digits[i])
    ensures Undecimal("") == 0
    ensures Undecimal(digits + [digit]) == 10 * Undecimal(digits) + (digit as int - 48)
  {
    assert (digits + [digit])[..|digits|] == digits;
  }

  lemma {:induction false} DecimalRoundTrip(n: nat)
    ensures |Decimal(n)| >= 1
    ensures forall i :: 0 <= i < |Decimal(n)| ==> IsDigit(Decimal(n)[i])
    ensures Undecimal(Decimal(n)) == n
    ensures Decimal(n)[0] == '0' ==> n == 0
  {
    var digits := Decimal(n);
    if n < 10 {
      assert digits[..|digits| - 1] == "";
    } else {
      DecimalRoundTrip(n / 10);
      assert digits[..|digits| - 1] == Decimal(n / 10);
    }
  }
}
