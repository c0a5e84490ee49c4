/**
 Text forms shared by both controllers: Python's decimal rendering of an
 integer (`str(n)` / an f-string field), the joining of fields with a
 separator, and the newline-terminated command lines both scripts write to
 the serial port.

 The parsing side (ParseInt, Split, DecodeInts) is a reference reader of
 the line format; it is what makes it possible to state that the line
 formats are unambiguous.
 */
module Text {

  datatype Option<T> = None | Some(value: T)

  /** The lines that reach the port: all of them if the transport accepted the write, none otherwise. */
  function Delivered<T>(lines: seq<T>, delivered: bool): (r: seq<T>)
    ensures delivered ==> r == lines
    ensures !delivered ==> r == []
  {
    if delivered then lines else []
  }

  predicate IsDigit(c: char) { '0' <= c <= '9' }

  predicate AllDigits(s: string) { forall i :: 0 <= i < |s| ==> IsDigit(s[i]) }

  function DigitValue(c: char): (d: nat)
    requires IsDigit(c)
    ensures d < 10
  {
    c as int - '0' as int
  }

  function DigitChar(d: nat): (c: char)
    requires d < 10
    ensures IsDigit(c) && DigitValue(c) == d
  {
    ('0' as int + d) as char
  }

  /** Decimal digits of `n`, most significant first, without leading zeros. */
  function NatToString(n: nat): (s: string)
    ensures 0 < |s| && AllDigits(s)
    ensures s[0] == '0' <==> n == 0
    decreases n
  {
    if n < 10 then [DigitChar(n)] else NatToString(n / 10) + [DigitChar(n % 10)]
  }

  /** Python's `str(i)` for an int: a minus sign, then the digits of the magnitude. */
  function IntToString(i: int): (s: string)
    ensures 0 < |s|
    ensures i < 0 ==> 1 < |s| && s[0] == '-' && AllDigits(s[1..])
    ensures 0 <= i ==> AllDigits(s)
  {
    if i < 0 then "-" + NatToString(-i) else NatToString(i)
  }

  /** The value of a string of decimal digits (empty reads as 0). */
  function DigitsValue(s: string): nat
    requires AllDigits(s)
  {
    if |s| == 0 then 0 else DigitsValue(s[..|s| - 1]) * 10 + DigitValue(s[|s| - 1])
  }

  /** Reads an optionally negative decimal integer; anything else is refused. */
  function ParseInt(s: string): (r: Option<int>)
    ensures r.Some? ==> 0 < |s|
  {
    if 1 < |s| && s[0] == '-' && AllDigits(s[1..]) then Some(-(DigitsValue(s[1..]) as int))
    else if 0 < |s| && AllDigits(s) then Some(DigitsValue(s))
    else None
  }

  lemma {:induction false} NatToStringValue(n: nat)
    ensures DigitsValue(NatToString(n)) == n
    decreases n
  {
    if 10 <= n {
      var s := NatToString(n);
      assert s[..|s| - 1] == NatToString(n / 10);
      NatToStringValue(n / 10);
    }
  }

  /** `str` is read back exactly: the rendering of an integer loses nothing. */
  lemma IntToStringRoundTrip(i: int)
    ensures ParseInt(IntToString(i)) == Some(i)
  {
    var s := IntToString(i);
    if i < 0 {
      assert s[1..] == NatToString(-i);
      NatToStringValue(-i);
    } else {
      NatToStringValue(i);
    }
  }

  /** No character that is neither a digit nor a minus sign occurs in a rendered integer. */
  lemma SeparatorNotInNumeral(i: int, sep: char)
    requires !IsDigit(sep) && sep != '-'
    ensures sep !in IntToString(i)
  {
  }

  /** Fields separated by `sep`, as an f-string with `sep` between its fields writes them. */
  function Join(parts: seq<string>, sep: char): string
    requires 0 < |parts|
  {
    if |parts| == 1 then parts[0] else parts[0] + [sep] + Join(parts[1..], sep)
  }

  /** Joining two non-empty runs of fields is joining each and separating the results. */
  lemma {:induction false} JoinAppend(a: seq<string>, b: seq<string>, sep: char)
    requires 0 < |a| && 0 < |b|
    ensures Join(a + b, sep) == Join(a, sep) + [sep] + Join(b, sep)
    decreases |a|
  {
    if |a| == 1 {
      assert (a + b)[0] == a[0];
      assert (a + b)[1..] == b;
    } else {
      assert (a + b)[0] == a[0];
      assert (a + b)[1..] == a[1..] + b;
      JoinAppend(a[1..], b, sep);
    }
  }

  /** Python's `s.split(sep)`: the maximal runs between separators, always at least one. */
  function Split(s: string, sep: char): (parts: seq<string>)
    ensures 0 < |parts|
  {
    if |s| == 0 then [""]
    else if s[0] == sep then [""] + Split(s[1..], sep)
    else
      var rest := Split(s[1..], sep);
      [[s[0]] + rest[0]] + rest[1..]
  }

  /** A separator-free prefix extends the first field of whatever follows it. */
  lemma {:induction false} SplitFreePrefix(p: string, tail: string, sep: char)
    requires sep !in p
    ensures Split(p + tail, sep) == [p + Split(tail, sep)[0]] + Split(tail, sep)[1..]
    decreases |p|
  {
    if |p| == 0 {
      assert p + tail == tail;
      assert p + Split(tail, sep)[0] == Split(tail, sep)[0];
      assert [Split(tail, sep)[0]] + Split(tail, sep)[1..] == Split(tail, sep);
    } else {
      assert (p + tail)[0] == p[0];
      assert (p + tail)[1..] == p[1..] + tail;
      SplitFreePrefix(p[1..], tail, sep);
      assert [p[0]] + (p[1..] + Split(tail, sep)[0]) == p + Split(tail, sep)[0];
    }
  }

  /** Splitting a joined line gives back its fields, provided no field holds the separator. */
  lemma {:induction false} SplitJoin(parts: seq<string>, sep: char)
    requires 0 < |parts|
    requires forall i :: 0 <= i < |parts| ==> sep !in parts[i]
    ensures Split(Join(parts, sep), sep) == parts
    decreases |parts|
  {
    if |parts| == 1 {
      SplitFreePrefix(parts[0], "", sep);
      assert parts[0] + "" == parts[0];
    } else {
      var rest := Join(parts[1..], sep);
      assert Join(parts, sep) == parts[0] + ([sep] + rest);
      SplitJoin(parts[1..], sep);
      assert ([sep] + rest)[1..] == rest;
      SplitFreePrefix(parts[0], [sep] + rest, sep);
      assert parts[0] + "" == parts[0];
      assert [parts[0]] + parts[1..] == parts;
    }
  }

  /** The decimal renderings of `xs`, field by field. */
  function Numerals(xs: seq<int>): (r: seq<string>)
    ensures |r| == |xs|
  {
    if |xs| == 0 then [] else [IntToString(xs[0])] + Numerals(xs[1..])
  }

  lemma {:induction false} NumeralsAt(xs: seq<int>, i: nat)
    requires i < |xs|
    ensures Numerals(xs)[i] == IntToString(xs[i])
    decreases i
  {
    if 0 < i {
      NumeralsAt(xs[1..], i - 1);
    }
  }

  /** Reads every field as an integer; one unreadable field refuses the whole list. */
  function ParseInts(fields: seq<string>): (r: Option<seq<int>>)
    ensures r.Some? ==> |r.value| == |fields|
  {
    if |fields| == 0 then Some([])
    else
      match (ParseInt(fields[0]), ParseInts(fields[1..]))
      case (Some(x), Some(xs)) => Some([x] + xs)
      case _ => None
  }

  lemma {:induction false} ParseNumerals(xs: seq<int>)
    ensures ParseInts(Numerals(xs)) == Some(xs)
    decreases |xs|
  {
    if 0 < |xs| {
      IntToStringRoundTrip(xs[0]);
      assert Numerals(xs)[1..] == Numerals(xs[1..]);
      ParseNumerals(xs[1..]);
      assert [xs[0]] + xs[1..] == xs;
    }
  }

  /** One comma-separated, newline-terminated line of integers. */
  function EncodeInts(xs: seq<int>): (line: string)
    requires 0 < |xs|
    ensures 0 < |line| && line[|line| - 1] == '\n'
  {
    Join(Numerals(xs), ',') + "\n"
  }

  function DecodeInts(line: string): Option<seq<int>>
  {
    if 0 < |line| && line[|line| - 1] == '\n' then ParseInts(Split(line[..|line| - 1], ','))
    else None
  }

  /** Every integer line reads back as the integers it was written from. */
  lemma EncodeIntsRoundTrip(xs: seq<int>)
    requires 0 < |xs|
    ensures DecodeInts(EncodeInts(xs)) == Some(xs)
  {
    var fields := Numerals(xs);
    var line := EncodeInts(xs);
    assert line[..|line| - 1] == Join(fields, ',');
    forall i | 0 <= i < |fields| ensures ',' !in fields[i] {
      NumeralsAt(xs, i);
      SeparatorNotInNumeral(xs[i], ',');
    }
    SplitJoin(fields, ',');
    ParseNumerals(xs);
  }
}
