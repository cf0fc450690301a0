/** The parser `load_env_variables` applies to `CHAT_IDS` and `USER_IDS`:
    `[int(u) for u in text.split(',')[:-1]]`. The text is split at every
    comma, the final segment is discarded, and every remaining segment is
    handed to `int()`, which raises `ValueError` on the first one that is not
    an integer literal. */
module IdList {
  import opened Wrappers

  /** `ValueError: invalid literal for int() with base 10: '<literal>'` */
  datatype ParseError = InvalidLiteral(literal: string)

  // ---------------------------------------------------------------------
  // Integer literals
  // ---------------------------------------------------------------------

  predicate IsDigit(c: char) { '0' <= c <= '9' }

  predicate AllDigits(s: string) { forall i :: 0 <= i < |s| ==> IsDigit(s[i]) }

  /** The literals `int()` accepts in this model: an optional `-` followed by
      one or more decimal digits. */
  predicate IsIntLiteral(s: string)
  {
    if |s| > 0 && s[0] == '-' then |s| > 1 && AllDigits(s[1..])
    else |s| > 0 && AllDigits(s)
  }

  /** The value of a string of decimal digits, most significant digit first. */
  function DigitsValue(ds: string): nat
    requires AllDigits(ds)
  {
    if ds == [] then 0
    else
      assert IsDigit(ds[|ds| - 1]);
      10 * DigitsValue(ds[..|ds| - 1]) + ((ds[|ds| - 1] as int) - ('0' as int))
  }

  /** Python's `int(s)` on a segment. */
  function ParseInt(s: string): Result<int, ParseError>
  {
    if !IsIntLiteral(s) then Err(InvalidLiteral(s))
    else
      var magnitude: int := if s[0] == '-' then DigitsValue(s[1..]) else DigitsValue(s);
      Ok(if s[0] == '-' then -magnitude else magnitude)
  }

  function DigitChar(d: nat): char
    requires d < 10
  {
    ('0' as int + d) as char
  }

  /** `str(n)` for a natural number: its decimal digits without leading zeros. */
  function NatLiteral(n: nat): string
    decreases n
  {
    if n < 10 then [DigitChar(n)] else NatLiteral(n / 10) + [DigitChar(n % 10)]
  }

  /** `str(x)` for an integer. */
  function IntLiteral(x: int): string
  {
    if x < 0 then "-" + NatLiteral(-x) else NatLiteral(x)
  }

  lemma {:induction false} NatLiteralValue(n: nat)
    ensures NatLiteral(n) != [] && AllDigits(NatLiteral(n))
    ensures DigitsValue(NatLiteral(n)) == n
    decreases n
  {
    var s := NatLiteral(n);
    if n >= 10 {
      var p := NatLiteral(n / 10);
      NatLiteralValue(n / 10);
      assert s == p + [DigitChar(n % 10)];
      assert s[..|s| - 1] == p;
    } else {
      assert s[..|s| - 1] == [];
    }
  }

  /** `int(str(x)) == x`, and `str(x)` never contains a comma. */
  lemma IntLiteralRoundTrip(x: int)
    ensures IsIntLiteral(IntLiteral(x)) && ',' !in IntLiteral(x)
    ensures ParseInt(IntLiteral(x)) == Ok(x)
  {
    var s := IntLiteral(x);
    if x < 0 {
      NatLiteralValue(-x);
      assert s[1..] == NatLiteral(-x);
      assert forall i :: 1 <= i < |s| ==> s[i] == s[1..][i - 1];
    } else {
      NatLiteralValue(x);
    }
  }

  // ---------------------------------------------------------------------
  // str.split(',') as a reference definition
  // ---------------------------------------------------------------------

  /** Number of occurrences of `c` in `s`. */
  function Count(s: string, c: char): nat
  {
    if s == [] then 0 else (if s[0] == c then 1 else 0) + Count(s[1..], c)
  }

  /** `sep.join(parts)` */
  function Join(parts: seq<string>, sep: char): string
    requires |parts| > 0
  {
    if |parts| == 1 then parts[0] else parts[0] + [sep] + Join(parts[1..], sep)
  }

  /** Python's `s.split(sep)`, read character by character: a separator
      starts a new segment. The result is the unique list of separator-free
      segments that joins back to `s`, one more than the separators in `s`. */
  function Split(s: string, sep: char): (parts: seq<string>)
    ensures |parts| == Count(s, sep) + 1
    ensures forall k :: 0 <= k < |parts| ==> sep !in parts[k]
    ensures Join(parts, sep) == s
  {
    if s == [] then [[]]
    else
      var rest := Split(s[1..], sep);
      if s[0] == sep then
        assert ([[]] + rest)[1..] == rest;
        [[]] + rest
      else
        var parts := [[s[0]] + rest[0]] + rest[1..];
        assert parts[1..] == rest[1..];
        assert |rest| > 1 ==> rest == [rest[0]] + rest[1..];
        assert s == [s[0]] + s[1..];
        parts
  }

  /** The segments `int()` is applied to: `s.split(',')[:-1]`. */
  function IdSegments(s: string): seq<string>
  {
    var parts := Split(s, ',');
    parts[..|parts| - 1]
  }

  /** `[int(u) for u in segs]`: the segments are converted from left to
      right and the first invalid one raises. */
  function ParseSegments(segs: seq<string>): (r: Result<seq<int>, ParseError>)
    ensures r.Ok? <==> forall k :: 0 <= k < |segs| ==> IsIntLiteral(segs[k])
    ensures r.Ok? ==> |r.value| == |segs|
                      && forall k :: 0 <= k < |segs| ==> ParseInt(segs[k]) == Ok(r.value[k])
    ensures r.Err? ==> exists k :: 0 <= k < |segs| && segs[k] == r.error.literal
                                   && !IsIntLiteral(segs[k])
                                   && forall j :: 0 <= j < k ==> IsIntLiteral(segs[j])
  {
    if segs == [] then Ok([])
    else
      match ParseInt(segs[0])
      case Err(e) => Err(e)
      case Ok(x) =>
        match ParseSegments(segs[1..])
        case Err(e) =>
          assert forall k :: 1 <= k < |segs| ==> segs[k] == segs[1..][k - 1];
          Err(e)
        case Ok(xs) =>
          assert forall k :: 1 <= k < |segs| ==> segs[k] == segs[1..][k - 1];
          Ok([x] + xs)
  }

  // ---------------------------------------------------------------------
  // The parser itself, recursive over the string
  // ---------------------------------------------------------------------

  /** Index of the first occurrence of `c` in `s`. */
  function IndexOf(s: string, c: char): (i: nat)
    requires c in s
    ensures i < |s| && s[i] == c && c !in s[..i]
  {
    if s[0] == c then 0
    else
      var i := 1 + IndexOf(s[1..], c);
      assert s[..i] == [s[0]] + s[1..][..i - 1];
      i
  }

  lemma {:induction false} CountAppend(a: string, b: string, c: char)
    ensures Count(a + b, c) == Count(a, c) + Count(b, c)
  {
    if a != [] {
      assert (a + b)[1..] == a[1..] + b;
      CountAppend(a[1..], b, c);
    } else {
      assert a + b == b;
    }
  }

  lemma {:induction false} CountAbsent(s: string, c: char)
    requires c !in s
    ensures Count(s, c) == 0
  {
    if s != [] {
      assert c !in s[1..];
      CountAbsent(s[1..], c);
    }
  }

  /** Splitting a string at its first comma, as the comprehension does. */
  lemma CountAtFirst(s: string, i: nat)
    requires i < |s| && s[i] == ',' && ',' !in s[..i]
    ensures Count(s, ',') == 1 + Count(s[i + 1..], ',')
  {
    assert s == s[..i] + ([s[i]] + s[i + 1..]);
    CountAppend(s[..i], [s[i]] + s[i + 1..], ',');
    CountAbsent(s[..i], ',');
    assert ([s[i]] + s[i + 1..])[1..] == s[i + 1..];
  }

  /** `[int(u) for u in s.split(',')[:-1]]`, computed by cutting the string
      at its first comma: the text before it is the next id, and a final
      segment without a comma after it yields no id. A successful parse has
      exactly one id per comma. */
  function ParseIds(s: string): (r: Result<seq<int>, ParseError>)
    ensures r.Ok? ==> |r.value| == Count(s, ',')
    decreases |s|
  {
    if ',' !in s then
      CountAbsent(s, ',');
      Ok([])
    else
      var i := IndexOf(s, ',');
      match ParseInt(s[..i])
      case Err(e) => Err(e)
      case Ok(x) =>
        match ParseIds(s[i + 1..])
        case Err(e) => Err(e)
        case Ok(xs) =>
          CountAtFirst(s, i);
          Ok([x] + xs)
  }

  /** Each id written as its decimal literal followed by a comma: the layout
      `CHAT_IDS="100,200,"` that the parser expects. */
  function Format(ids: seq<int>): string
  {
    if ids == [] then "" else IntLiteral(ids[0]) + "," + Format(ids[1..])
  }

  // ---------------------------------------------------------------------
  // Properties
  // ---------------------------------------------------------------------

  lemma {:induction false} SplitAtFirst(s: string, sep: char, i: nat)
    requires i < |s| && s[i] == sep && sep !in s[..i]
    ensures Split(s, sep) == [s[..i]] + Split(s[i + 1..], sep)
    decreases i
  {
    if i > 0 {
      var t := s[1..];
      assert t[..i - 1] == s[1..i];
      assert s[1..i] == s[..i][1..];
      SplitAtFirst(t, sep, i - 1);
      assert t[i..] == s[i + 1..];
      assert s[..i] == [s[0]] + s[1..i];
    }
  }

  /** The recursive parser is exactly the source's comprehension over
      `s.split(',')[:-1]`. */
  lemma {:induction false} ParseIdsIsComprehension(s: string)
    ensures ParseIds(s) == ParseSegments(IdSegments(s))
    decreases |s|
  {
    if ',' !in s {
      CountAbsent(s, ',');
      assert IdSegments(s) == [];
    } else {
      var i := IndexOf(s, ',');
      SplitAtFirst(s, ',', i);
      var rest := Split(s[i + 1..], ',');
      assert IdSegments(s) == [s[..i]] + rest[..|rest| - 1];
      assert IdSegments(s)[1..] == IdSegments(s[i + 1..]);
      ParseIdsIsComprehension(s[i + 1..]);
    }
  }

  /** The parse succeeds exactly when every segment before the last comma is
      an integer literal; on failure the error names the first one that is
      not. */
  lemma ParseIdsSucceedsIff(s: string)
    ensures ParseIds(s).Ok? <==> forall k :: 0 <= k < |IdSegments(s)| ==> IsIntLiteral(IdSegments(s)[k])
    ensures ParseIds(s).Err? ==>
      exists k :: 0 <= k < |IdSegments(s)| && IdSegments(s)[k] == ParseIds(s).error.literal
                  && !IsIntLiteral(IdSegments(s)[k])
                  && forall j :: 0 <= j < k ==> IsIntLiteral(IdSegments(s)[j])
  {
    ParseIdsIsComprehension(s);
  }

  /** Round trip: writing each id followed by a comma and parsing gives the
      ids back. */
  lemma {:induction false} ParseFormatRoundTrip(ids: seq<int>)
    ensures ParseIds(Format(ids)) == Ok(ids)
  {
    if ids != [] {
      var lit := IntLiteral(ids[0]);
      var rest := Format(ids[1..]);
      var s := Format(ids);
      IntLiteralRoundTrip(ids[0]);
      assert s == lit + "," + rest;
      assert s[|lit|] == ',';
      assert s[..|lit|] == lit;
      IndexOfPrefix(lit + ",", rest, ',');
      assert IndexOf(lit + ",", ',') == |lit|;
      assert s[|lit| + 1..] == rest;
      ParseFormatRoundTrip(ids[1..]);
      assert [ids[0]] + ids[1..] == ids;
    }
  }

  /** The result of parsing two texts one after the other: the first
      error, or both lists of ids concatenated. */
  function Then(r1: Result<seq<int>, ParseError>, r2: Result<seq<int>, ParseError>): Result<seq<int>, ParseError>
  {
    if r1.Err? then r1 else if r2.Err? then r2 else Ok(r1.value + r2.value)
  }

  lemma {:induction false} IndexOfPrefix(a: string, b: string, c: char)
    requires c in a
    ensures IndexOf(a + b, c) == IndexOf(a, c)
  {
    assert (a + b)[0] == a[0];
    if a[0] != c {
      assert (a + b)[1..] == a[1..] + b;
      IndexOfPrefix(a[1..], b, c);
    }
  }

  /** One step of the parser: the id before the first comma, then the rest. */
  function Cons(head: Result<int, ParseError>, tail: Result<seq<int>, ParseError>): Result<seq<int>, ParseError>
  {
    if head.Err? then Err(head.error) else if tail.Err? then tail else Ok([head.value] + tail.value)
  }

  lemma ParseIdsUnfold(s: string)
    requires ',' in s
    ensures ParseIds(s) == Cons(ParseInt(s[..IndexOf(s, ',')]), ParseIds(s[IndexOf(s, ',') + 1..]))
  {
  }

  lemma ConsThen(head: Result<int, ParseError>, r1: Result<seq<int>, ParseError>, r2: Result<seq<int>, ParseError>)
    ensures Cons(head, Then(r1, r2)) == Then(Cons(head, r1), r2)
  {
    if head.Ok? && r1.Ok? && r2.Ok? {
      assert [head.value] + (r1.value + r2.value) == ([head.value] + r1.value) + r2.value;
    }
  }

  /** Parsing distributes over concatenation at a comma boundary. */
  lemma {:induction false} ParseIdsAppend(a: string, b: string)
    requires a == [] || a[|a| - 1] == ','
    ensures ParseIds(a + b) == Then(ParseIds(a), ParseIds(b))
    decreases |a|
  {
    if a == [] {
      assert a + b == b;
      if ParseIds(b).Ok? {
        assert [] + ParseIds(b).value == ParseIds(b).value;
      }
    } else {
      assert a[|a| - 1] in a;
      var i := IndexOf(a, ',');
      var ab := a + b;
      IndexOfPrefix(a, b, ',');
      assert ab[..i] == a[..i];
      assert ab[i + 1..] == a[i + 1..] + b;
      var tail := a[i + 1..];
      assert tail == [] || tail[|tail| - 1] == ',';
      ParseIdsAppend(tail, b);
      ParseIdsUnfold(a);
      ParseIdsUnfold(ab);
      ConsThen(ParseInt(a[..i]), ParseIds(tail), ParseIds(b));
    }
  }

  /** The final segment is always discarded: text after the last comma never
      changes the result. */
  lemma TrailingSegmentIgnored(a: string, t: string)
    requires a == [] || a[|a| - 1] == ','
    requires ',' !in t
    ensures ParseIds(a + t) == ParseIds(a)
  {
    ParseIdsAppend(a, t);
    if ParseIds(a).Ok? {
      assert ParseIds(a).value + [] == ParseIds(a).value;
    }
  }

  /** An empty segment before a comma is an error, because `int('')` raises:
      a leading comma, or two commas in a row anywhere. */
  lemma EmptySegmentRejected(p: string, t: string)
    ensures ParseIds("," + t) == Err(InvalidLiteral(""))
    ensures ParseIds(p + ",," + t).Err?
  {
    assert IndexOf("," + t, ',') == 0;
    assert ("," + t)[..0] == "";
    var a := p + ",";
    assert p + ",," + t == a + ("," + t);
    ParseIdsAppend(a, "," + t);
  }

  /** `CHAT_IDS="100,200,"` gives both ids. */
  lemma ExampleTrailingComma()
    ensures ParseIds("100,200,") == Ok([100, 200])
  {
    assert NatLiteral(100) == "100" by { assert NatLiteral(10) == "10"; }
    assert NatLiteral(200) == "200" by { assert NatLiteral(20) == "20"; }
    assert Format([100, 200]) == "100,200,";
    ParseFormatRoundTrip([100, 200]);
  }

  /** Without the trailing comma the last id is lost. */
  lemma ExampleNoTrailingComma()
    ensures ParseIds("100,200") == Ok([100])
  {
    assert NatLiteral(100) == "100" by { assert NatLiteral(10) == "10"; }
    assert Format([100]) == "100,";
    ParseFormatRoundTrip([100]);
    assert "100,200" == "100," + "200";
    TrailingSegmentIgnored("100,", "200");
  }

  /** The empty text has no ids; a lone comma, or an empty segment in the
      middle, raises. */
  lemma ExampleEmptyAndErrors()
    ensures ParseIds("") == Ok([])
    ensures ParseIds(",") == Err(InvalidLiteral(""))
    ensures ParseIds("1,,2,") == Err(InvalidLiteral(""))
  {
  }
}
