/**
 * `parseServerDate` (apps/web/utils/formatters.ts): turns the API's SQL-style
 * timestamps ("YYYY-MM-DD HH:MM:SS.ffffff +00:00") into ISO strings before
 * handing them to the JavaScript `Date` parser. The parser itself is a
 * parameter: it returns the epoch milliseconds, or `None` for an invalid date.
 */
module Formatters {
  import opened Base

  /** The values the function can be called with. */
  datatype ServerDate =
    | Absent                  // null or undefined
    | NotANumber              // NaN
    | Number(value: real)
    | Text(text: string)
    | Other(truthy: bool)     // any other JavaScript value

  /** JavaScript falsiness for these values. */
  predicate Falsy(d: ServerDate) {
    d.Absent? || d.NotANumber? || (d.Number? && d.value == 0.0) || (d.Text? && d.text == "") || (d.Other? && !d.truthy)
  }

  /** The regular-expression class `\d`. */
  predicate IsDigit(c: char) {
    '0' <= c <= '9'
  }

  /** The regular-expression class `\s`: ECMAScript white space and line terminators. */
  predicate IsJsSpace(c: char) {
    var n := c as int;
    (9 <= n <= 13) || n == 32 || n == 0xA0 || n == 0x1680 || (0x2000 <= n <= 0x200A) ||
    n == 0x2028 || n == 0x2029 || n == 0x202F || n == 0x205F || n == 0x3000 || n == 0xFEFF
  }

  /** `^\d{4}-\d{2}-\d{2}` */
  predicate IsDate(s: string) {
    |s| == 10 && IsDigit(s[0]) && IsDigit(s[1]) && IsDigit(s[2]) && IsDigit(s[3]) && s[4] == '-' &&
    IsDigit(s[5]) && IsDigit(s[6]) && s[7] == '-' && IsDigit(s[8]) && IsDigit(s[9])
  }

  /** `/^\d{4}-\d{2}-\d{2}\s/` */
  predicate LooksLikeSql(s: string) {
    |s| >= 11 && IsDate(s[..10]) && IsJsSpace(s[10])
  }

  function Count(s: string, c: char): (n: nat)
    ensures n == 0 <==> c !in s
    ensures n <= |s|
  {
    if s == [] then 0 else (if s[0] == c then 1 else 0) + Count(s[1..], c)
  }

  function FirstIndex(s: string, c: char): (i: nat)
    requires c in s
    ensures i < |s| && s[i] == c && c !in s[..i]
  {
    if s[0] == c then 0 else 1 + FirstIndex(s[1..], c)
  }

  /** `String.prototype.replace` with a one-character string pattern: only the first occurrence. */
  function ReplaceFirst(s: string, c: char, repl: string): string {
    if c !in s then s else s[..FirstIndex(s, c)] + repl + s[FirstIndex(s, c) + 1..]
  }

  /** `String.prototype.split` with a one-character separator. */
  function Split(s: string, c: char): (parts: seq<string>)
    ensures |parts| >= 1
    ensures forall k :: 0 <= k < |parts| ==> c !in parts[k]
    decreases |s|
  {
    if c !in s then [s] else [s[..FirstIndex(s, c)]] + Split(s[FirstIndex(s, c) + 1..], c)
  }

  /** `Array.prototype.join`, the inverse of `Split`. */
  function Join(parts: seq<string>, c: char): string {
    if |parts| <= 1 then (if parts == [] then "" else parts[0]) else parts[0] + [c] + Join(parts[1..], c)
  }

  /** The string rewriting of `parseServerDate`. */
  function Normalise(s: string): string {
    if !LooksLikeSql(s) then s
    else
      var s1 := ReplaceFirst(ReplaceFirst(s, ' ', "T"), ' ', "");
      var parts := Split(s1, ' ');
      if |parts| >= 2 then parts[0] + "T" + parts[1] + (if |parts| > 2 && parts[2] != "" then parts[2] else "Z")
      else s1
  }

  method ParseServerDate(d: ServerDate, parse: string -> Option<real>) returns (r: Option<real>)
    ensures Falsy(d) ==> r == None
    ensures d.Number? && !Falsy(d) ==> r == Some(d.value)
    ensures d.Other? ==> r == None
    ensures d.Text? && !Falsy(d) ==> r == parse(Normalise(d.text))
  {
    if Falsy(d) {
      return None;
    }
    if d.Number? {
      return Some(d.value);
    }
    if !d.Text? {
      return None;
    }
    var dateStr := d.text;
    if LooksLikeSql(dateStr) {
      dateStr := ReplaceFirst(dateStr, ' ', "T");
      dateStr := ReplaceFirst(dateStr, ' ', "");
      var parts := Split(dateStr, ' ');
      if |parts| >= 2 {
        var iso := parts[0] + "T" + parts[1];
        if |parts| > 2 && parts[2] != "" {
          iso := iso + parts[2];
        } else {
          iso := iso + "Z";
        }
        dateStr := iso;
      }
    }
    r := parse(dateStr);
  }

  // ---- Properties ----

  /** The first occurrence of a character, when the text before it does not hold it. */
  lemma {:induction false} FirstAfter(p: string, c: char, q: string, repl: string)
    requires c !in p
    ensures c in p + [c] + q && FirstIndex(p + [c] + q, c) == |p|
    ensures ReplaceFirst(p + [c] + q, c, repl) == p + repl + q
    ensures Split(p + [c] + q, c) == [p] + Split(q, c)
    decreases |p|
  {
    var s := p + [c] + q;
    assert s[|p|] == c;
    if p != [] {
      assert s[0] == p[0];
      assert s[1..] == p[1..] + [c] + q;
      FirstAfter(p[1..], c, q, repl);
    }
    assert s[..|p|] == p && s[|p| + 1..] == q;
  }

  /** Splitting and joining again gives back the string. */
  lemma {:induction false} SplitJoin(s: string, c: char)
    ensures Join(Split(s, c), c) == s
    ensures |Split(s, c)| == Count(s, c) + 1
    decreases |s|
  {
    if c in s {
      var i := FirstIndex(s, c);
      var rest := s[i + 1..];
      assert s == s[..i] + [c] + rest;
      FirstAfter(s[..i], c, rest, "");
      SplitJoin(rest, c);
      CountSplit(s, c, i);
      var parts := Split(s, c);
      assert parts == [s[..i]] + Split(rest, c);
      assert parts[1..] == Split(rest, c);
    }
  }

  lemma {:induction false} CountAppend(a: string, b: string, c: char)
    ensures Count(a + b, c) == Count(a, c) + Count(b, c)
    decreases |a|
  {
    if a == [] {
      assert a + b == b;
    } else {
      assert (a + b)[0] == a[0];
      assert (a + b)[1..] == a[1..] + b;
      CountAppend(a[1..], b, c);
    }
  }

  /** Count around a position holding the character. */
  lemma CountSplit(s: string, c: char, i: nat)
    requires i < |s| && s[i] == c && c !in s[..i]
    ensures Count(s, c) == 1 + Count(s[i + 1..], c)
  {
    assert s == s[..i] + [c] + s[i + 1..];
    CountAppend(s[..i] + [c], s[i + 1..], c);
    CountAppend(s[..i], [c], c);
  }

  /** Replacing the first occurrence by a string without the character removes one occurrence. */
  lemma ReplaceFirstCount(s: string, c: char, repl: string)
    requires c in s && c !in repl
    ensures Count(ReplaceFirst(s, c, repl), c) == Count(s, c) - 1
  {
    var i := FirstIndex(s, c);
    CountSplit(s, c, i);
    CountAppend(s[..i] + repl, s[i + 1..], c);
    CountAppend(s[..i], repl, c);
  }

  /** A string that does not start like an SQL timestamp is passed to the parser as it is. */
  lemma NonSqlUnchanged(s: string)
    requires !LooksLikeSql(s)
    ensures Normalise(s) == s
  {
  }

  /**
   * The split branch that appends an offset or 'Z' only runs when a space
   * survives the two edits, which needs three or more spaces in the input.
   */
  lemma SplitNeedsThreeSpaces(s: string)
    requires LooksLikeSql(s) && Count(s, ' ') <= 2
    ensures Normalise(s) == ReplaceFirst(ReplaceFirst(s, ' ', "T"), ' ', "")
  {
    var s0 := ReplaceFirst(s, ' ', "T");
    var s1 := ReplaceFirst(s0, ' ', "");
    if ' ' in s {
      ReplaceFirstCount(s, ' ', "T");
      if ' ' in s0 {
        ReplaceFirstCount(s0, ' ', "");
      }
    }
    assert Count(s1, ' ') == 0;
    SplitJoin(s1, ' ');
  }

  /** When the two edits leave no space, the edited string is the result. */
  lemma EditsSuffice(date: string, rest: string, s1: string)
    requires IsDate(date) && ' ' !in date && ' ' !in s1
    requires ReplaceFirst(ReplaceFirst(date + [' '] + rest, ' ', "T"), ' ', "") == s1
    ensures Normalise(date + [' '] + rest) == s1
  {
    var s := date + [' '] + rest;
    assert s[..10] == date && s[10] == ' ';
    assert LooksLikeSql(s);
  }

  lemma NoSpaceJoin(a: string, b: string)
    requires ' ' !in a && ' ' !in b
    ensures ' ' !in a + b
  {
  }

  lemma Regroup(head: string, mid: string, tail: string)
    ensures head + "T" + (mid + [' '] + tail) == (head + "T" + mid) + [' '] + tail
    ensures (head + "T" + mid) + "" + tail == (head + "T" + mid) + tail
  {
  }

  /** The two edits on a string with two spaces, the first one after a space-free head. */
  lemma TwoEdits(head: string, mid: string, tail: string)
    requires ' ' !in head && ' ' !in mid
    ensures ReplaceFirst(ReplaceFirst(head + [' '] + (mid + [' '] + tail), ' ', "T"), ' ', "") == (head + "T" + mid) + tail
  {
    FirstAfter(head, ' ', mid + [' '] + tail, "T");
    var h := head + "T" + mid;
    assert ' ' !in h by {
      NoSpaceJoin(head, "T");
      NoSpaceJoin(head + "T", mid);
    }
    Regroup(head, mid, tail);
    FirstAfter(h, ' ', tail, "");
  }

  /** The first space becomes 'T' and the second one is dropped: the SQL offset form becomes ISO 8601. */
  lemma SqlWithOffset(date: string, time: string, offset: string)
    requires IsDate(date) && ' ' !in time && ' ' !in offset
    ensures Normalise(date + " " + time + " " + offset) == date + "T" + time + offset
  {
    assert ' ' !in date;
    var rest := time + [' '] + offset;
    assert date + " " + time + " " + offset == date + [' '] + rest;
    TwoEdits(date, time, offset);
    var h := date + "T" + time;
    assert ' ' !in h by {
      NoSpaceJoin(date, "T");
      NoSpaceJoin(date + "T", time);
    }
    NoSpaceJoin(h, offset);
    EditsSuffice(date, rest, h + offset);
  }

  /** Without an offset only the first space is rewritten, and no 'Z' is added. */
  lemma SqlWithoutOffset(date: string, time: string)
    requires IsDate(date) && ' ' !in time
    ensures Normalise(date + " " + time) == date + "T" + time
  {
    assert ' ' !in date;
    assert date + " " + time == date + [' '] + time;
    FirstAfter(date, ' ', time, "T");
    assert ' ' !in date + "T" + time;
    EditsSuffice(date, time, date + "T" + time);
  }

  const ExampleDate: string := "2026-01-04"
  const ExampleTime: string := "22:30:58.641961"
  const ExampleOffset: string := "+00:00"

  lemma ExampleFields()
    ensures IsDate(ExampleDate) && ' ' !in ExampleTime && ' ' !in ExampleOffset
  {
  }

  lemma ExampleSql()
    ensures ExampleDate + " " + ExampleTime + " " + ExampleOffset == "2026-01-04 22:30:58.641961 +00:00"
  {
  }

  lemma ExampleIso()
    ensures ExampleDate + "T" + ExampleTime + ExampleOffset == "2026-01-04T22:30:58.641961+00:00"
  {
  }

  /** The timestamp the API sends, in ISO form. */
  lemma ServerExample()
    ensures Normalise("2026-01-04 22:30:58.641961 +00:00") == "2026-01-04T22:30:58.641961+00:00"
  {
    ExampleFields();
    ExampleSql();
    ExampleIso();
    SqlWithOffset(ExampleDate, ExampleTime, ExampleOffset);
  }

  lemma Regroup4(date: string, a: string, b: string, tail: string)
    ensures date + " " + a + " " + b + " " + tail == date + [' '] + (a + [' '] + (b + [' '] + tail))
    ensures (date + "T" + a) + (b + [' '] + tail) == (date + "T" + a + b) + [' '] + tail
  {
  }

  /**
   * With a third space the split branch does run: the text after it is
   * appended after a second 'T', with a 'Z', and anything past a fourth
   * space is dropped.
   */
  lemma ThirdSpaceSplits(date: string, a: string, b: string, tail: string)
    requires IsDate(date) && ' ' !in a && ' ' !in b && ' ' !in tail
    ensures Normalise(date + " " + a + " " + b + " " + tail) == date + "T" + a + b + "T" + tail + "Z"
  {
    assert ' ' !in date;
    Regroup4(date, a, b, tail);
    var s := date + [' '] + (a + [' '] + (b + [' '] + tail));
    assert s[..10] == date && s[10] == ' ';
    TwoEdits(date, a, b + [' '] + tail);
    var h2 := date + "T" + a + b;
    assert ' ' !in h2 by {
      NoSpaceJoin(date, "T");
      NoSpaceJoin(date + "T", a);
      NoSpaceJoin(date + "T" + a, b);
    }
    FirstAfter(h2, ' ', tail, "");
    assert Split(h2 + [' '] + tail, ' ') == [h2, tail];
  }
}
