// The line format of a saved Q-table (src/rl/QTable.cpp:53-102): one line
// `hash: [ q1 q2 ... ]` per entry, in ascending hash order. How a float is
// printed and read back is a pair of parameters, `show` and `read`.
module QTableText {
  import opened Common

  /** 2^64: `size_t` hashes are below it. */
  const HashBound: nat := 0x1_0000_0000_0000_0000

  predicate IsDigit(c: char) { '0' <= c <= '9' }

  /** The whitespace `operator>>` skips. */
  predicate IsSpace(c: char) { c == ' ' || c == '\t' || c == '\n' || c == '\r' || c == 11 as char || c == 12 as char }

  /** Decimal digits of n, most significant first, as `operator<<` prints a `size_t`. */
  function Decimal(n: nat): (s: string)
    ensures |s| > 0 && forall i :: 0 <= i < |s| ==> IsDigit(s[i])
  {
    if n < 10 then [DigitChar(n)] else Decimal(n / 10) + [DigitChar(n % 10)]
  }

  function DigitChar(d: nat): (c: char)
    requires d < 10
    ensures IsDigit(c) && DigitValue(c) == d
  {
    ('0' as int + d) as char
  }

  function DigitValue(c: char): (d: nat)
    requires IsDigit(c)
    ensures d < 10
  {
    c as int - '0' as int
  }

  /** The value of a run of digits. */
  function DigitsValue(s: string): nat
    requires forall i :: 0 <= i < |s| ==> IsDigit(s[i])
  {
    if |s| == 0 then 0 else 10 * DigitsValue(s[..|s| - 1]) + DigitValue(s[|s| - 1])
  }

  /** The length of the longest prefix of s made of digits. */
  function DigitRun(s: string): (n: nat)
    ensures n <= |s| && forall i :: 0 <= i < n ==> IsDigit(s[i])
    ensures n < |s| ==> !IsDigit(s[n])
  {
    if |s| == 0 || !IsDigit(s[0]) then 0 else 1 + DigitRun(s[1..])
  }

  /** The number of leading whitespace characters. */
  function SpaceRun(s: string): (n: nat)
    ensures n <= |s| && forall i :: 0 <= i < n ==> IsSpace(s[i])
    ensures n < |s| ==> !IsSpace(s[n])
  {
    if |s| == 0 || !IsSpace(s[0]) then 0 else 1 + SpaceRun(s[1..])
  }

  /**
   * `std::stoull`: leading whitespace, an optional sign, then at least one
   * digit; a minus sign negates modulo 2^64; a value of 2^64 or more is out
   * of range.
   */
  function ParseHash(s: string): (r: Result<nat>)
    ensures r.Ok? ==> r.value < HashBound
  {
    var t := s[SpaceRun(s)..];
    var negative := |t| > 0 && t[0] == '-';
    var u := if |t| > 0 && (t[0] == '-' || t[0] == '+') then t[1..] else t;
    var n := DigitRun(u);
    if n == 0 then Err("stoull")
    else
      var v := DigitsValue(u[..n]);
      if v >= HashBound then Err("stoull")
      else if negative then Ok((HashBound - v) % HashBound)
      else Ok(v)
  }

  /** `std::string::find(c, from)`: the first index at or after `from` holding c. */
  function Find(s: string, c: char, from: nat): (r: Option<nat>)
    ensures r.Some? ==> from <= r.value < |s| && s[r.value] == c
    ensures r.Some? ==> forall i :: from <= i < r.value ==> s[i] != c
    ensures r.None? ==> forall i :: from <= i < |s| ==> s[i] != c
    decreases |s| - from
  {
    if from >= |s| then None
    else if s[from] == c then Some(from)
    else Find(s, c, from + 1)
  }

  /** The whitespace-separated tokens of s, in order. */
  function Tokens(s: string): seq<string>
    decreases |s|
  {
    var t := s[SpaceRun(s)..];
    if |t| == 0 then []
    else
      var n := WordRun(t);
      [t[..n]] + Tokens(t[n..])
  }

  /** The length of the leading run of non-whitespace characters. */
  function WordRun(s: string): (n: nat)
    ensures n <= |s| && forall i :: 0 <= i < n ==> !IsSpace(s[i])
    ensures n < |s| ==> IsSpace(s[n])
    ensures |s| > 0 && !IsSpace(s[0]) ==> n > 0
  {
    if |s| == 0 || IsSpace(s[0]) then 0 else 1 + WordRun(s[1..])
  }

  /** `while (stream >> q) push_back(q)`: read tokens until the first one that is not a float. */
  function ReadFloats(tokens: seq<string>, read: string -> Option<real>): (qs: seq<real>)
    ensures |qs| <= |tokens|
  {
    if |tokens| == 0 then []
    else match read(tokens[0])
      case None => []
      case Some(q) => [q] + ReadFloats(tokens[1..], read)
  }

  /** One saved line: the hash, ": [", then " q" for every value, then "]". */
  function Line(h: nat, qs: seq<real>, show: real -> string): string
  {
    Decimal(h) + ": [" + Values(qs, show) + "]"
  }

  function Values(qs: seq<real>, show: real -> string): string
  {
    if |qs| == 0 then [] else " " + show(qs[0]) + Values(qs[1..], show)
  }

  /** The printed form of each value, in order. */
  function Shown(qs: seq<real>, show: real -> string): (ws: seq<string>)
    ensures |ws| == |qs| && forall i :: 0 <= i < |qs| ==> ws[i] == show(qs[i])
  {
    if |qs| == 0 then [] else [show(qs[0])] + Shown(qs[1..], show)
  }

  /** A printed float is one token that `read` accepts: non-empty, no whitespace, no ']'. */
  predicate Prints(show: real -> string, read: string -> Option<real>, q: real)
  {
    |show(q)| > 0 && read(show(q)).Some? && NoBreak(show(q))
  }

  ghost predicate Printable(show: real -> string, read: string -> Option<real>)
  {
    forall q :: Prints(show, read, q)
  }

  predicate NoBreak(t: string)
  {
    forall i :: 0 <= i < |t| ==> !IsSpace(t[i]) && t[i] != ']'
  }

  /** Parsing one line: the hash before the first ':', the floats between the next '[' and the ']' after it. */
  function ParseLine(line: string, read: string -> Option<real>): (r: Result<(nat, seq<real>)>)
  {
    match Find(line, ':', 0)
    case None => Err("Malformed Q-table line: " + line)
    case Some(colon) =>
      match ParseHash(line[..colon])
      case Err(e) => Err(e)
      case Ok(h) =>
        match Find(line, '[', colon)
        case None => Err("Malformed Q-table line: " + line)
        case Some(open) =>
          match Find(line, ']', open)
          case None => Err("Malformed Q-table line: " + line)
          case Some(close) => Ok((h, ReadFloats(Tokens(line[open + 1..close]), read)))
  }

  /**
   * `load` over the lines of the file: the table starts empty and each line
   * sets one entry; a malformed line stops the load with an error, keeping
   * the entries set so far.
   */
  function LoadLines(lines: seq<string>, read: string -> Option<real>): (r: (map<nat, seq<real>>, Option<string>))
  {
    if |lines| == 0 then (map[], None)
    else
      var (table, err) := LoadLines(lines[..|lines| - 1], read);
      if err.Some? then (table, err)
      else match ParseLine(lines[|lines| - 1], read)
        case Err(e) => (table, Some(e))
        case Ok((h, qs)) => (table[h := qs], None)
  }

  /** The smallest element of a non-empty set. */
  ghost function Least(keys: set<nat>): (m: nat)
    requires keys != {}
    ensures m in keys && forall x :: x in keys ==> m <= x
    decreases |keys|
  {
    var y :| y in keys;
    if keys == {y} then y
    else
      var rest := keys - {y};
      var m := Least(rest);
      assert forall x :: x in keys ==> x == y || x in rest;
      if y < m then y else m
  }

  /** The keys of a table in ascending order, as `std::map` iterates them. */
  ghost function SortedKeys(keys: set<nat>): (ks: seq<nat>)
    ensures forall k :: k in ks <==> k in keys
    ensures Ascending(ks) && |ks| == |keys|
    decreases |keys|
  {
    if keys == {} then []
    else
      var m := Least(keys);
      var rest := SortedKeys(keys - {m});
      AscendingCons(m, rest);
      [m] + rest
  }

  predicate Ascending(ks: seq<nat>)
  {
    forall i, j :: 0 <= i < j < |ks| ==> ks[i] < ks[j]
  }

  lemma AscendingCons(m: nat, rest: seq<nat>)
    requires Ascending(rest) && forall k :: k in rest ==> m < k
    ensures Ascending([m] + rest)
  {
    var ks := [m] + rest;
    forall i, j | 0 <= i < j < |ks|
      ensures ks[i] < ks[j]
    {
      assert ks[j] == rest[j - 1] && rest[j - 1] in rest;
      if i > 0 {
        assert ks[i] == rest[i - 1];
      }
    }
  }

  /** The lines `save` writes for the given hashes, in the given order. */
  function LinesOf(ks: seq<nat>, table: map<nat, seq<real>>, show: real -> string): (lines: seq<string>)
    requires forall k :: k in ks ==> k in table
    ensures |lines| == |ks|
  {
    if |ks| == 0 then []
    else LinesOf(ks[..|ks| - 1], table, show) + [Line(ks[|ks| - 1], table[ks[|ks| - 1]], show)]
  }

  /** `save`: one line per entry, in ascending hash order. */
  ghost function SaveLines(table: map<nat, seq<real>>, show: real -> string): (lines: seq<string>)
    ensures |lines| == |table.Keys|
  {
    var ks := SortedKeys(table.Keys);
    assert forall k :: k in ks ==> k in table;
    LinesOf(ks, table, show)
  }

  /** What `load` reads back for each saved value. */
  ghost function ReadBack(qs: seq<real>, show: real -> string, read: string -> Option<real>): (r: seq<real>)
    requires Printable(show, read)
    ensures |r| == |qs| && forall i :: 0 <= i < |qs| ==> read(show(qs[i])) == Some(r[i])
  {
    if |qs| == 0 then []
    else
      assert Prints(show, read, qs[0]);
      [read(show(qs[0])).value] + ReadBack(qs[1..], show, read)
  }

  /** The digits of a hash parse back to the hash. */
  lemma {:induction false} DigitsOfDecimal(h: nat)
    ensures DigitsValue(Decimal(h)) == h
  {
    var s := Decimal(h);
    if h >= 10 {
      DigitsOfDecimal(h / 10);
      assert s[..|s| - 1] == Decimal(h / 10);
    }
  }

  /** `stoull` reads back every hash that `save` prints. */
  lemma ParseDecimal(h: nat)
    requires h < HashBound
    ensures ParseHash(Decimal(h)) == Ok(h)
  {
    var s := Decimal(h);
    assert SpaceRun(s) == 0 by { assert !IsSpace(s[0]); }
    assert s[SpaceRun(s)..] == s;
    assert DigitRun(s) == |s|;
    assert s[..|s|] == s;
    DigitsOfDecimal(h);
  }

  /** `find` stops at the first occurrence. */
  lemma FindFirst(s: string, c: char, from: nat, k: nat)
    requires from <= k < |s| && s[k] == c
    requires forall i :: from <= i < k ==> s[i] != c
    ensures Find(s, c, from) == Some(k)
  {
  }

  /** A printed value followed by nothing or by a space is one whole word. */
  lemma WordOf(w: string, rest: string)
    requires |w| > 0 && NoBreak(w)
    requires rest == [] || IsSpace(rest[0])
    ensures WordRun(w + rest) == |w|
  {
    var s := w + rest;
    assert forall i :: 0 <= i < |w| ==> s[i] == w[i] && !IsSpace(s[i]);
    assert rest != [] ==> s[|w|] == rest[0];
  }

  /** The printed values split back into one token per value. */
  lemma {:induction false} TokensOfValues(qs: seq<real>, show: real -> string, read: string -> Option<real>)
    requires Printable(show, read)
    ensures Tokens(Values(qs, show)) == Shown(qs, show)
  {
    if |qs| > 0 {
      var w := show(qs[0]);
      var rest := Values(qs[1..], show);
      var s := Values(qs, show);
      assert Prints(show, read, qs[0]);
      assert s == [' '] + (w + rest);
      assert SpaceRun(s) == 1 by {
        assert IsSpace(s[0]) && s[1] == w[0] && !IsSpace(s[1]);
      }
      var t := s[1..];
      assert t == w + rest;
      WordOf(w, rest);
      assert t[..|w|] == w && t[|w|..] == rest;
      TokensOfValues(qs[1..], show, read);
    }
  }

  /** Reading the printed tokens yields the read-back value of each. */
  lemma {:induction false} ReadPrinted(qs: seq<real>, show: real -> string, read: string -> Option<real>)
    requires Printable(show, read)
    ensures ReadFloats(Shown(qs, show), read) == ReadBack(qs, show, read)
  {
    if |qs| > 0 {
      ReadPrinted(qs[1..], show, read);
      assert Shown(qs, show)[1..] == Shown(qs[1..], show);
    }
  }

  /** The printed values hold no ']'. */
  lemma {:induction false} ValuesNoBracket(qs: seq<real>, show: real -> string, read: string -> Option<real>)
    requires Printable(show, read)
    ensures forall i :: 0 <= i < |Values(qs, show)| ==> Values(qs, show)[i] != ']'
  {
    if |qs| > 0 {
      ValuesNoBracket(qs[1..], show, read);
      assert Prints(show, read, qs[0]);
      assert Values(qs, show) == [' '] + show(qs[0]) + Values(qs[1..], show);
    }
  }

  /** Where `load` finds the ':' and the '[' in a saved line. */
  lemma LineOpening(h: nat, qs: seq<real>, show: real -> string)
    ensures Find(Line(h, qs, show), ':', 0) == Some(|Decimal(h)|)
    ensures Line(h, qs, show)[..|Decimal(h)|] == Decimal(h)
    ensures Find(Line(h, qs, show), '[', |Decimal(h)|) == Some(|Decimal(h)| + 2)
  {
    var d := Decimal(h);
    var line := Line(h, qs, show);
    assert line == d + ": [" + Values(qs, show) + "]";
    assert forall i :: 0 <= i < |d| ==> line[i] == d[i];
    assert line[|d|] == ':' && line[|d| + 2] == '[';
    FindFirst(line, ':', 0, |d|);
    FindFirst(line, '[', |d|, |d| + 2);
  }

  /** Where `load` finds the ']' in a saved line, and what lies between the brackets. */
  lemma LineClosing(h: nat, qs: seq<real>, show: real -> string, read: string -> Option<real>)
    requires Printable(show, read)
    ensures Find(Line(h, qs, show), ']', |Decimal(h)| + 2) == Some(|Line(h, qs, show)| - 1)
    ensures Line(h, qs, show)[|Decimal(h)| + 3..|Line(h, qs, show)| - 1] == Values(qs, show)
  {
    var d := Decimal(h);
    var v := Values(qs, show);
    var line := Line(h, qs, show);
    var p := d + ": [";
    assert line == p + v + "]";
    ValuesNoBracket(qs, show, read);
    forall i | |d| + 2 <= i < |line| - 1
      ensures line[i] != ']'
    {
      if i > |d| + 2 {
        assert line[i] == v[i - |p|];
      }
    }
    FindFirst(line, ']', |d| + 2, |line| - 1);
  }

  /** Every line `save` writes parses back to its hash and the read-back values. */
  lemma ParseSavedLine(h: nat, qs: seq<real>, show: real -> string, read: string -> Option<real>)
    requires h < HashBound && Printable(show, read)
    ensures ParseLine(Line(h, qs, show), read) == Ok((h, ReadBack(qs, show, read)))
  {
    LineOpening(h, qs, show);
    LineClosing(h, qs, show, read);
    ParseDecimal(h);
    TokensOfValues(qs, show, read);
    ReadPrinted(qs, show, read);
  }

  /** A well-formed line after an error-free prefix sets its entry. */
  lemma LoadAppend(lines: seq<string>, line: string, read: string -> Option<real>, h: nat, qs: seq<real>)
    requires LoadLines(lines, read).1 == None && ParseLine(line, read) == Ok((h, qs))
    ensures LoadLines(lines + [line], read) == (LoadLines(lines, read).0[h := qs], None)
  {
    assert (lines + [line])[..|lines|] == lines;
  }

  /** Loading the lines saved for some hashes sets exactly those hashes, without error. */
  lemma {:induction false} LoadSaved(table: map<nat, seq<real>>, ks: seq<nat>, show: real -> string, read: string -> Option<real>)
    requires Printable(show, read)
    requires forall k :: k in ks ==> k in table && k < HashBound
    ensures LoadLines(LinesOf(ks, table, show), read).1 == None
    ensures forall h :: h in LoadLines(LinesOf(ks, table, show), read).0 <==> h in ks
    ensures forall h :: h in LoadLines(LinesOf(ks, table, show), read).0 ==> LoadLines(LinesOf(ks, table, show), read).0[h] == ReadBack(table[h], show, read)
  {
    if |ks| > 0 {
      var front := ks[..|ks| - 1];
      var k := ks[|ks| - 1];
      assert forall x :: x in ks <==> x in front || x == k;
      LoadSaved(table, front, show, read);
      ParseSavedLine(k, table[k], show, read);
      LoadAppend(LinesOf(front, table, show), Line(k, table[k], show), read, k, ReadBack(table[k], show, read));
    }
  }

  /**
   * Loading what `save` wrote gives back the same hashes, each with the
   * read-back values of its saved vector, and no error.
   */
  lemma SaveLoadRoundTrip(table: map<nat, seq<real>>, show: real -> string, read: string -> Option<real>)
    requires Printable(show, read)
    requires forall h :: h in table ==> h < HashBound
    ensures LoadLines(SaveLines(table, show), read).1 == None
    ensures forall h :: h in LoadLines(SaveLines(table, show), read).0 <==> h in table
    ensures forall h :: h in LoadLines(SaveLines(table, show), read).0 ==> LoadLines(SaveLines(table, show), read).0[h] == ReadBack(table[h], show, read)
  {
    LoadSaved(table, SortedKeys(table.Keys), show, read);
  }

  /** A line without ':' stops the load with an error, keeping the entries read before it. */
  lemma MissingColonStops(lines: seq<string>, line: string, read: string -> Option<real>)
    requires LoadLines(lines, read).1.None?
    requires forall i :: 0 <= i < |line| ==> line[i] != ':'
    ensures LoadLines(lines + [line], read) == (LoadLines(lines, read).0, Some("Malformed Q-table line: " + line))
  {
    assert (lines + [line])[..|lines|] == lines;
  }

  /** Once a line fails, no later line changes the table or the error. */
  lemma {:induction false} ErrorIsFinal(lines: seq<string>, more: seq<string>, read: string -> Option<real>)
    requires LoadLines(lines, read).1.Some?
    ensures LoadLines(lines + more, read) == LoadLines(lines, read)
    decreases |more|
  {
    if |more| > 0 {
      var front := more[..|more| - 1];
      ErrorIsFinal(lines, front, read);
      assert (lines + more)[..|lines + more| - 1] == lines + front;
    } else {
      assert lines + more == lines;
    }
  }
}
