// The CSV loader (src/utils/DataLoader.cpp): the lines of a file become a
// dataset of feature rows and one-hot label rows. Opening and reading the
// file are left to the caller, who passes the lines; `std::stof` is the
// parameter `parse`, which answers None where it would throw.
module DataLoaders {
  import opened Common
  import opened MatrixSpec
  import opened Datasets

  /** What `loadCSV` is told besides the file: label column, class count, scale, and the number parser. */
  datatype Config = Config(labelIndex: int, numClasses: nat, scale: real, parse: string -> Option<real>)

  // ------------------------------------------------------------ cell splitting

  /** The position of the first ',' in s, or |s| when there is none. */
  function CommaAt(s: string): (k: nat)
    ensures k <= |s|
    ensures forall i :: 0 <= i < k ==> s[i] != ','
    ensures k < |s| ==> s[k] == ','
  {
    if |s| == 0 || s[0] == ',' then 0 else 1 + CommaAt(s[1..])
  }

  /**
   * The cells `std::getline(ss, cell, ',')` yields from a line: the pieces
   * between commas, except that a line ending in ',' yields no final empty
   * piece.
   */
  function Cells(line: string): seq<string>
    decreases |line|
  {
    if |line| == 0 then []
    else
      var k := CommaAt(line);
      if k == |line| then [line] else [line[..k]] + Cells(line[k + 1..])
  }

  /** The cells joined back with ','. */
  function Joined(cells: seq<string>): string
  {
    if |cells| == 0 then "" else if |cells| == 1 then cells[0] else cells[0] + "," + Joined(cells[1..])
  }

  predicate EndsWithComma(s: string)
  {
    |s| > 0 && s[|s| - 1] == ','
  }

  /** No cell holds a comma. */
  lemma {:induction false} CellsHaveNoComma(line: string)
    ensures forall c :: c in Cells(line) ==> ',' !in c
    decreases |line|
  {
    if |line| > 0 && CommaAt(line) < |line| {
      CellsHaveNoComma(line[CommaAt(line) + 1..]);
    }
  }

  /** Joining the cells with ',' gives the line back, up to a final ','. */
  lemma {:induction false} CellsJoin(line: string)
    ensures Joined(Cells(line)) + (if EndsWithComma(line) then "," else "") == line
    decreases |line|
  {
    var k := CommaAt(line);
    if k < |line| {
      CellsJoin(line[k + 1..]);
      JoinStep(line, k);
    } else if |line| > 0 {
      assert Cells(line) == [line];
    }
  }

  /** The step of `CellsJoin` at the first comma, from the claim for the rest of the line. */
  lemma JoinStep(line: string, k: nat)
    requires k == CommaAt(line) < |line|
    requires var rest := line[k + 1..];
      Joined(Cells(rest)) + (if EndsWithComma(rest) then "," else "") == rest
    ensures Joined(Cells(line)) + (if EndsWithComma(line) then "," else "") == line
  {
    var head, rest := line[..k], line[k + 1..];
    CellsAtComma(line, k);
    SplitAtComma(line, k);
    if |rest| == 0 {
      assert Cells(line) == [head];
    } else {
      var tail := if EndsWithComma(rest) then "," else "";
      assert EndsWithComma(line) == EndsWithComma(rest);
      JoinedCons(head, Cells(rest));
      Regroup(head, Joined(Cells(rest)), tail);
    }
  }

  lemma CellsAtComma(line: string, k: nat)
    requires k == CommaAt(line) < |line|
    ensures Cells(line) == [line[..k]] + Cells(line[k + 1..])
  {
  }

  lemma SplitAtComma(line: string, k: nat)
    requires k < |line| && line[k] == ','
    ensures line == line[..k] + "," + line[k + 1..]
  {
  }

  lemma JoinedCons(head: string, cells: seq<string>)
    requires |cells| >= 1
    ensures Joined([head] + cells) == head + "," + Joined(cells)
  {
    assert ([head] + cells)[1..] == cells;
  }

  lemma Regroup(a: string, b: string, c: string)
    ensures a + "," + b + c == a + "," + (b + c)
  {
  }

  /** A trailing '\r' is removed from a cell. */
  function StripCR(cell: string): (r: string)
    ensures |cell| > 0 && cell[|cell| - 1] == '\r' ==> r + "\r" == cell
    ensures !(|cell| > 0 && cell[|cell| - 1] == '\r') ==> r == cell
  {
    if |cell| > 0 && cell[|cell| - 1] == '\r' then cell[..|cell| - 1] else cell
  }

  // ------------------------------------------------------------ one line

  /** The state of the cell loop: features so far, the label row, and `col_idx`. */
  datatype RowAcc = RowAcc(x: seq<real>, y: seq<real>, col: int)

  /**
   * One cell: an unparsable cell changes nothing; the label column sets the
   * one-hot entry of its truncated value when in range; any other column
   * appends its value divided by the scale.
   */
  function TakeCell(acc: RowAcc, cell: string, cfg: Config): RowAcc
    requires cfg.scale != 0.0
  {
    match cfg.parse(StripCR(cell))
    case None => acc
    case Some(v) =>
      if acc.col == cfg.labelIndex then
        var cls := Trunc(v);
        RowAcc(acc.x, if 0 <= cls < |acc.y| then acc.y[cls := 1.0] else acc.y, acc.col + 1)
      else
        RowAcc(acc.x + [v / cfg.scale], acc.y, acc.col + 1)
  }

  /** The cell loop after its first n cells. */
  function RowUpTo(cells: seq<string>, cfg: Config, n: nat): RowAcc
    requires cfg.scale != 0.0 && n <= |cells|
  {
    if n == 0 then RowAcc([], seq(cfg.numClasses, _ => 0.0), 0)
    else TakeCell(RowUpTo(cells, cfg, n - 1), cells[n - 1], cfg)
  }

  function ParsedRow(line: string, cfg: Config): RowAcc
    requires cfg.scale != 0.0
  {
    RowUpTo(Cells(line), cfg, |Cells(line)|)
  }

  /** A label row is zero everywhere except at most one entry, which is 1. */
  predicate OneHotOrZero(y: seq<real>)
  {
    (forall i :: 0 <= i < |y| ==> y[i] == 0.0 || y[i] == 1.0) &&
    (forall i, j :: 0 <= i < |y| && 0 <= j < |y| && y[i] == 1.0 && y[j] == 1.0 ==> i == j)
  }

  /**
   * The label row keeps width numClasses and is one-hot or zero, because
   * `col_idx` only grows, so the label column is met at most once; before
   * it is met the row is zero.
   */
  lemma {:induction false} RowUpToLabel(cells: seq<string>, cfg: Config, n: nat)
    requires cfg.scale != 0.0 && n <= |cells|
    ensures var acc := RowUpTo(cells, cfg, n);
      |acc.y| == cfg.numClasses && 0 <= acc.col <= n && OneHotOrZero(acc.y) &&
      (acc.col <= cfg.labelIndex ==> forall i :: 0 <= i < |acc.y| ==> acc.y[i] == 0.0)
  {
    if n > 0 {
      RowUpToLabel(cells, cfg, n - 1);
    }
  }

  /** With a label column that no cell can have (a negative one), every label row is zero. */
  lemma {:induction false} NegativeLabelIndexLabelsNothing(cells: seq<string>, cfg: Config, n: nat)
    requires cfg.scale != 0.0 && n <= |cells| && cfg.labelIndex < 0
    ensures forall i :: 0 <= i < |RowUpTo(cells, cfg, n).y| ==> RowUpTo(cells, cfg, n).y[i] == 0.0
  {
    if n > 0 {
      NegativeLabelIndexLabelsNothing(cells, cfg, n - 1);
      RowUpToLabel(cells, cfg, n - 1);
    }
  }

  /** The cell loop of one line. */
  method ParseLine(line: string, cfg: Config) returns (x: seq<real>, y: seq<real>)
    requires cfg.scale != 0.0
    ensures x == ParsedRow(line, cfg).x && y == ParsedRow(line, cfg).y
  {
    var cells := Cells(line);
    x, y := [], seq(cfg.numClasses, _ => 0.0);
    var col := 0;
    var k := 0;
    while k < |cells|
      invariant 0 <= k <= |cells|
      invariant x == RowUpTo(cells, cfg, k).x && y == RowUpTo(cells, cfg, k).y && col == RowUpTo(cells, cfg, k).col
    {
      var cell := StripCR(cells[k]);
      var parsed := cfg.parse(cell);
      if parsed.Some? {
        var v := parsed.value;
        if col == cfg.labelIndex {
          var cls := Trunc(v);
          if 0 <= cls < |y| {
            y := y[cls := 1.0];
          }
        } else {
          x := x + [v / cfg.scale];
        }
        col := col + 1;
      }
      k := k + 1;
    }
  }

  // ------------------------------------------------------------ all lines

  /** The state of the line loop: accepted rows, the width the first accepted row fixed, and `dropped_rows`. */
  datatype Table = Table(xs: seq<seq<real>>, ys: seq<seq<real>>, width: nat, dropped: nat)

  /**
   * One line: an empty line, or a row without features, is ignored; the
   * first row with features fixes the width; a later row of another width
   * is dropped and counted.
   */
  function TakeLine(t: Table, line: string, cfg: Config): Table
    requires cfg.scale != 0.0
  {
    if |line| == 0 then t
    else
      var row := ParsedRow(line, cfg);
      if |row.x| == 0 then t
      else if |t.xs| == 0 then Table([row.x], [row.y], |row.x|, t.dropped)
      else if |row.x| == t.width then Table(t.xs + [row.x], t.ys + [row.y], t.width, t.dropped)
      else t.(dropped := t.dropped + 1)
  }

  /** The line loop after the first n lines it reads. */
  function TableUpTo(lines: seq<string>, cfg: Config, n: nat): Table
    requires cfg.scale != 0.0 && n <= |lines|
  {
    if n == 0 then Table([], [], 0, 0) else TakeLine(TableUpTo(lines, cfg, n - 1), lines[n - 1], cfg)
  }

  /** The lines the loop reads: all of them, or all but the first when the header is skipped. */
  function Body(lines: seq<string>, skipHeader: bool): (b: seq<string>)
    ensures skipHeader && |lines| > 0 ==> b == lines[1..]
    ensures !skipHeader || |lines| == 0 ==> b == lines
  {
    if skipHeader && |lines| > 0 then lines[1..] else lines
  }

  /**
   * Every accepted feature row has the width of the first, which is not
   * zero; every label row is one-hot or zero of width numClasses; there are
   * as many label rows as feature rows.
   */
  lemma {:induction false} TableShape(lines: seq<string>, cfg: Config, n: nat)
    requires cfg.scale != 0.0 && n <= |lines|
    ensures var t := TableUpTo(lines, cfg, n);
      |t.xs| == |t.ys| &&
      (|t.xs| > 0 ==> t.width > 0) &&
      (forall i :: 0 <= i < |t.xs| ==> |t.xs[i]| == t.width) &&
      (forall i :: 0 <= i < |t.ys| ==> |t.ys[i]| == cfg.numClasses && OneHotOrZero(t.ys[i]))
  {
    if n > 0 {
      TableShape(lines, cfg, n - 1);
      if |lines[n - 1]| > 0 {
        var cells := Cells(lines[n - 1]);
        RowUpToLabel(cells, cfg, |cells|);
      }
    }
  }

  /** An empty line changes nothing, wherever it appears. */
  lemma EmptyLineIgnored(lines: seq<string>, cfg: Config)
    requires cfg.scale != 0.0
    ensures TableUpTo(lines + [""], cfg, |lines| + 1) == TableUpTo(lines, cfg, |lines|)
  {
    assert TableUpTo(lines + [""], cfg, |lines|) == TableUpTo(lines, cfg, |lines|) by {
      PrefixTable(lines, [""], cfg, |lines|);
    }
  }

  lemma {:induction false} PrefixTable(lines: seq<string>, more: seq<string>, cfg: Config, n: nat)
    requires cfg.scale != 0.0 && n <= |lines|
    ensures TableUpTo(lines + more, cfg, n) == TableUpTo(lines, cfg, n)
  {
    if n > 0 {
      PrefixTable(lines, more, cfg, n - 1);
      assert (lines + more)[n - 1] == lines[n - 1];
    }
  }

  /** A line of cells that all parse has, as features, the non-label values divided by the scale. */
  lemma {:induction false} FeaturesInOrder(cells: seq<string>, cfg: Config, n: nat)
    requires cfg.scale != 0.0 && n <= |cells| && cfg.labelIndex < 0
    requires forall i :: 0 <= i < |cells| ==> cfg.parse(StripCR(cells[i])).Some?
    ensures var acc := RowUpTo(cells, cfg, n);
      |acc.x| == n && acc.col == n &&
      forall i :: 0 <= i < n ==> acc.x[i] == cfg.parse(StripCR(cells[i])).value / cfg.scale
  {
    if n > 0 {
      FeaturesInOrder(cells, cfg, n - 1);
    }
  }

  /**
   * `loadCSV` over the lines of the file. A negative class count makes the
   * one-hot vector of the first line read throw; no accepted row throws
   * "No valid data loaded."; otherwise the dataset holds the accepted rows
   * and indices 0 .. n-1. `dropped` is the count of dropped rows that the
   * loader reports.
   */
  method LoadCsv(lines: seq<string>, labelIndex: int, numClasses: int, scale: real,
                 skipHeader: bool, parse: string -> Option<real>)
    returns (r: Result<Dataset>, dropped: nat)
    requires scale != 0.0
    ensures numClasses < 0 ==> r.Err?
    ensures numClasses >= 0 ==>
      var t := TableUpTo(Body(lines, skipHeader), Config(labelIndex, numClasses, scale, parse), |Body(lines, skipHeader)|);
      dropped == t.dropped && (r.Err? <==> |t.xs| == 0)
    ensures numClasses >= 0 && r.Ok? ==>
      var t := TableUpTo(Body(lines, skipHeader), Config(labelIndex, numClasses, scale, parse), |Body(lines, skipHeader)|);
      fresh(r.value) && r.value.Valid() && Rectangular(t.xs) && Rectangular(t.ys) &&
      r.value.features == FromRows(t.xs) && r.value.labels == FromRows(t.ys) &&
      r.value.features.rows == r.value.labels.rows == |r.value.indices| &&
      forall k :: 0 <= k < |r.value.indices| ==> r.value.indices[k] == k
  {
    var body := Body(lines, skipHeader);
    if numClasses < 0 {
      return Err("cannot create std::vector larger than max_size()"), 0;
    }
    var cfg := Config(labelIndex, numClasses, scale, parse);
    var xs: seq<seq<real>>, ys: seq<seq<real>> := [], [];
    var expected: nat := 0;
    dropped := 0;
    var n := 0;
    while n < |body|
      invariant 0 <= n <= |body|
      invariant Table(xs, ys, expected, dropped) == TableUpTo(body, cfg, n)
    {
      var line := body[n];
      n := n + 1;
      if |line| == 0 {
        continue;
      }
      var x, y := ParseLine(line, cfg);
      if |x| > 0 {
        if |xs| == 0 {
          expected := |x|;
          xs, ys := [x], [y];
        } else if |x| == expected {
          xs, ys := xs + [x], ys + [y];
        } else {
          dropped := dropped + 1;
        }
      }
    }
    if |xs| == 0 {
      return Err("DataLoader: No valid data loaded."), dropped;
    }
    TableShape(body, cfg, |body|);
    var d := new Dataset.Of(FromRows(xs), FromRows(ys));
    return Ok(d), dropped;
  }
}
