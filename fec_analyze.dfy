/**
 * The bulk-file analyser: it guesses the delimiter and the amount, state and name columns of
 * an unlabeled FEC bulk file, filters amounts to a sanity range, and rolls the amounts up per
 * state and per name, chunk by chunk and then file by file.
 *
 * A file arrives already split into chunks of rows of cells (reading the bytes and parsing the
 * delimited text is I/O). Column names are compared case-insensitively on ASCII letters.
 */
module FecAnalyze {
  import opened Wrappers
  import opened Text
  import Maps

  // ------------------------------------------------------------------ configuration

  /** The sanity range of an amount; both bounds are accepted. */
  const MinAmount: real := -10000000.0
  const MaxAmount: real := 10000000.0

  /** How many leading rows the state heuristic looks at. */
  const StateSampleRows: nat := 1000

  // ------------------------------------------------------------------ delimiter

  /** The candidate delimiters, highest priority first. */
  const Delimiters: seq<char> := ['|', '\t', ',', '\U{1C}']

  /**
   * The delimiter of a file, from a sample of its first bytes: the first candidate, in priority
   * order, that occurs in the sample, and the pipe when none occurs.
   */
  function SniffDelimiter(sample: string): (d: char)
    ensures d in Delimiters
    ensures d in sample || (forall c :: c in Delimiters ==> c !in sample)
    ensures forall j :: 0 <= j < |Delimiters| && Delimiters[j] in sample ==> d in Delimiters[..j + 1]
    ensures (forall c :: c in Delimiters ==> c !in sample) ==> d == '|'
  {
    if '|' in sample then '|'
    else if '\t' in sample then '\t'
    else if ',' in sample then ','
    else if '\U{1C}' in sample then '\U{1C}'
    else '|'
  }

  // ------------------------------------------------------------------ cells

  /** A cell of a chunk: a string, or missing (pandas' NaN, also what a short row is padded with). */
  datatype Cell = Value(s: string) | Missing

  type Row = seq<Cell>

  function CellAt(row: Row, column: nat): Cell {
    if column < |row| then row[column] else Missing
  }

  /** The strip applied to every string cell of every chunk. */
  function StripCell(c: Cell): (r: Cell)
    ensures r.Value? <==> c.Value?
    ensures r.Value? ==> r.s == Trim(c.s, Python)
  {
    match c
    case Value(s) => Value(Trim(s, Python))
    case Missing => Missing
  }

  function StripRow(row: Row): (r: Row)
    ensures |r| == |row| && forall i :: 0 <= i < |row| ==> r[i] == StripCell(row[i])
  {
    seq(|row|, i requires 0 <= i < |row| => StripCell(row[i]))
  }

  function StripRows(rows: seq<Row>): (r: seq<Row>)
    ensures |r| == |rows| && forall i :: 0 <= i < |rows| ==> r[i] == StripRow(rows[i])
  {
    seq(|rows|, i requires 0 <= i < |rows| => StripRow(rows[i]))
  }

  predicate IsAlphaAscii(c: char) { IsUpperAscii(c) || IsLowerAscii(c) }

  /** Python's `str.isalpha()`: non-empty and every character a letter. */
  predicate PyIsAlpha(s: string) {
    |s| > 0 && forall i :: 0 <= i < |s| ==> IsAlphaAscii(s[i])
  }

  /** Python's `str.isupper()`: some cased character, and no lower-case one. */
  predicate PyIsUpper(s: string) {
    (exists i :: 0 <= i < |s| && IsUpperAscii(s[i])) && forall i :: 0 <= i < |s| ==> !IsLowerAscii(s[i])
  }

  /** `looks_state`: a string of two characters that is alphabetic and upper-case. */
  predicate LooksState(v: Cell) {
    v.Value? && |v.s| == 2 && PyIsAlpha(v.s) && PyIsUpper(v.s)
  }

  /** A cell looks like a state code exactly when it is two upper-case letters. */
  lemma LooksStateIff(v: Cell)
    ensures LooksState(v) <==> v.Value? && |v.s| == 2 && IsUpperAscii(v.s[0]) && IsUpperAscii(v.s[1])
  {
    if v.Value? && |v.s| == 2 && IsUpperAscii(v.s[0]) && IsUpperAscii(v.s[1]) {
      assert IsUpperAscii(v.s[0]);
    }
  }

  // ------------------------------------------------------------------ column-name patterns

  /** The regular expressions the column pickers try, each searched case-insensitively. */
  datatype Pattern =
    | Literal(text: string)                   // `amount`
    | Either(options: seq<string>)            // `(payee|recipient|name|committee)`
    | OptionalJoin(head: string, tail: string) // `transaction[_ ]?amt`
    | Spread(head: string, tail: string)      // `disb.*amt`; `.` does not match a newline
    | Word(text: string)                      // `\bst\b`

  /** A regular-expression word character, on ASCII. */
  predicate IsWordChar(c: char) { IsAlphaAscii(c) || IsDigit(c) || c == '_' }

  predicate SpreadAt(s: string, h: string, t: string, i: int, j: int) {
    0 <= i && i + |h| <= j && j + |t| <= |s| && s[i..i + |h|] == h && s[j..j + |t|] == t
    && '\n' !in s[i + |h|..j]
  }

  predicate WordAt(s: string, t: string, i: int) {
    0 <= i && i + |t| <= |s| && s[i..i + |t|] == t
    && (i == 0 || !IsWordChar(s[i - 1])) && (i + |t| == |s| || !IsWordChar(s[i + |t|]))
  }

  /** `re.search(pattern, column, re.I)` succeeds. */
  predicate Matches(p: Pattern, column: string) {
    var s := Lower(column);
    match p
    case Literal(t) => Contains(s, t)
    case Either(ts) => exists i :: 0 <= i < |ts| && Contains(s, ts[i])
    case OptionalJoin(h, t) => Contains(s, h + t) || Contains(s, h + "_" + t) || Contains(s, h + " " + t)
    case Spread(h, t) => exists i, j :: 0 <= i <= |s| && i <= j <= |s| && SpreadAt(s, h, t, i, j)
    case Word(t) => exists i :: 0 <= i <= |s| && WordAt(s, t, i)
  }

  const AmountPatterns: seq<Pattern> := [
    Literal("amount"), Literal("amt"), OptionalJoin("transaction", "amt"),
    OptionalJoin("expenditure", "amt"), Spread("disb", "amt"), Literal("total")]

  const StatePatterns: seq<Pattern> := [Literal("state"), Word("st")]

  const NamePatterns: seq<Pattern> := [Either(["payee", "recipient", "name", "committee"]), Literal("candidate")]

  /** The first column at or after `from` that the pattern matches. */
  function FirstColumn(p: Pattern, columns: seq<string>, from: nat): (r: Option<nat>)
    requires from <= |columns|
    ensures r.Some? ==> from <= r.value < |columns| && Matches(p, columns[r.value])
    ensures r.Some? ==> forall c :: from <= c < r.value ==> !Matches(p, columns[c])
    ensures r.None? ==> forall c :: from <= c < |columns| ==> !Matches(p, columns[c])
    decreases |columns| - from
  {
    if from == |columns| then None
    else if Matches(p, columns[from]) then Some(from)
    else FirstColumn(p, columns, from + 1)
  }

  /** The name phase of a picker: patterns in order, and for each the columns in order. */
  function FirstMatchSpec(patterns: seq<Pattern>, columns: seq<string>): (r: Option<nat>)
    ensures r.Some? ==> r.value < |columns|
    decreases |patterns|
  {
    if patterns == [] then None
    else match FirstColumn(patterns[0], columns, 0)
      case Some(c) => Some(c)
      case None => FirstMatchSpec(patterns[1..], columns)
  }

  /**
   * Column `k` is the pattern-major first match: some pattern matches it, no earlier pattern
   * matches any column, and that pattern matches no earlier column.
   */
  ghost predicate IsFirstMatch(patterns: seq<Pattern>, columns: seq<string>, k: nat) {
    k < |columns|
    && exists p :: (0 <= p < |patterns| && Matches(patterns[p], columns[k])
                    && (forall q, c :: 0 <= q < p && 0 <= c < |columns| ==> !Matches(patterns[q], columns[c]))
                    && (forall c :: 0 <= c < k ==> !Matches(patterns[p], columns[c])))
  }

  /** No pattern matching any column is exactly the case where the name phase finds nothing. */
  lemma {:induction false} FirstMatchNone(patterns: seq<Pattern>, columns: seq<string>)
    ensures FirstMatchSpec(patterns, columns).None? <==>
      forall p, c :: 0 <= p < |patterns| && 0 <= c < |columns| ==> !Matches(patterns[p], columns[c])
    decreases |patterns|
  {
    if patterns != [] {
      var first := FirstColumn(patterns[0], columns, 0);
      if first.Some? {
        assert Matches(patterns[0], columns[first.value]);
      } else {
        FirstMatchNone(patterns[1..], columns);
        if FirstMatchSpec(patterns[1..], columns).None? {
          forall p, c | 0 <= p < |patterns| && 0 <= c < |columns|
            ensures !Matches(patterns[p], columns[c])
          {
            if p > 0 { assert patterns[p] == patterns[1..][p - 1]; }
          }
        } else {
          var p, c :| 0 <= p < |patterns[1..]| && 0 <= c < |columns| && Matches(patterns[1..][p], columns[c]);
          assert Matches(patterns[p + 1], columns[c]);
        }
      }
    }
  }

  /** A column the name phase finds is the pattern-major first match. */
  lemma {:induction false} FirstMatchSome(patterns: seq<Pattern>, columns: seq<string>)
    ensures FirstMatchSpec(patterns, columns).Some? ==> IsFirstMatch(patterns, columns, FirstMatchSpec(patterns, columns).value)
    decreases |patterns|
  {
    if patterns != [] {
      var first := FirstColumn(patterns[0], columns, 0);
      if first.Some? {
        assert Matches(patterns[0], columns[first.value]);
      } else {
        FirstMatchSome(patterns[1..], columns);
        var r := FirstMatchSpec(patterns[1..], columns);
        if r.Some? {
          var p :| 0 <= p < |patterns[1..]| && Matches(patterns[1..][p], columns[r.value])
            && (forall q, c :: 0 <= q < p && 0 <= c < |columns| ==> !Matches(patterns[1..][q], columns[c]))
            && (forall c :: 0 <= c < r.value ==> !Matches(patterns[1..][p], columns[c]));
          assert Matches(patterns[p + 1], columns[r.value]);
          forall q, c | 0 <= q < p + 1 && 0 <= c < |columns|
            ensures !Matches(patterns[q], columns[c])
          {
            if q > 0 { assert patterns[q] == patterns[1..][q - 1]; }
          }
        }
      }
    }
  }

  /** The two nested `for` loops of a picker's name phase, returning at the first hit. */
  method FirstMatch(patterns: seq<Pattern>, columns: seq<string>) returns (r: Option<nat>)
    ensures r == FirstMatchSpec(patterns, columns)
  {
    var p := 0;
    while p < |patterns|
      invariant 0 <= p <= |patterns|
      invariant FirstMatchSpec(patterns, columns) == FirstMatchSpec(patterns[p..], columns)
    {
      var c := 0;
      while c < |columns|
        invariant 0 <= c <= |columns|
        invariant FirstColumn(patterns[p], columns, 0) == FirstColumn(patterns[p], columns, c)
      {
        if Matches(patterns[p], columns[c]) {
          return Some(c);
        }
        c := c + 1;
      }
      assert patterns[p..][1..] == patterns[p + 1..];
      p := p + 1;
    }
    return None;
  }

  /** `pick_amount_col`, name phase only. */
  method PickAmountColumn(columns: seq<string>) returns (r: Option<nat>)
    ensures r == FirstMatchSpec(AmountPatterns, columns)
  {
    r := FirstMatch(AmountPatterns, columns);
  }

  /** `pick_name_col`: the first column for the first of its two patterns that matches, or none. */
  method PickNameColumn(columns: seq<string>) returns (r: Option<nat>)
    ensures r == FirstMatchSpec(NamePatterns, columns)
    ensures r.Some? ==> IsFirstMatch(NamePatterns, columns, r.value)
    ensures r.None? <==> forall p, c :: 0 <= p < |NamePatterns| && 0 <= c < |columns| ==> !Matches(NamePatterns[p], columns[c])
  {
    r := FirstMatch(NamePatterns, columns);
    FirstMatchSome(NamePatterns, columns);
    FirstMatchNone(NamePatterns, columns);
  }

  /**
   * The amount patterns are tried pattern by pattern: a column containing "amount" wins over
   * every column that only contains "amt", wherever it stands.
   */
  lemma AmountBeatsAmt(columns: seq<string>, k: nat)
    requires k < |columns| && Contains(Lower(columns[k]), "amount")
    requires forall c :: 0 <= c < k ==> !Contains(Lower(columns[c]), "amount")
    ensures FirstMatchSpec(AmountPatterns, columns) == Some(k)
  {
    assert AmountPatterns[0] == Literal("amount");
    FirstColumnIs(AmountPatterns[0], columns, 0, k);
  }

  lemma {:induction false} FirstColumnIs(p: Pattern, columns: seq<string>, from: nat, k: nat)
    requires from <= k < |columns| && Matches(p, columns[k])
    requires forall c :: from <= c < k ==> !Matches(p, columns[c])
    ensures FirstColumn(p, columns, from) == Some(k)
    decreases k - from
  {
    if from < k {
      FirstColumnIs(p, columns, from + 1, k);
    }
  }

  lemma ContainsInside(s: string, sub: string, inner: string, at: nat)
    requires at + |inner| <= |sub| && sub[at..at + |inner|] == inner
    requires Contains(s, sub)
    ensures Contains(s, inner)
    decreases |s|
  {
    if StartsWith(s, sub) {
      assert s[at..at + |inner|] == inner;
      ContainsAt(s, inner, at);
    } else {
      ContainsInside(s[1..], sub, inner, at);
      assert Contains(s[1..], inner);
    }
  }

  /**
   * The three amount patterns after "amt" never decide: a column they match contains "amt"
   * and is already taken by the second pattern.
   */
  lemma {:induction false} LaterAmountPatternsContainAmt(column: string, p: nat)
    requires 2 <= p <= 4 && Matches(AmountPatterns[p], column)
    ensures Matches(AmountPatterns[1], column)
  {
    var s := Lower(column);
    if p == 2 || p == 3 {
      var h := if p == 2 then "transaction" else "expenditure";
      assert AmountPatterns[p] == OptionalJoin(h, "amt");
      OptionalJoinContainsTail(s, h, "amt");
    } else {
      var i, j :| 0 <= i <= |s| && i <= j <= |s| && SpreadAt(s, "disb", "amt", i, j);
      ContainsAt(s, "amt", j);
    }
  }

  lemma OptionalJoinContainsTail(s: string, h: string, t: string)
    requires Contains(s, h + t) || Contains(s, h + "_" + t) || Contains(s, h + " " + t)
    ensures Contains(s, t)
  {
    if Contains(s, h + t) {
      ContainsInside(s, h + t, t, |h|);
    } else if Contains(s, h + "_" + t) {
      ContainsInside(s, h + "_" + t, t, |h| + 1);
    } else {
      ContainsInside(s, h + " " + t, t, |h| + 1);
    }
  }

  // ------------------------------------------------------------------ the state column

  function Head(rows: seq<Row>, n: nat): (r: seq<Row>)
    ensures |r| == if |rows| < n then |rows| else n
  {
    if |rows| <= n then rows else rows[..n]
  }

  function CountStateLike(rows: seq<Row>, column: nat): (n: nat)
    ensures n <= |rows|
  {
    if rows == [] then 0
    else CountStateLike(rows[..|rows| - 1], column) + (if LooksState(CellAt(rows[|rows| - 1], column)) then 1 else 0)
  }

  /** The mean of `looks_state` over a column of the sample; NaN (None) when the sample is empty. */
  function StateScore(sample: seq<Row>, column: nat): (r: Option<real>)
    ensures r.Some? <==> |sample| > 0
    ensures r.Some? ==> 0.0 <= r.value <= 1.0
  {
    if |sample| == 0 then None
    else Some(CountStateLike(sample, column) as real / |sample| as real)
  }

  function Scores(width: nat, sample: seq<Row>): (r: seq<Option<real>>)
    ensures |r| == width && forall c :: 0 <= c < width ==> r[c] == StateScore(sample, c)
  {
    seq(width, c requires 0 <= c < width => StateScore(sample, c))
  }

  /** The running best of the heuristic loop, from column `i` on; a NaN score never wins. */
  function BestFrom(scores: seq<Option<real>>, i: nat, best: Option<nat>, score: real): Option<nat>
    requires i <= |scores|
    decreases |scores| - i
  {
    if i == |scores| then best
    else if scores[i].Some? && scores[i].value > score then BestFrom(scores, i + 1, Some(i), scores[i].value)
    else BestFrom(scores, i + 1, best, score)
  }

  /** The column with the strictly highest score, the earliest on ties. */
  ghost predicate IsBestScore(scores: seq<Option<real>>, k: nat) {
    k < |scores| && scores[k].Some?
    && (forall j :: 0 <= j < |scores| && scores[j].Some? ==> scores[j].value <= scores[k].value)
    && (forall j :: 0 <= j < k && scores[j].Some? ==> scores[j].value < scores[k].value)
  }

  lemma {:induction false} BestFromSome(scores: seq<Option<real>>, i: nat, b: nat, score: real)
    requires b < i <= |scores| && scores[b] == Some(score)
    requires forall j :: 0 <= j < i && scores[j].Some? ==> scores[j].value <= score
    requires forall j :: 0 <= j < b && scores[j].Some? ==> scores[j].value < score
    ensures BestFrom(scores, i, Some(b), score).Some?
    ensures IsBestScore(scores, BestFrom(scores, i, Some(b), score).value)
    decreases |scores| - i
  {
    if i < |scores| {
      if scores[i].Some? && scores[i].value > score {
        BestFromSome(scores, i + 1, i, scores[i].value);
      } else {
        BestFromSome(scores, i + 1, b, score);
      }
    }
  }

  lemma {:induction false} BestFromNone(scores: seq<Option<real>>, i: nat)
    requires i <= |scores| && forall j :: i <= j < |scores| ==> scores[j].None?
    ensures BestFrom(scores, i, None, -1.0) == None
    decreases |scores| - i
  {
    if i < |scores| {
      BestFromNone(scores, i + 1);
    }
  }

  /**
   * With a non-empty sample every score is a ratio in [0, 1], above the initial -1, so the
   * heuristic returns the strictly highest-scoring column, the earliest on ties; with an
   * empty sample every score is NaN and no column is returned.
   */
  lemma {:induction false} BestScoreCharacterised(width: nat, sample: seq<Row>)
    ensures var r := BestFrom(Scores(width, sample), 0, None, -1.0);
      (r.Some? <==> width > 0 && |sample| > 0) && (r.Some? ==> IsBestScore(Scores(width, sample), r.value))
  {
    var scores := Scores(width, sample);
    if width > 0 && |sample| > 0 {
      var s0 := scores[0].value;
      assert s0 > -1.0;
      BestFromSome(scores, 1, 0, s0);
    } else {
      BestFromNone(scores, 0);
    }
  }

  /** What `pick_state_col` returns for a header and the first chunk. */
  function StateColumnSpec(columns: seq<string>, rows: seq<Row>): (r: Option<nat>)
  {
    match FirstMatchSpec(StatePatterns, columns)
    case Some(c) => Some(c)
    case None => BestFrom(Scores(|columns|, Head(rows, StateSampleRows)), 0, None, -1.0)
  }

  /** The heuristic loop of `pick_state_col`, over the columns with a running best and score. */
  method BestStateColumn(width: nat, sample: seq<Row>) returns (best: Option<nat>)
    ensures best == BestFrom(Scores(width, sample), 0, None, -1.0)
    ensures best.Some? <==> width > 0 && |sample| > 0
    ensures best.Some? ==> IsBestScore(Scores(width, sample), best.value)
  {
    var score: real := -1.0;
    best := None;
    var c := 0;
    while c < width
      invariant 0 <= c <= width
      invariant BestFrom(Scores(width, sample), 0, None, -1.0) == BestFrom(Scores(width, sample), c, best, score)
    {
      var sc := StateScore(sample, c);
      if sc.Some? && sc.value > score {
        score, best := sc.value, Some(c);
      }
      c := c + 1;
    }
    BestScoreCharacterised(width, sample);
  }

  /**
   * `pick_state_col`: the first column named like a state if any; otherwise the column whose
   * sample looks most like state codes.
   */
  method PickStateColumn(columns: seq<string>, rows: seq<Row>) returns (r: Option<nat>)
    ensures r == StateColumnSpec(columns, rows)
    ensures r.Some? ==> r.value < |columns|
    ensures FirstMatchSpec(StatePatterns, columns).Some? ==> IsFirstMatch(StatePatterns, columns, r.value)
    ensures FirstMatchSpec(StatePatterns, columns).None? ==>
      (r.Some? <==> |columns| > 0 && |rows| > 0)
      && (r.Some? ==> IsBestScore(Scores(|columns|, Head(rows, StateSampleRows)), r.value))
  {
    FirstMatchSome(StatePatterns, columns);
    FirstMatchNone(StatePatterns, columns);
    r := FirstMatch(StatePatterns, columns);
    if r.None? {
      r := BestStateColumn(|columns|, Head(rows, StateSampleRows));
    }
  }

  // ------------------------------------------------------------------ amounts

  /** Removes every `,` and `$`. */
  function StripMoney(s: string): (r: string)
    ensures ',' !in r && '$' !in r
    ensures forall c :: c in r ==> c in s
    ensures (',' !in s && '$' !in s) ==> r == s
  {
    if s == [] then []
    else (if s[0] == ',' || s[0] == '$' then [] else [s[0]]) + StripMoney(s[1..])
  }

  /**
   * `coerce_amount` on one cell: strip `,` and `$`, read a number, and keep it only inside
   * the sanity range. A missing cell becomes the text "nan", which is no number.
   */
  function CoerceAmount(c: Cell): (r: Option<real>)
    ensures r.Some? ==> MinAmount <= r.value <= MaxAmount
    ensures r.Some? <==> (c.Value? && ParseDecimal(StripMoney(c.s)).Some?
                          && MinAmount <= ParseDecimal(StripMoney(c.s)).value <= MaxAmount)
    ensures r.Some? ==> r == ParseDecimal(StripMoney(c.s))
  {
    match c
    case Missing => None
    case Value(s) =>
      match ParseDecimal(StripMoney(s))
      case Some(v) => if MinAmount <= v <= MaxAmount then Some(v) else None
      case None => None
  }

  /** The amount a row contributes to its group sum: pandas' sum skips missing values. */
  function AmountOf(row: Row, amount: nat): real {
    match CoerceAmount(CellAt(row, amount))
    case Some(v) => v
    case None => 0.0
  }

  /** Each row's grouping key and amount. */
  function KeyedAmounts(rows: seq<Row>, key: nat, amount: nat): (r: seq<(Cell, real)>)
    ensures |r| == |rows| && forall i :: 0 <= i < |rows| ==> r[i] == (CellAt(rows[i], key), AmountOf(rows[i], amount))
  {
    seq(|rows|, i requires 0 <= i < |rows| => (CellAt(rows[i], key), AmountOf(rows[i], amount)))
  }

  /** `df.groupby(key, dropna=False)[amount].sum()`, with missing keys forming one group. */
  function GroupSums(rows: seq<Row>, key: nat, amount: nat): (g: map<Cell, real>)
  {
    Maps.SumByKey(KeyedAmounts(rows, key, amount))
  }

  /** The groups are exactly the key values that occur, a missing key included. */
  lemma GroupSumsKeys(rows: seq<Row>, key: nat, amount: nat, k: Cell)
    ensures k in GroupSums(rows, key, amount) <==> exists i :: 0 <= i < |rows| && CellAt(rows[i], key) == k
  {
    var pairs := KeyedAmounts(rows, key, amount);
    Maps.SumByKeyAt(pairs, k);
    if exists i :: 0 <= i < |rows| && CellAt(rows[i], key) == k {
      var i :| 0 <= i < |rows| && CellAt(rows[i], key) == k;
      assert pairs[i].0 == k;
    }
  }

  /** Summing two blocks of rows separately and adding the sums is summing them together. */
  lemma GroupSumsAppend(a: seq<Row>, b: seq<Row>, key: nat, amount: nat)
    ensures GroupSums(a + b, key, amount) == Maps.AddTotals(GroupSums(a, key, amount), GroupSums(b, key, amount))
  {
    assert KeyedAmounts(a + b, key, amount) == KeyedAmounts(a, key, amount) + KeyedAmounts(b, key, amount);
    Maps.SumByKeyAppend(KeyedAmounts(a, key, amount), KeyedAmounts(b, key, amount));
  }

  // ------------------------------------------------------------------ the rollup

  /** Which columns the first chunk chose; None stands for a column the picker did not find. */
  datatype Selection = Selection(amount: Option<nat>, state: Option<nat>, name: Option<nat>)

  /** The state of the per-file accumulators: the row count and the two rollups. */
  datatype Totals = Totals(rows: nat, byState: map<Cell, real>, byName: map<Cell, real>)

  /**
   * `add_rollups` on the accumulators: the rows always count; without an amount column
   * nothing else happens; otherwise each present grouping column adds its chunk's group sums.
   */
  function AddChunk(t: Totals, chunk: seq<Row>, sel: Selection): Totals {
    Totals(t.rows + |chunk|,
      if sel.amount.Some? && sel.state.Some?
        then Maps.AddTotals(t.byState, GroupSums(chunk, sel.state.value, sel.amount.value)) else t.byState,
      if sel.amount.Some? && sel.name.Some?
        then Maps.AddTotals(t.byName, GroupSums(chunk, sel.name.value, sel.amount.value)) else t.byName)
  }

  /** The accumulators after adding the chunks in order, from zero. */
  function RollupOf(chunks: seq<seq<Row>>, sel: Selection): Totals
    decreases |chunks|
  {
    if chunks == [] then Totals(0, map[], map[])
    else AddChunk(RollupOf(chunks[..|chunks| - 1], sel), chunks[|chunks| - 1], sel)
  }

  /** The per-file accumulators of `process_file`. */
  class Rollup {
    var rows: nat
    var byState: map<Cell, real>
    var byName: map<Cell, real>

    function Snapshot(): Totals
      reads this
    {
      Totals(rows, byState, byName)
    }

    constructor ()
      ensures Snapshot() == Totals(0, map[], map[])
    {
      rows := 0;
      byState := map[];
      byName := map[];
    }

    /** `add_rollups`, adding each group's sum into the running dictionaries key by key. */
    method AddRollups(chunk: seq<Row>, sel: Selection)
      modifies this
      ensures rows == old(rows) + |chunk|
      ensures byState == if sel.amount.Some? && sel.state.Some?
        then Maps.AddTotals(old(byState), GroupSums(chunk, sel.state.value, sel.amount.value)) else old(byState)
      ensures byName == if sel.amount.Some? && sel.name.Some?
        then Maps.AddTotals(old(byName), GroupSums(chunk, sel.name.value, sel.amount.value)) else old(byName)
      ensures Snapshot() == AddChunk(old(Snapshot()), chunk, sel)
    {
      rows := rows + |chunk|;
      if sel.amount.None? {
        return;
      }
      if sel.state.Some? {
        byState := Maps.AddInto(byState, GroupSums(chunk, sel.state.value, sel.amount.value));
      }
      if sel.name.Some? {
        byName := Maps.AddInto(byName, GroupSums(chunk, sel.name.value, sel.amount.value));
      }
    }
  }

  function Flatten(chunks: seq<seq<Row>>): seq<Row>
    decreases |chunks|
  {
    if chunks == [] then [] else Flatten(chunks[..|chunks| - 1]) + chunks[|chunks| - 1]
  }

  /**
   * Accumulating chunk by chunk gives the row count and the group sums of all rows of the
   * file together; a rollup whose columns were not found stays empty.
   */
  lemma {:induction false} RollupOfFlatten(chunks: seq<seq<Row>>, sel: Selection)
    ensures RollupOf(chunks, sel).rows == |Flatten(chunks)|
    ensures RollupOf(chunks, sel).byState ==
      if sel.amount.Some? && sel.state.Some? then GroupSums(Flatten(chunks), sel.state.value, sel.amount.value) else map[]
    ensures RollupOf(chunks, sel).byName ==
      if sel.amount.Some? && sel.name.Some? then GroupSums(Flatten(chunks), sel.name.value, sel.amount.value) else map[]
    decreases |chunks|
  {
    if chunks != [] {
      var init := chunks[..|chunks| - 1];
      var last := chunks[|chunks| - 1];
      RollupOfFlatten(init, sel);
      if sel.amount.Some? && sel.state.Some? {
        GroupSumsAppend(Flatten(init), last, sel.state.value, sel.amount.value);
      }
      if sel.amount.Some? && sel.name.Some? {
        GroupSumsAppend(Flatten(init), last, sel.name.value, sel.amount.value);
      }
    }
  }

  lemma {:induction false} FlattenCons(c: seq<Row>, rest: seq<seq<Row>>)
    ensures Flatten([c] + rest) == c + Flatten(rest)
    decreases |rest|
  {
    if rest == [] {
      assert [c] + rest == [c];
      assert [c][..0] == [];
    } else {
      var all := [c] + rest;
      assert all[..|all| - 1] == [c] + rest[..|rest| - 1];
      FlattenCons(c, rest[..|rest| - 1]);
    }
  }

  /** Adding one chunk in front of others adds its rows and its group sums. */
  lemma RollupOfCons(c: seq<Row>, rest: seq<seq<Row>>, sel: Selection)
    ensures RollupOf([c] + rest, sel) == AddChunk(RollupOf(rest, sel), c, sel)
  {
    RollupOfFlatten([c] + rest, sel);
    RollupOfFlatten(rest, sel);
    FlattenCons(c, rest);
    if sel.amount.Some? && sel.state.Some? {
      GroupSumsAppend(c, Flatten(rest), sel.state.value, sel.amount.value);
      Maps.AddTotalsCommutes(GroupSums(c, sel.state.value, sel.amount.value), GroupSums(Flatten(rest), sel.state.value, sel.amount.value));
    }
    if sel.amount.Some? && sel.name.Some? {
      GroupSumsAppend(c, Flatten(rest), sel.name.value, sel.amount.value);
      Maps.AddTotalsCommutes(GroupSums(c, sel.name.value, sel.amount.value), GroupSums(Flatten(rest), sel.name.value, sel.amount.value));
    }
  }

  // ------------------------------------------------------------------ one file

  /** A parsed bulk file: its header and its chunks of rows. */
  datatype Table = Table(header: seq<string>, chunks: seq<seq<Row>>)

  /** A bulk file: its path, the first bytes sampled for the delimiter, and its parse (None when reading failed). */
  datatype FecFile = FecFile(path: string, sample: string, table: Option<Table>)

  /** The inventory row of a file; a column the picker did not find is None (`str(None)`). */
  datatype FileMeta = FileMeta(file: string, rows: nat, amountCol: Option<string>, stateCol: Option<string>,
                               nameCol: Option<string>, delimiter: char)

  datatype FileReport = FileReport(meta: FileMeta, byState: map<Cell, real>, byName: map<Cell, real>)

  function ColumnName(header: seq<string>, c: Option<nat>): Option<string> {
    if c.Some? && c.value < |header| then Some(header[c.value]) else None
  }

  function SelectColumns(header: seq<string>, first: seq<Row>): (sel: Selection) {
    Selection(FirstMatchSpec(AmountPatterns, header), StateColumnSpec(header, first), FirstMatchSpec(NamePatterns, header))
  }

  function StripChunks(chunks: seq<seq<Row>>): (r: seq<seq<Row>>)
    ensures |r| == |chunks| && forall i :: 0 <= i < |chunks| ==> r[i] == StripRows(chunks[i])
  {
    seq(|chunks|, i requires 0 <= i < |chunks| => StripRows(chunks[i]))
  }

  function MakeReport(f: FecFile, header: seq<string>, sel: Selection, t: Totals): FileReport {
    FileReport(
      FileMeta(f.path, t.rows, ColumnName(header, sel.amount), ColumnName(header, sel.state),
               ColumnName(header, sel.name), SniffDelimiter(f.sample)),
      t.byState, t.byName)
  }

  /**
   * What processing a file yields, each chunk counted once. A file that cannot be read, or
   * has no chunk, raises.
   */
  function Report(f: FecFile): Result<FileReport, string> {
    if f.table.None? || f.table.value.chunks == [] then Failure("cannot read " + f.path)
    else
      var chunks := StripChunks(f.table.value.chunks);
      var sel := SelectColumns(f.table.value.header, chunks[0]);
      Success(MakeReport(f, f.table.value.header, sel, RollupOf(chunks, sel)))
  }

  /** The same, as the source computes it: the first chunk is added once more. */
  function ReportAsWritten(f: FecFile): Result<FileReport, string> {
    if f.table.None? || f.table.value.chunks == [] then Failure("cannot read " + f.path)
    else
      var chunks := StripChunks(f.table.value.chunks);
      var sel := SelectColumns(f.table.value.header, chunks[0]);
      Success(MakeReport(f, f.table.value.header, sel, RollupOf([chunks[0]] + chunks, sel)))
  }

  /** Shared by both versions: pick the columns from the stripped first chunk. */
  method SelectColumnsOf(header: seq<string>, first: seq<Row>) returns (sel: Selection)
    ensures sel == SelectColumns(header, first)
  {
    var amount := PickAmountColumn(header);
    var state := PickStateColumn(header, first);
    var name := PickNameColumn(header);
    sel := Selection(amount, state, name);
  }

  /** Adds `chunks[from..]` into the accumulators, in order. */
  method AddChunks(roll: Rollup, chunks: seq<seq<Row>>, from: nat, sel: Selection)
    requires from <= |chunks|
    requires roll.Snapshot() == RollupOf(chunks[..from], sel)
    modifies roll
    ensures roll.Snapshot() == RollupOf(chunks, sel)
  {
    var i := from;
    while i < |chunks|
      invariant from <= i <= |chunks|
      invariant roll.Snapshot() == RollupOf(chunks[..i], sel)
    {
      assert chunks[..i + 1][..i] == chunks[..i];
      roll.AddRollups(chunks[i], sel);
      i := i + 1;
    }
    assert chunks[..i] == chunks;
  }

  /**
   * `process_file`, as intended: prime the columns on the first chunk, roll it up, then roll
   * up the remaining chunks.
   */
  method ProcessFile(f: FecFile) returns (r: Result<FileReport, string>)
    ensures r == Report(f)
  {
    if f.table.None? || f.table.value.chunks == [] {
      return Failure("cannot read " + f.path);
    }
    var header := f.table.value.header;
    var chunks := StripChunks(f.table.value.chunks);
    var sel := SelectColumnsOf(header, chunks[0]);
    var roll := new Rollup();
    roll.AddRollups(chunks[0], sel);
    assert chunks[..1][..0] == [];
    AddChunks(roll, chunks, 1, sel);
    r := Success(MakeReport(f, header, sel, roll.Snapshot()));
  }

  /** `process_file` as written: after the first chunk, the loop reads every chunk again. */
  method ProcessFileAsWritten(f: FecFile) returns (r: Result<FileReport, string>)
    ensures r == ReportAsWritten(f)
  {
    if f.table.None? || f.table.value.chunks == [] {
      return Failure("cannot read " + f.path);
    }
    var header := f.table.value.header;
    var chunks := StripChunks(f.table.value.chunks);
    var sel := SelectColumnsOf(header, chunks[0]);
    var roll := new Rollup();
    roll.AddRollups(chunks[0], sel);
    var all := [chunks[0]] + chunks;
    assert all[..1][..0] == [];
    AddChunks(roll, all, 1, sel);
    r := Success(MakeReport(f, header, sel, roll.Snapshot()));
  }

  /** Each intended rollup holds the group sums of all rows of the file, each row once. */
  lemma ReportSumsEachRowOnce(f: FecFile)
    requires Report(f).Success?
    ensures var r := Report(f).value;
      var chunks := StripChunks(f.table.value.chunks);
      var sel := SelectColumns(f.table.value.header, chunks[0]);
      r.meta.rows == |Flatten(chunks)|
      && (sel.amount.Some? && sel.state.Some? ==> r.byState == GroupSums(Flatten(chunks), sel.state.value, sel.amount.value))
      && (sel.amount.Some? && sel.name.Some? ==> r.byName == GroupSums(Flatten(chunks), sel.name.value, sel.amount.value))
  {
    var chunks := StripChunks(f.table.value.chunks);
    RollupOfFlatten(chunks, SelectColumns(f.table.value.header, chunks[0]));
  }

  /**
   * As written, the first chunk is counted twice: its rows once more in the row count, and
   * its group sums once more in each rollup.
   */
  lemma AsWrittenCountsFirstChunkTwice(f: FecFile)
    requires Report(f).Success?
    ensures ReportAsWritten(f).Success?
    ensures var chunks := StripChunks(f.table.value.chunks);
      var sel := SelectColumns(f.table.value.header, chunks[0]);
      var t := Totals(Report(f).value.meta.rows, Report(f).value.byState, Report(f).value.byName);
      var u := AddChunk(t, chunks[0], sel);
      ReportAsWritten(f).value == Report(f).value.(meta := Report(f).value.meta.(rows := u.rows), byState := u.byState, byName := u.byName)
  {
    var chunks := StripChunks(f.table.value.chunks);
    RollupOfCons(chunks[0], chunks, SelectColumns(f.table.value.header, chunks[0]));
  }

  /** A file of one CA row of 5 dollars. */
  const OneRowFile := FecFile("a.txt", "STATE|AMOUNT", Some(Table(["STATE", "AMOUNT"], [[[Value("CA"), Value("5")]]])))

  /** Intended, the one-row file reports one row. */
  lemma OneRowExample()
    ensures Report(OneRowFile).Success? && Report(OneRowFile).value.meta.rows == 1
  {
    var f := OneRowFile;
    var chunks := StripChunks(f.table.value.chunks);
    var sel := SelectColumns(f.table.value.header, chunks[0]);
    assert chunks[..0] == [];
    assert RollupOf(chunks, sel).rows == 1;
  }

  /** As written, the one-row file reports two rows. */
  lemma AsWrittenExample()
    ensures ReportAsWritten(OneRowFile).Success? && ReportAsWritten(OneRowFile).value.meta.rows == 2
  {
    OneRowExample();
    AsWrittenCountsFirstChunkTwice(OneRowFile);
  }

  // ------------------------------------------------------------------ all files

  /** The files whose processing succeeded, with their reports, in order. */
  function Reports(files: seq<FecFile>): (r: seq<FileReport>)
    ensures |r| <= |files|
    decreases |files|
  {
    if files == [] then []
    else
      var init := Reports(files[..|files| - 1]);
      match Report(files[|files| - 1])
      case Success(rep) => init + [rep]
      case Failure(_) => init
  }

  function Metas(reports: seq<FileReport>): (r: seq<FileMeta>)
    ensures |r| == |reports| && forall i :: 0 <= i < |reports| ==> r[i] == reports[i].meta
  {
    seq(|reports|, i requires 0 <= i < |reports| => reports[i].meta)
  }

  function StateTotals(reports: seq<FileReport>): map<Cell, real>
    decreases |reports|
  {
    if reports == [] then map[] else Maps.AddTotals(StateTotals(reports[..|reports| - 1]), reports[|reports| - 1].byState)
  }

  function NameTotals(reports: seq<FileReport>): map<Cell, real>
    decreases |reports|
  {
    if reports == [] then map[] else Maps.AddTotals(NameTotals(reports[..|reports| - 1]), reports[|reports| - 1].byName)
  }

  /** A key's share of one rollup, summed over the reports. */
  function SumAt(reports: seq<FileReport>, k: Cell): real
    decreases |reports|
  {
    if reports == [] then 0.0 else SumAt(reports[..|reports| - 1], k) + Maps.Get(reports[|reports| - 1].byState, k, 0.0)
  }

  /** The grand state total of a key is the sum of that key over the successfully processed files. */
  lemma {:induction false} StateTotalsAt(reports: seq<FileReport>, k: Cell)
    ensures Maps.Get(StateTotals(reports), k, 0.0) == SumAt(reports, k)
    ensures k in StateTotals(reports) <==> exists i :: 0 <= i < |reports| && k in reports[i].byState
    decreases |reports|
  {
    if reports != [] {
      var init := reports[..|reports| - 1];
      StateTotalsAt(init, k);
      if k in reports[|reports| - 1].byState {
        assert k in reports[|reports| - 1].byState;
      }
      if exists i :: 0 <= i < |reports| && k in reports[i].byState {
        var i :| 0 <= i < |reports| && k in reports[i].byState;
        if i < |init| { assert init[i] == reports[i]; }
      }
    }
  }

  /**
   * `main`: process every file; a file that raises is reported and contributes neither totals
   * nor an inventory row; the others add their rollups into the grand totals.
   */
  method RunAnalysis(files: seq<FecFile>) returns (inventory: seq<FileMeta>, grandState: map<Cell, real>, grandName: map<Cell, real>)
    ensures inventory == Metas(Reports(files))
    ensures grandState == StateTotals(Reports(files))
    ensures grandName == NameTotals(Reports(files))
  {
    inventory, grandState, grandName := [], map[], map[];
    ghost var done: seq<FileReport> := [];
    var i := 0;
    while i < |files|
      invariant 0 <= i <= |files|
      invariant done == Reports(files[..i])
      invariant inventory == Metas(done)
      invariant grandState == StateTotals(done)
      invariant grandName == NameTotals(done)
    {
      assert files[..i + 1][..i] == files[..i];
      var r := ProcessFile(files[i]);
      if r.Success? {
        inventory := inventory + [r.value.meta];
        grandState := Maps.AddInto(grandState, r.value.byState);
        grandName := Maps.AddInto(grandName, r.value.byName);
        assert (done + [r.value])[..|done|] == done;
        done := done + [r.value];
      }
      i := i + 1;
    }
    assert files[..i] == files;
  }
}
