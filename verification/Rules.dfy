/**
  The rule engine (packages/core/docfactory_core/pipeline.py): document-level
  rules over a normalized record, and the per-row product check.  Sums and
  products are exact.
 */
module Rules {
  import opened Common
  import opened Text
  import opened Decimals
  import opened Normalize
  import opened Canonical

  type Record = map<string, Canonical.Value>

  datatype Rule =
    | SumEquals(items: string, column: string, target: string, tolerance: real)
    | TermsEqual(terms: seq<string>, target: string, tolerance: real)
    | ProductEquals(left: string, right: string, result: string, tolerance: real)
    | RowProduct(items: string, left: string, right: string, result: string, tolerance: real)
    | DateOrder(earlier: string, later: string)
    | Regex(field: string, matches: Canonical.Value -> bool)   // on the text of a value
    | Required(names: seq<string>)

  // --- readings ----------------------------------------------------------------------

  /** The number a value stands for; None where reading it raises. */
  function Reading(v: Canonical.Value): Option<real>
  {
    match v
    case Number(d) => Some(Decimals.Value(d))
    case Words(text) =>
      var d := NormalizeAmount(text);
      if d.None? then None else Some(Decimals.Value(d.value))
    case _ => None
  }

  function At(record: Record, name: string): Option<real>
  {
    if name in record then Reading(record[name]) else None
  }

  function Plus(a: Option<real>, b: Option<real>): Option<real>
  {
    if a.Some? && b.Some? then Some(a.value + b.value) else None
  }

  function Minus(a: Option<real>, b: Option<real>): Option<real>
  {
    if a.Some? && b.Some? then Some(a.value - b.value) else None
  }

  function Times(a: Option<real>, b: Option<real>): Option<real>
  {
    if a.Some? && b.Some? then Some(a.value * b.value) else None
  }

  function Total(xs: seq<Option<real>>): Option<real>
  {
    if xs == [] then Some(0.0) else Plus(Total(xs[..|xs| - 1]), xs[|xs| - 1])
  }

  predicate Within(x: Option<real>, tolerance: real)
  {
    x.Some? && -tolerance <= x.value <= tolerance
  }

  /** The elements of `record.get(items) or []`: None for one that is no row, nothing at all where iterating raises. */
  function Iterated(record: Record, items: string): Option<seq<Option<Row>>>
  {
    if items !in record then Some([])
    else match record[items]
      case Missing => Some([])
      case Rows(rows) => Some(seq(|rows|, i requires 0 <= i < |rows| => Some(rows[i])))
      case Words(text) => Some(seq(|text|, _ => None))
      case Number(d) => if d.coeff == 0 then Some([]) else None
      case Day(_) => None
  }

  function CellAt(row: Option<Row>, column: string): Option<real>
  {
    if row.Some? && column in row.value.cells then Reading(row.value.cells[column]) else None
  }

  function Column(rows: seq<Option<Row>>, column: string): seq<Option<real>>
  {
    seq(|rows|, i requires 0 <= i < |rows| => CellAt(rows[i], column))
  }

  // --- rules -------------------------------------------------------------------------

  /** How far an arithmetic rule misses. */
  function Residual(rule: Rule, record: Record): Option<real>
    requires rule.SumEquals? || rule.TermsEqual? || rule.ProductEquals?
  {
    match rule
    case ProductEquals(left, right, result, _) => Minus(Times(At(record, left), At(record, right)), At(record, result))
    case SumEquals(items, column, target, _) =>
      var rows := Iterated(record, items);
      if rows.None? then None else Minus(Total(Column(rows.value, column)), At(record, target))
    case TermsEqual(terms, target, _) =>
      Minus(Total(seq(|terms|, i requires 0 <= i < |terms| => At(record, terms[i]))), At(record, target))
  }

  function RowMiss(rule: Rule, row: Option<Row>): Option<real>
    requires rule.RowProduct?
  {
    Minus(Times(CellAt(row, rule.left), CellAt(row, rule.right)), CellAt(row, rule.result))
  }

  /** Code point order, as Python compares strings. */
  predicate TextAtMost(a: string, b: string)
  {
    a == "" || (b != "" && (a[0] < b[0] || (a[0] == b[0] && TextAtMost(a[1..], b[1..]))))
  }

  predicate DayAtMost(a: CalendarDay, b: CalendarDay)
  {
    a.year < b.year || (a.year == b.year && (a.month < b.month || (a.month == b.month && a.day <= b.day)))
  }

  /** `b >= a`; false where the comparison raises.  Lists of rows compare only up to a common prefix. */
  predicate AtMost(a: Canonical.Value, b: Canonical.Value)
  {
    match (a, b)
    case (Day(x), Day(y)) => DayAtMost(x, y)
    case (Number(x), Number(y)) => Decimals.Value(x) <= Decimals.Value(y)
    case (Words(x), Words(y)) => TextAtMost(x, y)
    case (Rows(x), Rows(y)) => x <= y
    case _ => false
  }

  predicate Present(record: Record, name: string)
  {
    name in record && record[name] != Missing && record[name] != Words("") && record[name] != Rows([])
  }

  /** A rule that cannot be evaluated has failed. */
  predicate Evaluate(rule: Rule, record: Record)
  {
    match rule
    case SumEquals(_, _, _, tolerance) => Within(Residual(rule, record), tolerance)
    case TermsEqual(_, _, tolerance) => Within(Residual(rule, record), tolerance)
    case ProductEquals(_, _, _, tolerance) => Within(Residual(rule, record), tolerance)
    case RowProduct(items, _, _, _, tolerance) =>
      var rows := Iterated(record, items);
      rows.Some? && forall i :: 0 <= i < |rows.value| ==> Within(RowMiss(rule, rows.value[i]), tolerance)
    case DateOrder(earlier, later) => earlier in record && later in record && AtMost(record[earlier], record[later])
    case Regex(field, matches) => field in record && record[field] != Missing && matches(record[field])
    case Required(names) => forall name :: name in names ==> Present(record, name)
  }

  predicate RowFails(rule: Rule, row: Option<Row>)
    requires rule.RowProduct?
  {
    !Within(RowMiss(rule, row), rule.tolerance)
  }

  // --- what the rules say, in numbers ----------------------------------------------------

  /** The value is this number, or a text that is one. */
  predicate Amounts(v: Canonical.Value, x: real)
  {
    match v
    case Number(d) => Decimals.Value(d) == x
    case Words(text) => NormalizeAmount(text).Some? && Decimals.Value(NormalizeAmount(text).value) == x
    case _ => false
  }

  predicate Holds(record: Record, name: string, x: real)
  {
    name in record && Amounts(record[name], x)
  }

  /** The column of a table, in numbers. */
  predicate ColumnOf(rows: seq<Row>, column: string, xs: seq<real>)
  {
    |xs| == |rows| && forall i :: 0 <= i < |rows| ==> column in rows[i].cells && Amounts(rows[i].cells[column], xs[i])
  }

  function SumOf(xs: seq<real>): real
  {
    if xs == [] then 0.0 else SumOf(xs[..|xs| - 1]) + xs[|xs| - 1]
  }

  lemma {:induction false} TotalIsSum(xs: seq<Option<real>>, ys: seq<real>)
    requires |xs| == |ys| && forall i :: 0 <= i < |xs| ==> xs[i] == Some(ys[i])
    ensures Total(xs) == Some(SumOf(ys))
  {
    if xs == [] {
    } else {
      TotalIsSum(xs[..|xs| - 1], ys[..|ys| - 1]);
    }
  }

  lemma {:induction false} TotalNeedsAll(xs: seq<Option<real>>, i: nat)
    requires i < |xs| && xs[i] == None
    ensures Total(xs) == None
  {
    if i < |xs| - 1 {
      TotalNeedsAll(xs[..|xs| - 1], i);
    }
  }

  /** A sum rule holds exactly when the column adds up to the target within the tolerance. */
  lemma {:induction false} SumRuleInNumbers(rule: Rule, record: Record, rows: seq<Row>, xs: seq<real>, target: real)
    requires rule.SumEquals? && rule.items in record && record[rule.items] == Rows(rows)
    requires ColumnOf(rows, rule.column, xs) && Holds(record, rule.target, target)
    ensures Evaluate(rule, record) <==> target - rule.tolerance <= SumOf(xs) <= target + rule.tolerance
  {
    var column := Column(Iterated(record, rule.items).value, rule.column);
    assert forall i :: 0 <= i < |column| ==> column[i] == Some(xs[i]);
    TotalIsSum(column, xs);
    hide Total, SumOf, Column, Iterated;
  }

  /** One row without a readable cell, or a target that is none, and it fails. */
  lemma {:induction false} SumRuleNeedsAll(rule: Rule, record: Record, rows: seq<Row>, i: nat)
    requires rule.SumEquals? && rule.items in record && record[rule.items] == Rows(rows)
    requires rule.target !in record || record[rule.target] == Missing
      || (i < |rows| && (rule.column !in rows[i].cells || rows[i].cells[rule.column] == Missing))
    ensures !Evaluate(rule, record)
  {
    var column := Column(Iterated(record, rule.items).value, rule.column);
    if i < |rows| && (rule.column !in rows[i].cells || rows[i].cells[rule.column] == Missing) {
      assert column[i] == None;
      TotalNeedsAll(column, i);
    }
    hide Total;
  }

  lemma {:induction false} TermsRuleInNumbers(rule: Rule, record: Record, xs: seq<real>, target: real)
    requires rule.TermsEqual? && |xs| == |rule.terms|
    requires (forall i :: 0 <= i < |xs| ==> Holds(record, rule.terms[i], xs[i])) && Holds(record, rule.target, target)
    ensures Evaluate(rule, record) <==> target - rule.tolerance <= SumOf(xs) <= target + rule.tolerance
  {
    var terms := seq(|rule.terms|, i requires 0 <= i < |rule.terms| => At(record, rule.terms[i]));
    assert forall i :: 0 <= i < |terms| ==> Holds(record, rule.terms[i], xs[i]) && terms[i] == Some(xs[i]);
    TotalIsSum(terms, xs);
    hide Total, SumOf;
  }

  lemma AmountsAreRead(v: Canonical.Value, x: real)
    requires Amounts(v, x)
    ensures Reading(v) == Some(x)
  {
    hide Decimals.Value, NormalizeAmount;
  }

  /** The miss of a product, against the tolerance. */
  lemma ProductWithin(left: Option<real>, right: Option<real>, result: Option<real>, product: real, c: real,
                      tolerance: real)
    requires left.Some? && right.Some? && left.value * right.value == product && result == Some(c)
    ensures Within(Minus(Times(left, right), result), tolerance) <==> c - tolerance <= product <= c + tolerance
  {
    assert Times(left, right) == Some(product);
  }

  lemma ProductRuleInNumbers(rule: Rule, record: Record, left: real, right: real, result: real)
    requires rule.ProductEquals?
    requires Holds(record, rule.left, left) && Holds(record, rule.right, right) && Holds(record, rule.result, result)
    ensures Evaluate(rule, record) <==> result - rule.tolerance <= left * right <= result + rule.tolerance
  {
    hide Reading, Amounts, Within, Minus, Times;
    AmountsAreRead(record[rule.left], left);
    AmountsAreRead(record[rule.right], right);
    AmountsAreRead(record[rule.result], result);
    ProductWithin(At(record, rule.left), At(record, rule.right), At(record, rule.result),
                  left * right, result, rule.tolerance);
  }

  /** A row fails a row rule exactly when its product misses its result by more than the tolerance. */
  lemma RowRuleInNumbers(rule: Rule, row: Row, left: real, right: real, result: real)
    requires rule.RowProduct? && rule.left in row.cells && rule.right in row.cells && rule.result in row.cells
    requires Amounts(row.cells[rule.left], left) && Amounts(row.cells[rule.right], right)
    requires Amounts(row.cells[rule.result], result)
    ensures RowFails(rule, Some(row)) <==> !(result - rule.tolerance <= left * right <= result + rule.tolerance)
  {
    hide Reading, Amounts, Within, Minus, Times;
    AmountsAreRead(row.cells[rule.left], left);
    AmountsAreRead(row.cells[rule.right], right);
    AmountsAreRead(row.cells[rule.result], result);
    ProductWithin(CellAt(Some(row), rule.left), CellAt(Some(row), rule.right), CellAt(Some(row), rule.result),
                  left * right, result, rule.tolerance);
  }

  /** Numbers are compared by value, however they are written; unlike kinds are not comparable at all. */
  lemma NumberOrder(rule: Rule, record: Record, a: Dec, b: Dec)
    requires rule.DateOrder? && rule.earlier in record && rule.later in record && record[rule.earlier] == Number(a)
    ensures record[rule.later] == Number(b) ==> (Evaluate(rule, record) <==> Decimals.Value(b) - Decimals.Value(a) >= 0.0)
    ensures !record[rule.later].Number? ==> !Evaluate(rule, record)
  {
    hide Decimals.Value;
  }

  /**
    A table field that is no table: nothing and zero have no rows, another number
    cannot be added up, a text has unreadable ones.
   */
  lemma {:induction false} SumOfNoTable(rule: Rule, record: Record, target: real)
    requires rule.SumEquals? && Holds(record, rule.target, target)
    ensures rule.items !in record || record[rule.items] == Missing || record[rule.items] == Number(Dec(false, 0, 0)) ==>
      (Evaluate(rule, record) <==> -rule.tolerance <= target <= rule.tolerance)
    ensures rule.items in record && record[rule.items].Number? && record[rule.items].d.coeff != 0 ==>
      !Evaluate(rule, record)
    ensures rule.items in record && record[rule.items].Words? && record[rule.items].text != "" ==>
      !Evaluate(rule, record)
  {
    AmountsAreRead(record[rule.target], target);
    var rows := Iterated(record, rule.items);
    if rows.Some? && rows.value == [] {
      assert Column([], rule.column) == [];
    }
    if rows.Some? && rows.value != [] && rule.items in record && record[rule.items].Words? {
      assert Column(rows.value, rule.column)[0] == None;
      TotalNeedsAll(Column(rows.value, rule.column), 0);
    }
    hide Reading, Amounts;
  }

  /** A row rule on a field that cannot be iterated fails; on one without rows it holds. */
  lemma {:induction false} RowRuleNeedsTable(rule: Rule, record: Record)
    requires rule.RowProduct?
    ensures rule.items in record ==>
      var v := record[rule.items];
      v.Day? || (v.Number? && v.d.coeff != 0) ==> !Evaluate(rule, record)
    ensures rule.items !in record || record[rule.items] == Missing || record[rule.items] == Rows([]) ==>
      Evaluate(rule, record)
  {
  }

  /** A pattern rule reads the one field, and fails where there is nothing to match. */
  lemma PatternRuleMeans(rule: Rule, record: Record)
    requires rule.Regex?
    ensures rule.field !in record || record[rule.field] == Missing ==> !Evaluate(rule, record)
    ensures rule.field in record && record[rule.field] != Missing ==>
      (Evaluate(rule, record) <==> rule.matches(record[rule.field]))
  {
  }

  /** Texts are ordered by the first character they differ in, a prefix before the longer text. */
  lemma {:induction false} TextOrder(prefix: string, a: string, b: string)
    ensures TextAtMost(prefix, prefix + b)
    ensures b != "" ==> !TextAtMost(prefix + b, prefix)
    ensures a != "" && b != "" && a[0] != b[0] ==> (TextAtMost(prefix + a, prefix + b) <==> a[0] < b[0])
  {
    if prefix == "" {
      assert prefix + a == a && prefix + b == b;
    } else {
      TextOrder(prefix[1..], a, b);
      assert (prefix + a)[1..] == prefix[1..] + a && (prefix + b)[1..] == prefix[1..] + b;
    }
  }

  /** Of the same length, and smaller where they first differ. */
  ghost predicate FirstDiffers(s: string, t: string)
  {
    |s| == |t| && exists i :: 0 <= i < |s| && s[..i] == t[..i] && s[i] < t[i]
  }

  lemma {:induction false} DiffersDecides(s: string, t: string)
    requires FirstDiffers(s, t)
    ensures TextAtMost(s, t) && !TextAtMost(t, s)
  {
    var i :| 0 <= i < |s| && s[..i] == t[..i] && s[i] < t[i];
    assert s == s[..i] + s[i..] && t == s[..i] + t[i..];
    TextOrder(s[..i], s[i..], t[i..]);
    TextOrder(s[..i], t[i..], s[i..]);
  }

  lemma {:induction false} DiffersInside(p: string, s: string, t: string, x: string, y: string)
    requires FirstDiffers(s, t) && |x| == |y|
    ensures FirstDiffers(p + s + x, p + t + y)
  {
    var i :| 0 <= i < |s| && s[..i] == t[..i] && s[i] < t[i];
    var j, a, b := |p| + i, p + s + x, p + t + y;
    assert a[..j] == p + s[..i] && b[..j] == p + t[..i] && a[j] == s[i] && b[j] == t[i];
  }

  /** n has no more than `width` digits. */
  predicate Fits(n: nat, width: nat)
  {
    if width == 0 then n == 0 else Fits(n / 10, width - 1)
  }

  lemma {:induction false} PadOrder(a: nat, b: nat, width: nat)
    requires a < b && Fits(b, width)
    ensures FirstDiffers(Pad(a, width), Pad(b, width))
  {
    var s, t := Pad(a / 10, width - 1), Pad(b / 10, width - 1);
    if a / 10 < b / 10 {
      PadOrder(a / 10, b / 10, width - 1);
      DiffersInside("", s, t, [Digit(a % 10)], [Digit(b % 10)]);
      assert "" + s == s && "" + t == t;
    } else {
      assert Pad(a, width)[..width - 1] == s == t == Pad(b, width)[..width - 1];
    }
  }

  lemma {:induction false} FitsTwoAndFour(n: nat)
    ensures n < 100 ==> Fits(n, 2)
    ensures n < 10000 ==> Fits(n, 4)
  {
    var tens, hundreds, thousands := n / 10, n / 10 / 10, n / 10 / 10 / 10;
    assert n < 100 ==> hundreds == 0;
    assert n < 10000 ==> thousands / 10 == 0;
    assert Fits(tens, 1) == Fits(hundreds, 0) && Fits(n, 2) == Fits(tens, 1);
    assert Fits(thousands, 1) == Fits(thousands / 10, 0) && Fits(hundreds, 2) == Fits(thousands, 1);
    assert Fits(tens, 3) == Fits(hundreds, 2) && Fits(n, 4) == Fits(tens, 3);
  }

  lemma IsoPieces(y: string, m: string, d: string)
    ensures "" + y + (['-'] + m + ['-'] + d) == y + ['-'] + m + ['-'] + d
    ensures y + ['-'] + m + (['-'] + d) == y + ['-'] + m + ['-'] + d
    ensures y + ['-'] + m + ['-'] + d + "" == y + ['-'] + m + ['-'] + d
  {
  }

  lemma {:induction false} IsoBefore(a: Date, b: Date)
    requires DayAtMost(a, b) && a != b
    ensures FirstDiffers(Iso(a), Iso(b))
  {
    assert DaysIn(b.year, b.month) <= 31;
    var (y, m, d) := (Pad(a.year, 4), Pad(a.month, 2), Pad(a.day, 2));
    var (y', m', d') := (Pad(b.year, 4), Pad(b.month, 2), Pad(b.day, 2));
    FitsTwoAndFour(b.year);
    FitsTwoAndFour(b.month);
    FitsTwoAndFour(b.day);
    IsoPieces(y, m, d);
    IsoPieces(y', m', d');
    assert Iso(a) == y + ['-'] + m + ['-'] + d && Iso(b) == y' + ['-'] + m' + ['-'] + d';
    hide *;
    if a.year < b.year {
      PadOrder(a.year, b.year, 4);
      DiffersInside("", y, y', ['-'] + m + ['-'] + d, ['-'] + m' + ['-'] + d');
    } else if a.month < b.month {
      PadOrder(a.month, b.month, 2);
      DiffersInside(y + ['-'], m, m', ['-'] + d, ['-'] + d');
    } else {
      PadOrder(a.day, b.day, 2);
      DiffersInside(y + ['-'] + m + ['-'], d, d', "", "");
    }
  }

  /** ISO text orders days as the calendar does. */
  lemma {:induction false} IsoOrder(a: Date, b: Date)
    ensures TextAtMost(Iso(a), Iso(b)) <==> DayAtMost(a, b)
  {
    if a == b {
      TextOrder(Iso(a), "", "");
      assert Iso(a) + "" == Iso(a);
    } else if DayAtMost(a, b) {
      IsoBefore(a, b);
      DiffersDecides(Iso(a), Iso(b));
    } else {
      IsoBefore(b, a);
      DiffersDecides(Iso(b), Iso(a));
    }
  }

  /** A date rule, in years, months and days; it fails unless both dates are there. */
  lemma DateRuleInDays(rule: Rule, record: Record)
    requires rule.DateOrder?
    ensures rule.earlier !in record || record[rule.earlier].Missing? ==> !Evaluate(rule, record)
    ensures rule.later !in record || record[rule.later].Missing? ==> !Evaluate(rule, record)
    ensures rule.earlier in record && rule.later in record && record[rule.earlier].Day? && record[rule.later].Day? ==>
      var (a, b) := (record[rule.earlier].date, record[rule.later].date);
      (Evaluate(rule, record) <==> a.year * 10000 + a.month * 100 + a.day <= b.year * 10000 + b.month * 100 + b.day)
  {
    if rule.earlier in record && rule.later in record && record[rule.earlier].Day? && record[rule.later].Day? {
      var (a, b) := (record[rule.earlier].date, record[rule.later].date);
      assert DaysIn(a.year, a.month) <= 31 && DaysIn(b.year, b.month) <= 31;
    }
  }

  /** What counts as filled in: anything but nothing, an empty text and an empty table; a zero does. */
  lemma RequiredMeans(rule: Rule, record: Record)
    requires rule.Required?
    ensures Evaluate(rule, record) <==>
      forall name :: name in rule.names ==>
        name in record && match record[name]
                          case Missing => false
                          case Words(text) => |text| > 0
                          case Rows(rows) => |rows| > 0
                          case _ => true
  {
  }

  /** The fields a rule looks at. */
  function Reads(rule: Rule): set<string>
  {
    match rule
    case SumEquals(items, _, target, _) => {items, target}
    case TermsEqual(terms, target, _) => (set t | t in terms) + {target}
    case ProductEquals(left, right, result, _) => {left, right, result}
    case RowProduct(items, _, _, _, _) => {items}
    case DateOrder(earlier, later) => {earlier, later}
    case Regex(field, _) => {field}
    case Required(names) => set n | n in names
  }

  ghost predicate AgreeOn(a: Record, b: Record, names: set<string>)
  {
    forall n :: n in names ==> (n in a <==> n in b) && (n in a ==> a[n] == b[n])
  }

  /** A rule's verdict depends on nothing but the fields it reads. */
  lemma RuleReadsOnly(rule: Rule, a: Record, b: Record)
    requires AgreeOn(a, b, Reads(rule))
    ensures Evaluate(rule, a) == Evaluate(rule, b)
  {
    hide Reading, Total, AtMost;
    match rule
    case TermsEqual(terms, target, _) =>
      assert seq(|terms|, i requires 0 <= i < |terms| => At(a, terms[i]))
        == seq(|terms|, i requires 0 <= i < |terms| => At(b, terms[i]));
    case Required(names) =>
      assert forall n :: n in names ==> n in Reads(rule);
    case _ =>
  }

  // --- rows --------------------------------------------------------------------------

  /** Indices of the rows that miss, or cannot be evaluated, in order. */
  function BadRows(rule: Rule, rows: seq<Option<Row>>): (bad: seq<nat>)
    requires rule.RowProduct?
    ensures forall i :: i in bad ==> i < |rows|
  {
    if rows == [] then []
    else
      var last := |rows| - 1;
      BadRows(rule, rows[..last]) + if Within(RowMiss(rule, rows[last]), rule.tolerance) then [] else [last]
  }

  ghost predicate Ascending(s: seq<nat>)
  {
    forall k, l :: 0 <= k < l < |s| ==> s[k] < s[l]
  }

  /** Exactly the failing rows, each once, in order. */
  lemma {:induction false} BadRowsExact(rule: Rule, rows: seq<Option<Row>>)
    requires rule.RowProduct?
    ensures forall i :: 0 <= i < |rows| ==> (i in BadRows(rule, rows) <==> RowFails(rule, rows[i]))
    ensures Ascending(BadRows(rule, rows))
  {
    if rows == [] {
    } else {
      var before, last := rows[..|rows| - 1], |rows| - 1;
      BadRowsExact(rule, before);
      var bad, all := BadRows(rule, before), BadRows(rule, rows);
      assert all == if RowFails(rule, rows[last]) then bad + [last] else bad;
      hide RowFails, BadRows;
      AscendingAppend(bad, last);
      assert forall i :: 0 <= i < last ==> before[i] == rows[i];
    }
  }

  lemma AscendingAppend(s: seq<nat>, x: nat)
    requires Ascending(s) && forall i :: i in s ==> i < x
    ensures Ascending(s + [x])
  {
    assert forall k :: 0 <= k < |s| ==> s[k] in s;
  }

  /** Both paths to the row check agree: the rule holds exactly when no row is reported. */
  lemma {:induction false} RowRuleAgrees(rule: Rule, record: Record)
    requires rule.RowProduct? && Iterated(record, rule.items).Some?
    ensures Evaluate(rule, record) <==> BadRows(rule, Iterated(record, rule.items).value) == []
  {
    hide Within, RowMiss, BadRows;
    var rows := Iterated(record, rule.items).value;
    var bad := BadRows(rule, rows);
    BadRowsExact(rule, rows);
    if bad != [] {
      assert bad[0] in bad;
    }
  }

  /** Reported rows per table; None where iterating over a table raises. */
  function Inconsistent(record: Record, rules: seq<Rule>): Option<map<string, seq<nat>>>
  {
    if rules == [] then Some(map[])
    else
      var before, rule := Inconsistent(record, rules[..|rules| - 1]), rules[|rules| - 1];
      if before.None? || !rule.RowProduct? then before
      else
        var rows := Iterated(record, rule.items);
        if rows.None? then None else Some(before.value[rule.items := BadRows(rule, rows.value)])
  }

  method FailingRows(rule: Rule, rows: seq<Option<Row>>) returns (bad: seq<nat>)
    requires rule.RowProduct?
    ensures bad == BadRows(rule, rows)
  {
    hide Within, RowMiss;
    bad := [];
    for i := 0 to |rows|
      invariant bad == BadRows(rule, rows[..i])
    {
      assert rows[..i + 1][..i] == rows[..i];
      var miss := RowMiss(rule, rows[i]);
      if !Within(miss, rule.tolerance) {
        bad := bad + [i];
      }
    }
    assert rows[..|rows|] == rows;
  }

  method InconsistentRows(record: Record, rules: seq<Rule>) returns (out: Option<map<string, seq<nat>>>)
    ensures out == Inconsistent(record, rules)
  {
    hide BadRows, Iterated;
    var found: map<string, seq<nat>> := map[];
    for k := 0 to |rules|
      invariant Inconsistent(record, rules[..k]) == Some(found)
    {
      assert rules[..k + 1][..k] == rules[..k];
      var rule := rules[k];
      if rule.RowProduct? {
        var rows := Iterated(record, rule.items);
        if rows.None? {
          RaisesForGood(record, rules, k + 1);
          return None;
        }
        var bad := FailingRows(rule, rows.value);
        found := found[rule.items := bad];
      }
    }
    assert rules[..|rules|] == rules;
    out := Some(found);
  }

  lemma {:induction false} RaisesForGood(record: Record, rules: seq<Rule>, k: nat)
    requires k <= |rules| && Inconsistent(record, rules[..k]).None?
    ensures Inconsistent(record, rules).None?
    decreases |rules|
  {
    if k == |rules| {
      assert rules[..k] == rules;
    } else {
      assert rules[..|rules| - 1][..k] == rules[..k];
      RaisesForGood(record, rules[..|rules| - 1], k);
    }
  }

  /**
    Of several row rules on one table only the last is reported: a row that
    fails an earlier one is listed exactly when it fails the last one too.
   */
  lemma {:induction false} LastRowRuleWins(record: Record, rules: seq<Rule>, k: nat)
    requires Inconsistent(record, rules).Some? && k < |rules| && rules[k].RowProduct?
    requires forall l :: k < l < |rules| && rules[l].RowProduct? ==> rules[l].items != rules[k].items
    ensures Iterated(record, rules[k].items).Some? && rules[k].items in Inconsistent(record, rules).value
    ensures Inconsistent(record, rules).value[rules[k].items] == BadRows(rules[k], Iterated(record, rules[k].items).value)
    decreases |rules|
  {
    hide BadRows, Iterated;
    if k < |rules| - 1 {
      var before := rules[..|rules| - 1];
      assert before[k] == rules[k];
      LastRowRuleWins(record, before, k);
    }
  }

  function Whole(n: nat): Canonical.Value
  {
    Number(Dec(false, n, 0))
  }

  lemma WholeReading(n: nat)
    ensures Reading(Whole(n)) == Some(n as real)
  {
    assert TenTo(0) == 1.0;
  }

  lemma FirstMisses(row: Row, first: Rule, second: Rule)
    requires row == Row(map["quantity" := Whole(2), "unit_price" := Whole(3), "amount" := Whole(6), "net" := Whole(7)])
    requires first == RowProduct("line_items", "quantity", "unit_price", "net", 0.01)
    requires second == RowProduct("line_items", "quantity", "unit_price", "amount", 0.01)
    ensures RowMiss(first, Some(row)) == Some(-1.0) && RowMiss(second, Some(row)) == Some(0.0)
  {
    WholeReading(2);
    WholeReading(3);
    WholeReading(6);
    WholeReading(7);
    hide Reading, Whole;
  }

  /** Two times three is not seven, and nobody is told: the second rule on the table holds and replaces the report. */
  lemma {:induction false} EarlierFailureIsHidden(record: Record, row: Row, first: Rule, second: Rule)
    requires row == Row(map["quantity" := Whole(2), "unit_price" := Whole(3), "amount" := Whole(6), "net" := Whole(7)])
    requires record == map["line_items" := Rows([row])]
    requires first == RowProduct("line_items", "quantity", "unit_price", "net", 0.01)
    requires second == RowProduct("line_items", "quantity", "unit_price", "amount", 0.01)
    ensures !Evaluate(first, record) && Inconsistent(record, [first]) == Some(map["line_items" := [0]])
    ensures Inconsistent(record, [first, second]) == Some(map["line_items" := []])
  {
    var rows := [Some(row)];
    assert "line_items" in record && record["line_items"] == Rows([row]);
    assert Iterated(record, "line_items").value == rows;
    FirstMisses(row, first, second);
    hide RowMiss, Iterated;
    ghost var none: seq<nat> := [];
    assert rows[..0] == [] && rows[0] == Some(row);
    assert BadRows(first, rows) == [0] && BadRows(second, rows) == none;
    hide BadRows;
    OneRule(record, [], first, rows);
    OneRule(record, [first], second, rows);
    assert [] + [first] == [first] && [first] + [second] == [first, second];
    ghost var report: map<string, seq<nat>> := map["line_items" := [0]];
    assert report["line_items" := none].Keys == {"line_items"};
    assert report["line_items" := none] == map["line_items" := none];
  }

  lemma {:induction false} OneRule(record: Record, before: seq<Rule>, rule: Rule, rows: seq<Option<Row>>)
    requires rule.RowProduct? && Iterated(record, rule.items) == Some(rows) && Inconsistent(record, before).Some?
    ensures Inconsistent(record, before + [rule])
      == Some(Inconsistent(record, before).value[rule.items := BadRows(rule, rows)])
  {
    assert (before + [rule])[..|before|] == before;
  }
}
