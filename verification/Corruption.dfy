/**
  The error injector (packages/core/docfactory_core/corruption.py): what each
  operator does to a payload, and which rules notice once the payload has been
  normalized.  The random draws are parameters.
 */
module Corruption {
  import opened Common
  import opened Text
  import opened Decimals
  import opened Normalize
  import opened Canonical
  import opened Rules

  // --- total drift -------------------------------------------------------------------

  function Larger(a: real, b: real): real
  {
    if a >= b then a else b
  }

  /** `quantize` to cents. */
  function Quantized(x: real): Dec
  {
    var cents := RoundHalfEven(x * 100.0);
    Dec(x < 0.0, if cents < 0 then -cents else cents, -2)
  }

  /** `u` is the drawn share, `up` the drawn direction. */
  function Drifted(total: Dec, u: real, up: bool): Dec
  {
    var t := Decimals.Value(total);
    var magnitude := Larger(t * u, 1.0);
    Quantized(if up then t + magnitude else t - magnitude)
  }

  function TotalOf(env: Env, fields: map<string, Json>): Option<Dec>
  {
    if "total" in fields then AmountOf(env, fields["total"]) else None
  }

  // --- transposed amounts -------------------------------------------------------------

  predicate HasCell(row: Json, column: string)
  {
    row.Obj? && column in row.members
  }

  function SwapAmounts(items: seq<Json>, i: nat, j: nat): seq<Json>
    requires i < |items| && j < |items| && HasCell(items[i], "amount") && HasCell(items[j], "amount")
  {
    items[i := Obj(items[i].members["amount" := items[j].members["amount"]])]
         [j := Obj(items[j].members["amount" := items[i].members["amount"]])]
  }

  function SwapFactors(row: Json): Json
    requires HasCell(row, "quantity") && HasCell(row, "unit_price")
  {
    Obj(row.members["quantity" := row.members["unit_price"]]["unit_price" := row.members["quantity"]])
  }

  /** The new rows for drawn rows i and j; None where the operator raises. */
  function Transposed(items: seq<Json>, i: nat, j: nat): Option<seq<Json>>
    requires |items| >= 2 ==> i < |items| && j < |items| && i != j
  {
    if |items| >= 2 then
      if HasCell(items[i], "amount") && HasCell(items[j], "amount") then Some(SwapAmounts(items, i, j)) else None
    else if items == [] then None
    else if HasCell(items[0], "quantity") && HasCell(items[0], "unit_price") then Some([SwapFactors(items[0])])
    else None
  }

  /** Rows i and j are a draw of two different ones, where there are two. */
  predicate Drawn(fields: map<string, Json>, i: nat, j: nat)
  {
    "line_items" in fields && fields["line_items"].Arr? && |fields["line_items"].items| >= 2 ==>
      i < |fields["line_items"].items| && j < |fields["line_items"].items| && i != j
  }

  function NewItems(fields: map<string, Json>, i: nat, j: nat): Option<seq<Json>>
    requires Drawn(fields, i, j)
  {
    if "line_items" in fields && fields["line_items"].Arr? then Transposed(fields["line_items"].items, i, j) else None
  }

  // --- shifted dates -------------------------------------------------------------------

  function DayBefore(d: Date): Option<Date>
  {
    if d.day > 1 then Some(CalendarDay(d.year, d.month, d.day - 1))
    else if d.month > 1 then Some(CalendarDay(d.year, d.month - 1, DaysIn(d.year, d.month - 1)))
    else if d.year > 1 then Some(CalendarDay(d.year - 1, 12, 31))
    else None
  }

  /** Subtraction of a timedelta; None before the first representable day. */
  function DaysEarlier(d: Date, k: nat): Option<Date>
    decreases k
  {
    if k == 0 then Some(d)
    else
      var before := DayBefore(d);
      if before.None? then None else DaysEarlier(before.value, k - 1)
  }

  function Shifted(env: Env, fields: map<string, Json>, days: nat): Option<Date>
  {
    if "invoice_date" !in fields then None
    else
      var issued := DateOf(env, fields["invoice_date"]);
      if issued.None? then None else DaysEarlier(issued.value, days)
  }

  // --- the payload in place -------------------------------------------------------------

  class Payload {
    var fields: map<string, Json>

    constructor (fields: map<string, Json>)
      ensures this.fields == fields
    {
      this.fields := fields;
    }

    /** False where the operator raises. */
    method DriftTotal(env: Env, u: real, up: bool) returns (done: bool)
      modifies this
      ensures done <==> TotalOf(env, old(fields)).Some?
      ensures fields == if done
        then old(fields)["total" := Str(Decimals.Str(Drifted(TotalOf(env, old(fields)).value, u, up)))]
        else old(fields)
    {
      if "total" !in fields {
        return false;
      }
      var total := AmountOf(env, fields["total"]);
      if total.None? {
        return false;
      }
      fields := fields["total" := Str(Decimals.Str(Drifted(total.value, u, up)))];
      done := true;
    }

    /** Only a list has rows to exchange; on anything else the lookups raise. */
    method TransposeLineAmounts(i: nat, j: nat) returns (done: bool)
      requires Drawn(fields, i, j)
      modifies this
      ensures done <==> NewItems(old(fields), i, j).Some?
      ensures fields == if done then old(fields)["line_items" := Arr(NewItems(old(fields), i, j).value)] else old(fields)
    {
      if "line_items" !in fields || !fields["line_items"].Arr? {
        return false;
      }
      var items := fields["line_items"].items;
      if |items| >= 2 {
        if !HasCell(items[i], "amount") || !HasCell(items[j], "amount") {
          return false;
        }
        var a, b := items[i].members["amount"], items[j].members["amount"];
        items := items[i := Obj(items[i].members["amount" := b])];
        items := items[j := Obj(items[j].members["amount" := a])];
      } else {
        if items == [] || !HasCell(items[0], "unit_price") || !HasCell(items[0], "quantity") {
          return false;
        }
        var row := items[0].members;
        items := [Obj(row["quantity" := row["unit_price"]]["unit_price" := row["quantity"]])];
      }
      fields := fields["line_items" := Arr(items)];
      done := true;
    }

    method ShiftDate(env: Env, days: nat) returns (done: bool)
      modifies this
      ensures done <==> Shifted(env, old(fields), days).Some?
      ensures fields == if done
        then old(fields)["invoice_date" := Str(Iso(Shifted(env, old(fields), days).value))]
        else old(fields)
    {
      if "invoice_date" !in fields {
        return false;
      }
      var issued := DateOf(env, fields["invoice_date"]);
      if issued.None? {
        return false;
      }
      var shifted := DaysEarlier(issued.value, days);
      if shifted.None? {
        return false;
      }
      fields := fields["invoice_date" := Str(Iso(shifted.value))];
      done := true;
    }
  }

  // --- drift breaks the totals rule ------------------------------------------------------

  lemma CentsValue(neg: bool, cents: nat)
    ensures Decimals.Value(Dec(neg, cents, -2)) == (if neg then -(cents as real) else cents as real) / 100.0
  {
    assert TenTo(-1) == 1.0 / 10.0;
    assert TenTo(-2) == 1.0 / 10.0 / 10.0;
  }

  lemma QuantizedIsNear(x: real)
    ensures x - 0.005 <= Decimals.Value(Quantized(x)) <= x + 0.005
  {
    var cents := RoundHalfEven(x * 100.0);
    hide RoundHalfEven, Decimals.Value;
    var size := if cents < 0 then -cents else cents;
    assert x < 0.0 ==> cents <= 0;
    assert x >= 0.0 ==> cents >= 0;
    assert (if x < 0.0 then -(size as real) else size as real) == cents as real;
    CentsValue(x < 0.0, size);
  }

  lemma DriftIsLarge(total: Dec, u: real, up: bool)
    ensures var t, t' := Decimals.Value(total), Decimals.Value(Drifted(total, u, up));
      if up then t' >= t + 0.995 else t' <= t - 0.995
  {
    hide Decimals.Value, Quantized;
    var t := Decimals.Value(total);
    var magnitude := Larger(t * u, 1.0);
    var x := if up then t + magnitude else t - magnitude;
    assert magnitude >= 1.0 && Drifted(total, u, up) == Quantized(x);
    hide Larger, Drifted;
    QuantizedIsNear(x);
  }

  /** The drift is the drawn share of the total, or one where that is less, up or down, to the half cent. */
  lemma DriftIsAsDrawn(total: Dec, u: real, up: bool)
    ensures var (t, t') := (Decimals.Value(total), Decimals.Value(Drifted(total, u, up)));
      var moved := if up then t' - t else t - t';
      if t * u >= 1.0 then t * u - 0.005 <= moved <= t * u + 0.005 else 0.995 <= moved <= 1.005
  {
    hide Decimals.Value, Quantized;
    var share := Decimals.Value(total) * u;
    var t, magnitude := Decimals.Value(total), Larger(share, 1.0);
    assert Drifted(total, u, up) == Quantized(if up then t + magnitude else t - magnitude);
    assert magnitude == if share >= 1.0 then share else 1.0;
    hide Larger, Drifted;
    QuantizedIsNear(if up then t + magnitude else t - magnitude);
  }

  /** The drifted payload normalizes to the same record with the drifted total in it. */
  lemma DriftNormalizes(env: Env, specs: map<string, Spec>, fields: map<string, Json>, n: Record,
                                           total: Dec, u: real, up: bool)
    requires NormalizeRecord(env, specs, fields) == Some(n)
    requires "total" in specs && specs["total"] == Scalar(MoneyKind)
    requires "total" in fields && fields["total"] != Null && AmountOf(env, fields["total"]) == Some(total)
    ensures "total" in n && n["total"] == Number(total)
    ensures NormalizeRecord(env, specs, fields["total" := Str(Decimals.Str(Drifted(total, u, up)))])
      == Some(n["total" := Number(Drifted(total, u, up))])
  {
    hide Drifted, Decimals.Str, NormalizeAmount, NormalizeRate;
    var d := Drifted(total, u, up);
    NumberReads(d);
    assert NormalizeField(env, specs["total"], fields, "total") == Some(Number(total));
    FieldReplaced(env, specs, fields, n, "total", Str(Decimals.Str(d)), Number(d));
  }

  /** One field of a payload replaced: one field of its normalized record replaced. */
  lemma {:induction false} FieldReplaced(env: Env, specs: map<string, Spec>, fields: map<string, Json>, n: Record,
                                         f: string, v: Json, after: Canonical.Value)
    requires NormalizeRecord(env, specs, fields) == Some(n)
    requires f in specs && v != Null && NormalizeByKind(env, specs[f], v) == Some(after)
    ensures NormalizeRecord(env, specs, fields[f := v]) == Some(n[f := after])
  {
    hide NormalizeByKind;
    var fields' := fields[f := v];
    assert forall g :: g in specs && g != f ==>
      NormalizeField(env, specs[g], fields', g) == NormalizeField(env, specs[g], fields, g);
    assert NormalizeField(env, specs[f], fields', f) == Some(after);
    hide NormalizeField;
    assert NormalizeRecord(env, specs, fields').value == n[f := after];
  }

  lemma TermsUnmoved(record: Record, name: string, v: Canonical.Value, terms: seq<string>)
    requires name !in terms
    ensures seq(|terms|, i requires 0 <= i < |terms| => At(record[name := v], terms[i]))
      == seq(|terms|, i requires 0 <= i < |terms| => At(record, terms[i]))
  {
    assert forall i :: 0 <= i < |terms| ==> terms[i] in terms;
  }

  /** A totals rule that held is broken by every drift, whatever was drawn, for any tolerance below 0.4975. */
  lemma DriftBreaksTotals(rule: Rule, record: Record, total: Dec, u: real, up: bool)
    requires rule.TermsEqual? && rule.target == "total" && "total" !in rule.terms
    requires "total" in record && record["total"] == Number(total)
    requires rule.tolerance < 0.4975 && Evaluate(rule, record)
    ensures !Evaluate(rule, record["total" := Number(Drifted(total, u, up))])
  {
    hide Drifted, Decimals.Value, Total;
    TermsUnmoved(record, "total", Number(Drifted(total, u, up)), rule.terms);
    DriftIsLarge(total, u, up);
  }

  lemma SmallValues()
    ensures Decimals.Value(Dec(false, 5, -3)) == 0.005
    ensures Decimals.Value(Dec(false, 5025, -4)) == 0.5025
    ensures Decimals.Value(Dec(false, 100, -2)) == 1.0
  {
    assert TenTo(-1) == 1.0 / 10.0;
    assert TenTo(-2) == TenTo(-1) / 10.0;
    assert TenTo(-3) == TenTo(-2) / 10.0;
    assert TenTo(-4) == TenTo(-3) / 10.0;
  }

  /** From 0.4975 on a drift can go unnoticed: 0.005 drifts to 1.00, and 0.5025 lies that near to both. */
  lemma DriftCanHide(tolerance: real)
    requires tolerance >= 0.4975
    ensures var rule := TermsEqual(["subtotal"], "total", tolerance);
            var record: Record := map["subtotal" := Number(Dec(false, 5025, -4)), "total" := Number(Dec(false, 5, -3))];
      && Evaluate(rule, record)
      && Evaluate(rule, record["total" := Number(Drifted(Dec(false, 5, -3), 0.005, true))])
  {
    SmallValues();
    hide Decimals.Value;
    assert RoundHalfEven(100.5) == 100;
    assert Drifted(Dec(false, 5, -3), 0.005, true) == Dec(false, 100, -2);
    var record: Record := map["subtotal" := Number(Dec(false, 5025, -4)), "total" := Number(Dec(false, 5, -3))];
    var record' := record["total" := Number(Dec(false, 100, -2))];
    OneTerm(record, "subtotal");
    OneTerm(record', "subtotal");
  }

  lemma OneTerm(record: Record, name: string)
    requires At(record, name).Some?
    ensures var terms := [name];
      Total(seq(|terms|, i requires 0 <= i < |terms| => At(record, terms[i]))) == At(record, name)
  {
    var xs := seq(1, i requires 0 <= i < 1 => At(record, [name][i]));
    assert xs == [At(record, name)] && xs[..0] == [];
    assert Total(xs) == Plus(Total(xs[..0]), xs[0]);
  }

  // --- an earlier date keeps the order ----------------------------------------------------

  function DaysBeforeMonth(year: nat, month: nat): nat
    requires month >= 1
  {
    if month == 1 then 0 else DaysBeforeMonth(year, month - 1) + DaysIn(year, month - 1)
  }

  /** Leap years among the first y. */
  function LeapDays(y: nat): int
  {
    y / 4 - y / 100 + y / 400
  }

  /** Days since the day before 0001-01-01, in the proleptic Gregorian calendar. */
  function DayNumber(year: nat, month: nat, day: nat): int
    requires year >= 1 && month >= 1
  {
    365 * (year - 1) + LeapDays(year - 1) + DaysBeforeMonth(year, month) + day
  }

  function Ordinal(d: Date): int
  {
    DayNumber(d.year, d.month, d.day)
  }

  lemma {:induction false} YearLength(year: nat)
    ensures DaysBeforeMonth(year, 12) + 31 == if LeapYear(year) then 366 else 365
  {
    assert DaysBeforeMonth(year, 12) == DaysBeforeMonth(year, 11) + 30;
    assert DaysBeforeMonth(year, 11) == DaysBeforeMonth(year, 10) + 31;
    assert DaysBeforeMonth(year, 10) == DaysBeforeMonth(year, 9) + 30;
    assert DaysBeforeMonth(year, 9) == DaysBeforeMonth(year, 8) + 31;
    assert DaysBeforeMonth(year, 8) == DaysBeforeMonth(year, 7) + 31;
    assert DaysBeforeMonth(year, 7) == DaysBeforeMonth(year, 6) + 30;
    assert DaysBeforeMonth(year, 6) == DaysBeforeMonth(year, 5) + 31;
    assert DaysBeforeMonth(year, 5) == DaysBeforeMonth(year, 4) + 30;
    assert DaysBeforeMonth(year, 4) == DaysBeforeMonth(year, 3) + 31;
    assert DaysBeforeMonth(year, 3) == DaysBeforeMonth(year, 2) + DaysIn(year, 2);
    assert DaysBeforeMonth(year, 2) == 31;
  }

  lemma Multiples(y: nat)
    requires y >= 1
    ensures y / 4 == (y - 1) / 4 + if y % 4 == 0 then 1 else 0
    ensures y / 100 == (y - 1) / 100 + if y % 100 == 0 then 1 else 0
    ensures y / 400 == (y - 1) / 400 + if y % 400 == 0 then 1 else 0
  {
  }

  lemma Remainders(q: nat)
    ensures (100 * q) % 100 == 0 && (4 * q) % 4 == 0
  {
  }

  lemma MultiplesNest(y: nat)
    ensures y % 400 == 0 ==> y % 100 == 0
    ensures y % 100 == 0 ==> y % 4 == 0
  {
    if y % 400 == 0 {
      assert y == 100 * (4 * (y / 400));
      Remainders(4 * (y / 400));
    }
    if y % 100 == 0 {
      assert y == 4 * (25 * (y / 100));
      Remainders(25 * (y / 100));
    }
  }

  lemma LeapDaysStep(y: nat)
    requires y >= 1
    ensures LeapDays(y) == LeapDays(y - 1) + if LeapYear(y) then 1 else 0
  {
    Multiples(y);
    MultiplesNest(y);
  }

  lemma MonthEnd(year: nat, month: nat)
    requires year >= 1 && month > 1
    ensures DayNumber(year, month, 1) == DayNumber(year, month - 1, DaysIn(year, month - 1)) + 1
  {
    hide LeapDays, DaysIn;
  }

  lemma YearEnd(year: nat)
    requires year > 1
    ensures DayNumber(year, 1, 1) == DayNumber(year - 1, 12, 31) + 1
  {
    assert DaysBeforeMonth(year, 1) == 0;
    hide LeapDays, DaysBeforeMonth, LeapYear;
    YearLength(year - 1);
    LeapDaysStep(year - 1);
  }

  /** The day before really is one day less. */
  lemma DayBeforeOrdinal(d: Date)
    requires DayBefore(d).Some?
    ensures Ordinal(DayBefore(d).value) == Ordinal(d) - 1
  {
    var y, m := d.year, d.month;
    assert d.day > 1 ==> DayNumber(y, m, d.day) == DayNumber(y, m, d.day - 1) + 1;
    hide DayNumber, DaysIn;
    if d.day == 1 && m > 1 {
      MonthEnd(y, m);
    } else if d.day == 1 {
      YearEnd(y);
    }
  }

  lemma DayBeforeIsBefore(d: Date)
    requires DayBefore(d).Some?
    ensures DayAtMost(DayBefore(d).value, d) && !DayAtMost(d, DayBefore(d).value)
  {
  }

  /** k days earlier is k days less, and not later on the calendar. */
  lemma {:induction false} EarlierDays(d: Date, k: nat)
    requires DaysEarlier(d, k).Some?
    ensures Ordinal(DaysEarlier(d, k).value) == Ordinal(d) - k
    ensures DayAtMost(DaysEarlier(d, k).value, d) && (k > 0 ==> !DayAtMost(d, DaysEarlier(d, k).value))
    decreases k
  {
    hide DayBefore, Ordinal;
    if k == 0 {
    } else {
      DayBeforeOrdinal(d);
      DayBeforeIsBefore(d);
      EarlierDays(DayBefore(d).value, k - 1);
    }
  }

  lemma {:induction false} OrdinalIsPositive(d: Date)
    ensures Ordinal(d) >= 1
    ensures DayBefore(d).None? ==> Ordinal(d) == 1
  {
    assert DaysBeforeMonth(d.year, 1) == 0;
    MultiplesAtMost(d.year - 1);
  }

  lemma MultiplesAtMost(y: nat)
    ensures LeapDays(y) >= 0
    ensures y == 0 ==> LeapDays(y) == 0
  {
    assert y / 100 <= y / 4;
  }

  /** There is such a day exactly while the calendar reaches that far back. */
  lemma {:induction false} EarlierExistsIff(d: Date, k: nat)
    ensures DaysEarlier(d, k).Some? <==> Ordinal(d) > k
    decreases k
  {
    hide DayBefore, Ordinal;
    OrdinalIsPositive(d);
    if k == 0 {
    } else if DayBefore(d).Some? {
      DayBeforeOrdinal(d);
      EarlierExistsIff(DayBefore(d).value, k - 1);
    }
  }

  /**
    The operator subtracts the drawn days: it succeeds exactly when the payload
    has a readable date that far into the calendar.
   */
  lemma ShiftIsByDays(env: Env, fields: map<string, Json>, days: nat)
    ensures var shifted := Shifted(env, fields, days);
      && (shifted.Some? <==> && "invoice_date" in fields && DateOf(env, fields["invoice_date"]).Some?
                             && Ordinal(DateOf(env, fields["invoice_date"]).value) > days)
      && (shifted.Some? ==>
            && Ordinal(shifted.value) == Ordinal(DateOf(env, fields["invoice_date"]).value) - days
            && DateOf(env, Str(Iso(shifted.value))) == shifted)
  {
    hide DaysEarlier, Ordinal, ReadIso, Iso, NormalizeText, Tidy;
    if "invoice_date" in fields && DateOf(env, fields["invoice_date"]).Some? {
      var issued := DateOf(env, fields["invoice_date"]).value;
      EarlierExistsIff(issued, days);
      if Shifted(env, fields, days).Some? {
        EarlierDays(issued, days);
        IsoReads(Shifted(env, fields, days).value);
        NormalizeTextIsTidy(Iso(Shifted(env, fields, days).value));
      }
    }
  }

  /**
    An earlier invoice date never trips a rule that wants it at most another date,
    nor any rule that does not read it.
   */
  lemma {:induction false} ShiftIsBlind(rule: Rule, record: Record, issued: Date, k: nat)
    requires "invoice_date" in record && record["invoice_date"] == Day(issued) && DaysEarlier(issued, k).Some?
    requires "invoice_date" !in Reads(rule)
      || (rule.DateOrder? && rule.earlier == "invoice_date" && rule.later != "invoice_date")
    requires Evaluate(rule, record)
    ensures Evaluate(rule, record["invoice_date" := Day(DaysEarlier(issued, k).value)])
  {
    var record' := record["invoice_date" := Day(DaysEarlier(issued, k).value)];
    if "invoice_date" !in Reads(rule) {
      hide Evaluate, Reads;
      RuleReadsOnly(rule, record, record');
    } else {
      hide DaysEarlier;
      EarlierDays(issued, k);
    }
  }

  lemma ShiftNormalizes(env: Env, specs: map<string, Spec>, fields: map<string, Json>, n: Record,
                                           days: nat)
    requires NormalizeRecord(env, specs, fields) == Some(n)
    requires "invoice_date" in specs && specs["invoice_date"] == Scalar(DateKind)
    requires Shifted(env, fields, days).Some?
    ensures var shifted := Shifted(env, fields, days).value;
      NormalizeRecord(env, specs, fields["invoice_date" := Str(Iso(shifted))]) == Some(n["invoice_date" := Day(shifted)])
  {
    hide NormalizeText, ReadIso, Iso, Tidy, DaysEarlier, NormalizeRecord;
    var shifted := Shifted(env, fields, days).value;
    IsoReads(shifted);
    NormalizeTextIsTidy(Iso(shifted));
    FieldReplaced(env, specs, fields, n, "invoice_date", Str(Iso(shifted)), Day(shifted));
  }

  // --- transposed amounts, seen by the rules ------------------------------------------------

  function SwapCells(rows: seq<Row>, i: nat, j: nat): seq<Row>
    requires i < |rows| && j < |rows| && "amount" in rows[i].cells && "amount" in rows[j].cells
  {
    rows[i := Row(rows[i].cells["amount" := rows[j].cells["amount"]])]
        [j := Row(rows[j].cells["amount" := rows[i].cells["amount"]])]
  }

  lemma CellReplaced(env: Env, spec: Spec, row: Json, n: Row, column: string,
                                        v: Json, after: Canonical.Value)
    requires spec.Table? && row.Obj? && NormalizeRow(env, spec, row) == Some(n)
    requires column in spec.columns && NormalizeByKind(env, spec.columns[column], v) == Some(after)
    ensures NormalizeRow(env, spec, Obj(row.members[column := v])) == Some(Row(n.cells[column := after]))
  {
    hide NormalizeByKind;
    var row' := Obj(row.members[column := v]);
    assert NormalizeRow(env, spec, row').value.cells == n.cells[column := after];
  }

  /** Transposing the payload's amounts transposes the normalized ones. */
  lemma {:induction false} TransposeNormalizes(env: Env, spec: Spec, items: seq<Json>, rows: seq<Row>, i: nat, j: nat)
    requires spec.Table? && "amount" in spec.columns && NormalizeByKind(env, spec, Arr(items)) == Some(Rows(rows))
    requires i < |items| && j < |items| && i != j && HasCell(items[i], "amount") && HasCell(items[j], "amount")
    ensures |rows| == |items| && "amount" in rows[i].cells && "amount" in rows[j].cells
    ensures NormalizeByKind(env, spec, Arr(SwapAmounts(items, i, j))) == Some(Rows(SwapCells(rows, i, j)))
  {
    assert forall k :: 0 <= k < |items| ==> NormalizeRow(env, spec, items[k]) == Some(rows[k]);
    hide NormalizeByKind;
    assert "amount" in rows[i].cells && "amount" in rows[j].cells;
    hide NormalizeRow;
    RowNormalizes(env, spec, items[i], rows[i], "amount");
    RowNormalizes(env, spec, items[j], rows[j], "amount");
    var a, b := items[i].members["amount"], items[j].members["amount"];
    CellReplaced(env, spec, items[i], rows[i], "amount", b, rows[j].cells["amount"]);
    CellReplaced(env, spec, items[j], rows[j], "amount", a, rows[i].cells["amount"]);
    RowsNormalize(env, spec, SwapAmounts(items, i, j), SwapCells(rows, i, j));
  }

  lemma {:induction false} RowsNormalize(env: Env, spec: Spec, items: seq<Json>, rows: seq<Row>)
    requires spec.Table? && |items| == |rows|
    requires forall k :: 0 <= k < |items| ==> NormalizeRow(env, spec, items[k]) == Some(rows[k])
    ensures NormalizeByKind(env, spec, Arr(items)) == Some(Rows(rows))
  {
    hide NormalizeRow;
    assert NormalizeByKind(env, spec, Arr(items)).value.rows == rows;
  }

  lemma {:induction false} FactorsNormalize(env: Env, spec: Spec, row: Json, n: Row)
    requires spec.Table? && "quantity" in spec.columns && "unit_price" in spec.columns
    requires spec.columns["quantity"] == Scalar(QuantityKind) && spec.columns["unit_price"] == Scalar(MoneyKind)
    requires HasCell(row, "quantity") && HasCell(row, "unit_price") && NormalizeRow(env, spec, row) == Some(n)
    ensures "quantity" in n.cells && "unit_price" in n.cells
    ensures NormalizeRow(env, spec, SwapFactors(row))
      == Some(Row(n.cells["quantity" := n.cells["unit_price"]]["unit_price" := n.cells["quantity"]]))
  {
    assert "quantity" in n.cells && "unit_price" in n.cells;
    assert forall v ::
      NormalizeByKind(env, spec.columns["quantity"], v) == NormalizeByKind(env, spec.columns["unit_price"], v);
    hide NormalizeByKind, NormalizeRow;
    var q, p := row.members["quantity"], row.members["unit_price"];
    RowNormalizes(env, spec, row, n, "quantity");
    RowNormalizes(env, spec, row, n, "unit_price");
    CellReplaced(env, spec, row, n, "quantity", p, n.cells["unit_price"]);
    var half, halfN := Obj(row.members["quantity" := p]), Row(n.cells["quantity" := n.cells["unit_price"]]);
    CellReplaced(env, spec, half, halfN, "unit_price", q, n.cells["quantity"]);
  }

  // Sums do not move.

  function Sum(xs: seq<Option<real>>): real
  {
    if xs == [] then 0.0
    else Sum(xs[..|xs| - 1]) + if xs[|xs| - 1].Some? then xs[|xs| - 1].value else 0.0
  }

  lemma {:induction false} TotalIsSum(xs: seq<Option<real>>)
    ensures Total(xs) == if forall x :: x in xs ==> x.Some? then Some(Sum(xs)) else None
  {
    if xs == [] {
    } else {
      var before, last := xs[..|xs| - 1], xs[|xs| - 1];
      TotalIsSum(before);
      assert forall x :: x in xs <==> x in before || x == last;
    }
  }

  function Amount(x: Option<real>): real
  {
    if x.Some? then x.value else 0.0
  }

  lemma SumUpdate(xs: seq<Option<real>>, i: nat, x: Option<real>)
    requires i < |xs|
    ensures Sum(xs[i := x]) == Sum(xs) - Amount(xs[i]) + Amount(x)
  {
    var last := |xs| - 1;
    if i == last {
      assert xs[i := x][..last] == xs[..last];
    } else {
      SumUpdate(xs[..last], i, x);
      assert xs[i := x][..last] == xs[..last][i := x];
    }
  }

  lemma TotalSwap(xs: seq<Option<real>>, i: nat, j: nat)
    requires i < |xs| && j < |xs| && i != j
    ensures Total(xs[i := xs[j]][j := xs[i]]) == Total(xs)
  {
    var ys := xs[i := xs[j]][j := xs[i]];
    hide Total, Sum;
    SumUpdate(xs, i, xs[j]);
    SumUpdate(xs[i := xs[j]], j, xs[i]);
    TotalIsSum(xs);
    TotalIsSum(ys);
    forall x ensures x in xs <==> x in ys {
      if x in xs {
        var k :| 0 <= k < |xs| && xs[k] == x;
        assert ys[if k == i then j else if k == j then i else k] == x;
      }
      if x in ys {
        var k :| 0 <= k < |ys| && ys[k] == x;
        assert xs[if k == i then j else if k == j then i else k] == x;
      }
    }
  }

  /** The table field of a record. */
  function Table(rows: seq<Row>): seq<Option<Row>>
  {
    seq(|rows|, k requires 0 <= k < |rows| => Some(rows[k]))
  }

  lemma SwapKeepsTotal(rows: seq<Row>, i: nat, j: nat, column: string)
    requires i < |rows| && j < |rows| && i != j && "amount" in rows[i].cells && "amount" in rows[j].cells
    ensures Total(Column(Table(SwapCells(rows, i, j)), column)) == Total(Column(Table(rows), column))
  {
    var xs, ys := Column(Table(rows), column), Column(Table(SwapCells(rows, i, j)), column);
    hide Total, Reading;
    if column == "amount" {
      assert ys == xs[i := xs[j]][j := xs[i]];
      TotalSwap(xs, i, j);
    } else {
      assert ys == xs;
    }
  }

  /** Whatever column a sum rule adds up, transposing two amounts leaves its residual as it was. */
  lemma TransposeKeepsSums(rule: Rule, record: Record, rows: seq<Row>, i: nat, j: nat)
    requires rule.SumEquals? && "line_items" in record && record["line_items"] == Rows(rows)
    requires i < |rows| && j < |rows| && i != j && "amount" in rows[i].cells && "amount" in rows[j].cells
    ensures var record' := record["line_items" := Rows(SwapCells(rows, i, j))];
      rule.target != "line_items" ==>
        Residual(rule, record') == Residual(rule, record) && Evaluate(rule, record') == Evaluate(rule, record)
  {
    SwapKeepsTotal(rows, i, j, rule.column);
    hide Total, Column, SwapCells, Table;
  }

  // Rows do.

  function PairAbove(lo: nat, hi: nat, n: nat): seq<nat>
  {
    (if lo < n then [lo] else []) + if hi < n then [hi] else []
  }

  /** If exactly rows lo and hi fail, exactly they are reported. */
  lemma {:induction false} TwoBadRows(rule: Rule, rows: seq<Option<Row>>, lo: nat, hi: nat)
    requires rule.RowProduct? && lo < hi
    requires forall k :: 0 <= k < |rows| ==> (RowFails(rule, rows[k]) <==> k == lo || k == hi)
    ensures BadRows(rule, rows) == PairAbove(lo, hi, |rows|)
  {
    if rows == [] {
    } else {
      assert RowFails(rule, rows[|rows| - 1]) <==> |rows| - 1 == lo || |rows| - 1 == hi;
      TwoBadRows(rule, rows[..|rows| - 1], lo, hi);
    }
  }

  lemma {:induction false} NoBadRows(rule: Rule, rows: seq<Option<Row>>)
    requires rule.RowProduct? && forall k :: 0 <= k < |rows| ==> !RowFails(rule, rows[k])
    ensures BadRows(rule, rows) == []
  {
    if rows == [] {
    } else {
      assert !RowFails(rule, rows[|rows| - 1]);
      NoBadRows(rule, rows[..|rows| - 1]);
    }
  }

  /** By how much a row whose product was exact misses once its amount is the other row's. */
  lemma ExactRowMisses(rule: Rule, row: Row, other: Row)
    requires rule.RowProduct? && rule.result == "amount" && rule.left != "amount" && rule.right != "amount"
    requires RowMiss(rule, Some(row)) == Some(0.0) && "amount" in other.cells && CellAt(Some(other), "amount").Some?
    ensures "amount" in row.cells
    ensures RowMiss(rule, Some(Row(row.cells["amount" := other.cells["amount"]])))
      == Minus(CellAt(Some(row), "amount"), CellAt(Some(other), "amount"))
  {
    hide Reading;
  }

  /**
    When every row's product was exact, transposing the amounts of rows i and
    j makes the row check report exactly those two if the amounts differ by
    more than the tolerance, and nothing otherwise.
   */
  lemma {:induction false} TransposeIsSeenByRows(rule: Rule, rows: seq<Row>, i: nat, j: nat)
    requires rule.RowProduct? && rule.result == "amount" && rule.left != "amount" && rule.right != "amount"
    requires rule.tolerance >= 0.0 && i < |rows| && j < |rows| && i != j
    requires forall k :: 0 <= k < |rows| ==> RowMiss(rule, Some(rows[k])) == Some(0.0)
    ensures "amount" in rows[i].cells && "amount" in rows[j].cells
    ensures BadRows(rule, Table(SwapCells(rows, i, j)))
      == if Within(Minus(CellAt(Some(rows[i]), "amount"), CellAt(Some(rows[j]), "amount")), rule.tolerance) then []
         else [Min(i, j), Max(i, j)]
  {
    hide Reading, BadRows;
    assert RowMiss(rule, Some(rows[i])) == Some(0.0) && RowMiss(rule, Some(rows[j])) == Some(0.0);
    ExactRowMisses(rule, rows[i], rows[j]);
    ExactRowMisses(rule, rows[j], rows[i]);
    var swapped := Table(SwapCells(rows, i, j));
    forall k | 0 <= k < |rows|
      ensures RowFails(rule, swapped[k]) <==>
        ((k == i || k == j)
          && !Within(Minus(CellAt(Some(rows[i]), "amount"), CellAt(Some(rows[j]), "amount")), rule.tolerance))
    {
      assert RowMiss(rule, Some(rows[k])) == Some(0.0);
      if k != i && k != j {
        assert swapped[k] == Some(rows[k]);
      }
    }
    hide RowFails, RowMiss, CellAt, SwapCells;
    if Within(Minus(CellAt(Some(rows[i]), "amount"), CellAt(Some(rows[j]), "amount")), rule.tolerance) {
      NoBadRows(rule, swapped);
    } else {
      TwoBadRows(rule, swapped, Min(i, j), Max(i, j));
    }
  }

  /**
    On a single row the operator exchanges quantity and unit price, and a
    product does not care: no row product of the two changes its verdict, and
    the other columns stay.
   */
  lemma {:induction false} SingleRowIsUnseen(rule: Rule, row: Row)
    requires "quantity" in row.cells && "unit_price" in row.cells
    requires rule.RowProduct? && {rule.left, rule.right} == {"quantity", "unit_price"}
    requires rule.result != "quantity" && rule.result != "unit_price"
    ensures var row' := Row(row.cells["quantity" := row.cells["unit_price"]]["unit_price" := row.cells["quantity"]]);
      && RowMiss(rule, Some(row')) == RowMiss(rule, Some(row))
      && BadRows(rule, [Some(row')]) == BadRows(rule, [Some(row)])
      && forall c :: c !in {"quantity", "unit_price"} ==> CellAt(Some(row'), c) == CellAt(Some(row), c)
  {
    var row' := Row(row.cells["quantity" := row.cells["unit_price"]]["unit_price" := row.cells["quantity"]]);
    assert rule.left in {"quantity", "unit_price"} && rule.right in {"quantity", "unit_price"};
    assert "quantity" in {rule.left, rule.right} && "unit_price" in {rule.left, rule.right};
    hide Reading;
    Commutes(CellAt(Some(row), "quantity"), CellAt(Some(row), "unit_price"));
    assert [Some(row)][..0] == [] && [Some(row')][..0] == [];
  }

  lemma Commutes(a: Option<real>, b: Option<real>)
    ensures Times(a, b) == Times(b, a)
  {
  }

  // --- from the payload to the report -------------------------------------------------------

  lemma StillIterable(record: Record, rows: seq<Row>, rules: seq<Rule>)
    requires Inconsistent(record, rules).Some?
    ensures Inconsistent(record["line_items" := Rows(rows)], rules).Some?
  {
    if rules == [] {
    } else {
      hide BadRows;
      StillIterable(record, rows, rules[..|rules| - 1]);
    }
  }

  lemma {:induction false} FieldOfRecord(env: Env, specs: map<string, Spec>, fields: map<string, Json>, n: Record,
                                         name: string)
    requires NormalizeRecord(env, specs, fields) == Some(n) && name in specs
    requires name in fields && fields[name] != Null
    ensures name in n && NormalizeByKind(env, specs[name], fields[name]) == Some(n[name])
  {
    assert NormalizeField(env, specs[name], fields, name) == Some(n[name]);
    hide NormalizeByKind;
  }

  /** The exchange, seen after normalization, is an exchange in the record's table and nothing else. */
  lemma TransposedRecord(env: Env, specs: map<string, Spec>, fields: map<string, Json>, n: Record,
                         rows: seq<Row>, i: nat, j: nat)
    requires "line_items" in specs && specs["line_items"].Table? && "amount" in specs["line_items"].columns
    requires NormalizeRecord(env, specs, fields) == Some(n) && "line_items" in n && n["line_items"] == Rows(rows)
    requires "line_items" in fields && fields["line_items"].Arr? && |fields["line_items"].items| >= 2
    requires Drawn(fields, i, j) && NewItems(fields, i, j).Some?
    ensures i < |rows| && j < |rows| && "amount" in rows[i].cells && "amount" in rows[j].cells
    ensures NormalizeRecord(env, specs, fields["line_items" := Arr(NewItems(fields, i, j).value)])
      == Some(n["line_items" := Rows(SwapCells(rows, i, j))])
  {
    var spec, items := specs["line_items"], fields["line_items"].items;
    assert HasCell(items[i], "amount") && HasCell(items[j], "amount") && i != j;
    assert NewItems(fields, i, j).value == SwapAmounts(items, i, j);
    hide *;
    FieldOfRecord(env, specs, fields, n, "line_items");
    TransposeNormalizes(env, spec, items, rows, i, j);
    FieldReplaced(env, specs, fields, n, "line_items", Arr(SwapAmounts(items, i, j)), Rows(SwapCells(rows, i, j)));
  }

  lemma DrawnApart(fields: map<string, Json>, i: nat, j: nat)
    requires "line_items" in fields && fields["line_items"].Arr? && |fields["line_items"].items| >= 2
    requires Drawn(fields, i, j)
    ensures i != j
  {
  }

  /** What the row rules report of a replaced table is what the last of them reports of its rows. */
  lemma ReplacedReport(n: Record, rows: seq<Row>, rules: seq<Rule>, k: nat)
    requires Inconsistent(n, rules).Some?
    requires k < |rules| && rules[k].RowProduct? && rules[k].items == "line_items"
    requires forall l :: k < l < |rules| && rules[l].RowProduct? ==> rules[l].items != "line_items"
    ensures var report := Inconsistent(n["line_items" := Rows(rows)], rules);
      && report.Some? && "line_items" in report.value && report.value["line_items"] == BadRows(rules[k], Table(rows))
  {
    var after := n["line_items" := Rows(rows)];
    assert Iterated(after, "line_items").value == Table(rows);
    hide *;
    StillIterable(n, rows, rules);
    LastRowRuleWins(after, rules, k);
  }

  /**
    The whole way, from a payload whose rows were exact: exchange the amounts
    of rows i and j, normalize, check the rows.  What is reported for the
    table is exactly the two rows, or nothing within the tolerance.
   */
  lemma TransposeEndToEnd(env: Env, specs: map<string, Spec>, fields: map<string, Json>, n: Record,
                                             rows: seq<Row>, rules: seq<Rule>, k: nat, i: nat, j: nat)
    requires "line_items" in specs && specs["line_items"].Table? && "amount" in specs["line_items"].columns
    requires NormalizeRecord(env, specs, fields) == Some(n) && n["line_items"] == Rows(rows)
    requires "line_items" in fields && fields["line_items"].Arr? && |fields["line_items"].items| >= 2
    requires Drawn(fields, i, j) && NewItems(fields, i, j).Some?
    requires k < |rules| && rules[k].RowProduct? && rules[k].items == "line_items" && rules[k].tolerance >= 0.0
    requires rules[k].result == "amount" && rules[k].left != "amount" && rules[k].right != "amount"
    requires forall l :: k < l < |rules| && rules[l].RowProduct? ==> rules[l].items != "line_items"
    requires forall r :: 0 <= r < |rows| ==> RowMiss(rules[k], Some(rows[r])) == Some(0.0)
    requires Inconsistent(n, rules).Some?
    ensures i < |rows| && j < |rows|
    ensures var after := NormalizeRecord(env, specs, fields["line_items" := Arr(NewItems(fields, i, j).value)]);
      && after.Some? && Inconsistent(after.value, rules).Some? && "line_items" in Inconsistent(after.value, rules).value
      && Inconsistent(after.value, rules).value["line_items"]
        == if Within(Minus(CellAt(Some(rows[i]), "amount"), CellAt(Some(rows[j]), "amount")), rules[k].tolerance) then []
           else [Min(i, j), Max(i, j)]
  {
    assert "line_items" in n;
    hide *;
    TransposedRecord(env, specs, fields, n, rows, i, j);
    DrawnApart(fields, i, j);
    TransposeIsSeenByRows(rules[k], rows, i, j);
    ReplacedReport(n, SwapCells(rows, i, j), rules, k);
  }
}
