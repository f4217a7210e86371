/**
  Canonical records (packages/core/docfactory_core/pipeline.py): normalizing a
  record by the kinds its definition declares, storing it as JSON, and reading
  the stored form back.
 */
module Canonical {
  import opened Common
  import opened Text
  import opened Decimals
  import opened Normalize

  // --- dates -------------------------------------------------------------------------

  datatype CalendarDay = CalendarDay(year: nat, month: nat, day: nat)

  predicate LeapYear(y: nat)
  {
    y % 4 == 0 && (y % 100 != 0 || y % 400 == 0)
  }

  function DaysIn(year: nat, month: nat): nat
  {
    if month == 2 then if LeapYear(year) then 29 else 28
    else if month in {4, 6, 9, 11} then 30
    else 31
  }

  predicate OnCalendar(d: CalendarDay)
  {
    1 <= d.year <= 9999 && 1 <= d.month <= 12 && 1 <= d.day <= DaysIn(d.year, d.month)
  }

  type Date = d: CalendarDay | OnCalendar(d) witness CalendarDay(1, 1, 1)

  function Iso(d: Date): string
  {
    Pad(d.year, 4) + ['-'] + Pad(d.month, 2) + ['-'] + Pad(d.day, 2)
  }

  /** The extended form of ISO 8601; the other accepted forms are `Env.otherDates`. */
  function ReadIso(s: string): Option<Date>
  {
    if |s| != 10 || s[4] != '-' || s[7] != '-' || !AllDigits(s[..4]) || !AllDigits(s[5..7]) || !AllDigits(s[8..]) then None
    else
      var d := CalendarDay(NatOf(s[..4]), NatOf(s[5..7]), NatOf(s[8..]));
      if OnCalendar(d) then Some(d) else None
  }

  // --- values ------------------------------------------------------------------------

  datatype Json =
    | Null
    | Bool(b: bool)
    | Int(i: int)
    | Float(x: real)
    | Str(s: string)
    | Arr(items: seq<Json>)
    | Obj(members: map<string, Json>)

  datatype Kind = TextKind | EnumKind | DateKind | MoneyKind | QuantityKind | RateKind

  datatype Spec = Scalar(kind: Kind) | Table(columns: map<string, Spec>)

  datatype Value = Missing | Words(text: string) | Number(d: Dec) | Day(date: Date) | Rows(rows: seq<Row>)

  datatype Row = Row(cells: map<string, Value>)

  /** Python's `str` of a non-string, a dictionary's key order, and the date forms besides ISO. */
  datatype Env = Env(show: Json -> string, keys: map<string, Json> -> seq<string>, otherDates: string -> Option<Date>)

  function TextOf(env: Env, v: Json): string
  {
    if v.Str? then v.s else env.show(v)
  }

  function AmountOf(env: Env, v: Json): Option<Dec>
  {
    match v
    case Bool(b) => Some(Dec(false, if b then 1 else 0, 0))
    case Int(i) => Some(Dec(i < 0, if i < 0 then -i else i, 0))
    case Float(_) => ReadDecimal(env.show(v))
    case _ => NormalizeAmount(TextOf(env, v))
  }

  function RateOf(env: Env, v: Json): Option<Dec>
  {
    if v.Str? then NormalizeRate(v.s)
    else
      var rate := AmountOf(env, v);
      if rate.Some? && AboveOne(rate.value) then Some(Hundredth(rate.value)) else rate
  }

  function DateOf(env: Env, v: Json): Option<Date>
  {
    var text := NormalizeText(TextOf(env, v));
    var iso := ReadIso(text);
    if iso.Some? then iso else env.otherDates(text)
  }

  function NormalizeScalar(env: Env, kind: Kind, v: Json): Option<Value>
  {
    match kind
    case MoneyKind | QuantityKind =>
      var d := AmountOf(env, v);
      if d.None? then None else Some(Number(d.value))
    case RateKind =>
      var d := RateOf(env, v);
      if d.None? then None else Some(Number(d.value))
    case DateKind =>
      var d := DateOf(env, v);
      if d.None? then None else Some(Day(d.value))
    case TextKind | EnumKind => Some(Words(NormalizeText(TextOf(env, v))))
  }

  // --- records -----------------------------------------------------------------------

  /** What iterating over `value or []` yields, None where the value is not iterable. */
  function RowsOf(env: Env, v: Json): Option<seq<Json>>
  {
    match v
    case Null => Some([])
    case Bool(b) => if b then None else Some([])
    case Int(i) => if i != 0 then None else Some([])
    case Float(x) => if x != 0.0 then None else Some([])
    case Str(s) => Some(seq(|s|, i requires 0 <= i < |s| => Str([s[i]])))
    case Arr(items) => Some(items)
    case Obj(members) =>
      var keys := env.keys(members);
      Some(seq(|keys|, i requires 0 <= i < |keys| => Str(keys[i])))
  }

  predicate Occurs(part: string, whole: string)
  {
    exists i :: 0 <= i <= |whole| && part <= whole[i..]
  }

  /** Only the declared columns a row has.  A column found in a row that is no object fails on the lookup. */
  function NormalizeRow(env: Env, spec: Spec, row: Json): Option<Row>
    requires spec.Table?
    decreases spec, 0
  {
    match row
    case Obj(members) =>
      if exists c :: c in spec.columns && c in members && NormalizeByKind(env, spec.columns[c], members[c]).None? then None
      else Some(Row(map c | c in spec.columns && c in members :: NormalizeByKind(env, spec.columns[c], members[c]).value))
    case Str(s) => if exists c :: c in spec.columns && Occurs(c, s) then None else Some(Row(map[]))
    case Arr(items) => if exists c :: c in spec.columns && Str(c) in items then None else Some(Row(map[]))
    case _ => if spec.columns != map[] then None else Some(Row(map[]))
  }

  function NormalizeByKind(env: Env, spec: Spec, v: Json): Option<Value>
    decreases spec, 1
  {
    match spec
    case Scalar(kind) => NormalizeScalar(env, kind, v)
    case Table(_) =>
      var rows := RowsOf(env, v);
      if rows.None? || exists i :: 0 <= i < |rows.value| && NormalizeRow(env, spec, rows.value[i]).None? then None
      else Some(Rows(seq(|rows.value|, i requires 0 <= i < |rows.value| => NormalizeRow(env, spec, rows.value[i]).value)))
  }

  function NormalizeField(env: Env, spec: Spec, record: map<string, Json>, name: string): Option<Value>
  {
    if name !in record || record[name] == Null then Some(Missing) else NormalizeByKind(env, spec, record[name])
  }

  function NormalizeRecord(env: Env, fields: map<string, Spec>, record: map<string, Json>): Option<map<string, Value>>
  {
    if exists f :: f in fields && NormalizeField(env, fields[f], record, f).None? then None
    else Some(map f | f in fields :: NormalizeField(env, fields[f], record, f).value)
  }

  /** Decimals and dates as their text. */
  function JsonOf(v: Value): Json
  {
    match v
    case Missing => Null
    case Words(text) => Str(text)
    case Number(d) => Str(Decimals.Str(d))
    case Day(date) => Str(Iso(date))
    case Rows(rows) => Arr(seq(|rows|, i requires 0 <= i < |rows| => JsonOfRow(rows[i])))
  }

  function JsonOfRow(row: Row): Json
  {
    Obj(map c | c in row.cells :: JsonOf(row.cells[c]))
  }

  function JsonRecord(record: map<string, Value>): map<string, Json>
  {
    map f | f in record :: JsonOf(record[f])
  }

  // --- scalars are fixed points ------------------------------------------------------

  lemma IsoParts(d: Date)
    ensures var s := Iso(d);
      && |s| == 10 && s[4] == '-' && s[7] == '-'
      && s[..4] == Pad(d.year, 4) && s[5..7] == Pad(d.month, 2) && s[8..] == Pad(d.day, 2)
      && Plain(s)
  {
    var y, m, day := Pad(d.year, 4), Pad(d.month, 2), Pad(d.day, 2);
    hide Pad, OnCalendar;
    var s := Iso(d);
    forall c | c in s ensures PlainChar(c) {
      assert c in y || c in m || c in day || c == '-';
    }
  }

  lemma IsoReads(d: Date)
    ensures ReadIso(Iso(d)) == Some(d) && Tidy(Iso(d))
  {
    assert d.year < 10000 && d.month < 100 && d.day < 100 by {
      assert DaysIn(d.year, d.month) <= 31;
    }
    hide Pad, AllDigits, NatOf, OnCalendar, Iso, Plain, Tidy;
    IsoParts(d);
    PadReads4(d.year);
    PadReads2(d.month);
    PadReads2(d.day);
    PlainIsTidy(Iso(d));
  }

  lemma {:induction false} PadReads2(n: nat)
    requires n < 100
    ensures AllDigits(Pad(n, 2)) && NatOf(Pad(n, 2)) == n
  {
    NatOfPad2("", n);
    assert "" + Pad(n, 2) == Pad(n, 2);
  }

  lemma {:induction false} PadReads4(n: nat)
    requires n < 10000
    ensures AllDigits(Pad(n, 4)) && NatOf(Pad(n, 4)) == n
  {
    NatOfPad3("", n / 10);
    assert "" + Pad(n / 10, 3) == Pad(n / 10, 3);
    NatOfLast(Pad(n / 10, 3), n % 10);
  }

  lemma PlainIsTidy(s: string)
    requires Plain(s)
    ensures Tidy(s)
  {
    PlainIsNotSpace(s);
    hide Whitespace;
    assert forall i :: 0 <= i < |s| ==> s[i] in s;
  }

  lemma NumberReads(d: Dec)
    ensures NormalizeAmount(Decimals.Str(d)) == Some(d)
    ensures NormalizeRate(Decimals.Str(d)) == Some(if AboveOne(d) then Hundredth(d) else d)
  {
    var s := Decimals.Str(d);
    StrRoundTrip(d);
    assert Plain(s) && ',' !in s && '%' !in s;
    assert ReadDecimal("").None? && s != "";
    hide Decimals.Str, ReadDecimal, AboveOne, Plain, Numeric, NormalizeAmount;
    PlainAmount(s);
  }

  /** Dividing a number above one by a hundred changes it. */
  lemma HundredthMoves(d: Dec)
    requires AboveOne(d)
    ensures Hundredth(d) != d
  {
    hide Hundredth, Decimals.Value;
    HundredthValue(d);
  }

  predicate RatesAtMostOne(spec: Spec, v: Value)
    decreases spec
  {
    match spec
    case Scalar(kind) => kind == RateKind && v.Number? ==> !AboveOne(v.d)
    case Table(columns) => v.Rows? ==>
      forall i, c :: 0 <= i < |v.rows| && c in columns && c in v.rows[i].cells ==>
        RatesAtMostOne(columns[c], v.rows[i].cells[c])
  }

  lemma {:induction false} StoredScalar(env: Env, kind: Kind, v: Json, n: Value)
    requires NormalizeScalar(env, kind, v) == Some(n)
    ensures NormalizeScalar(env, kind, JsonOf(n)) == Some(n) <==> RatesAtMostOne(Scalar(kind), n)
  {
    hide Decimals.Str, Iso, ReadIso, NormalizeAmount, NormalizeRate, NormalizeText, AboveOne, Hundredth, ReadDecimal, Tidy;
    match n
    case Number(d) =>
      NumberReads(d);
      if AboveOne(d) {
        HundredthMoves(d);
      }
    case Day(date) =>
      IsoReads(date);
      NormalizeTextIsTidy(Iso(date));
    case Words(text) =>
      NormalizeTextIsTidy(TextOf(env, v));
      NormalizeTextIsTidy(text);
    case _ =>
  }

  // --- what each kind makes of a value ------------------------------------------------------

  lemma ScaledWhole(k: int)
    ensures Scaled(k, 0) == k as real
  {
    assert TenTo(0) == 1.0;
  }

  /** A JSON number is itself as an amount, and a percentage as a rate exactly when it is above one. */
  lemma WholeNumberReads(env: Env, kind: Kind, i: int)
    requires kind in {MoneyKind, QuantityKind, RateKind}
    ensures NormalizeScalar(env, kind, Int(i)).Some? && NormalizeScalar(env, kind, Int(i)).value.Number?
    ensures Decimals.Value(NormalizeScalar(env, kind, Int(i)).value.d)
      == if kind == RateKind && i > 1 then i as real / 100.0 else i as real
  {
    var d := AmountOf(env, Int(i)).value;
    assert Decimals.Value(d) == Scaled(i, 0);
    ScaledWhole(i);
    hide Decimals.Value, Scaled, Hundredth;
    HundredthValue(d);
  }

  /** True and false count as one and zero; a fraction is read from the text Python shows for it. */
  lemma BoolAndFloatRead(env: Env, kind: Kind, b: bool, x: real)
    requires kind in {MoneyKind, QuantityKind, RateKind}
    ensures var n := NormalizeScalar(env, kind, Bool(b));
      n.Some? && n.value.Number? && Decimals.Value(n.value.d) == if b then 1.0 else 0.0
    ensures kind != RateKind ==>
      var (n, d) := (NormalizeScalar(env, kind, Float(x)), ReadDecimal(env.show(Float(x))));
      (n.Some? <==> d.Some?) && (n.Some? ==> n == Some(Number(d.value)))
  {
    ScaledWhole(0);
    ScaledWhole(1);
    assert Decimals.Value(Dec(false, if b then 1 else 0, 0)) == Scaled(if b then 1 else 0, 0);
    hide Decimals.Value, Scaled, ReadDecimal, Hundredth;
  }

  /** Printed money is read to the cent, whichever way it was printed; so is a printed rate. */
  lemma PrintedMoneyReads(env: Env, kind: Kind, neg: bool, cents: nat)
    requires kind in {MoneyKind, QuantityKind}
    ensures NormalizeScalar(env, kind, Str(Usd(neg, cents))) == Some(Number(Dec(neg, cents, -2)))
    ensures NormalizeScalar(env, kind, Str(Eur(neg, cents))) == Some(Number(Dec(neg, cents, -2)))
  {
    hide NormalizeAmount, Usd, Eur;
    UsdRoundTrip(neg, cents);
    EurRoundTrip(neg, cents);
  }

  lemma PrintedRateReads(env: Env, neg: bool, m: nat)
    ensures NormalizeScalar(env, RateKind, Str(Pct(neg, m))).Some?
    ensures NormalizeScalar(env, RateKind, Str(Pct(neg, m))).value.Number?
    ensures Decimals.Value(NormalizeScalar(env, RateKind, Str(Pct(neg, m))).value.d) == Decimals.Value(Dec(neg, m, -5))
  {
    hide NormalizeRate, Pct, Decimals.Value;
    PctRoundTrip(neg, m);
  }

  /** Text and enumeration values keep their words, and only those. */
  lemma {:induction false} TextKeepsWords(env: Env, kind: Kind, s: string)
    requires kind in {TextKind, EnumKind}
    ensures NormalizeScalar(env, kind, Str(s)).Some? && NormalizeScalar(env, kind, Str(s)).value.Words?
    ensures var text := NormalizeScalar(env, kind, Str(s)).value.text; Tidy(text) && WordList(text) == WordList(s)
  {
    hide NormalizeText, Tidy;
    NormalizeTextIsTidy(s);
  }

  /** A calendar day in ISO form is that day, whatever whitespace stands around it. */
  lemma {:induction false} IsoDateReads(env: Env, d: Date, s: string)
    requires WordList(s) == WordList(Iso(d))
    ensures NormalizeScalar(env, DateKind, Str(s)) == Some(Day(d))
  {
    hide NormalizeText, Tidy, Iso, ReadIso, OnCalendar;
    IsoReads(d);
    NormalizeTextIsTidy(Iso(d));
    SameTextIffSameWords(s, Iso(d));
  }

  /** Any other date is what the other forms make of the tidied text. */
  lemma OtherDateReads(env: Env, s: string)
    requires ReadIso(NormalizeText(s)).None?
    ensures var d := env.otherDates(NormalizeText(s));
      NormalizeScalar(env, DateKind, Str(s)) == if d.None? then None else Some(Day(d.value))
  {
    hide NormalizeText, ReadIso;
  }

  /**
    An object in a table's place is iterated by key: every key becomes an empty
    row, unless a column's name occurs in one, which fails on the lookup.
   */
  lemma {:induction false} ObjectAsTable(env: Env, columns: map<string, Spec>, members: map<string, Json>)
    ensures var keys := env.keys(members);
      NormalizeByKind(env, Table(columns), Obj(members)) ==
        if exists i, c :: 0 <= i < |keys| && c in columns && Occurs(c, keys[i]) then None
        else Some(Rows(seq(|keys|, i requires 0 <= i < |keys| => Row(map[]))))
  {
    var keys, spec := env.keys(members), Table(columns);
    var rows := RowsOf(env, Obj(members)).value;
    hide Occurs;
    forall i | 0 <= i < |keys|
      ensures NormalizeRow(env, spec, rows[i])
        == if exists c :: c in columns && Occurs(c, keys[i]) then None else Some(Row(map[]))
    {
      assert rows[i] == Str(keys[i]);
    }
    hide NormalizeRow;
    if exists i, c :: 0 <= i < |keys| && c in columns && Occurs(c, keys[i]) {
      var i, c :| 0 <= i < |keys| && c in columns && Occurs(c, keys[i]);
      assert NormalizeRow(env, spec, rows[i]).None?;
    } else {
      assert forall i :: 0 <= i < |rows| ==> NormalizeRow(env, spec, rows[i]) == Some(Row(map[]));
      ghost var empty: seq<Row> := seq(|keys|, i requires 0 <= i < |keys| => Row(map[]));
      assert NormalizeByKind(env, spec, Obj(members)).value.rows == empty;
    }
  }

  /** A text in a table's place is iterated by character, none of which is a row with columns of longer names. */
  lemma {:induction false} TextAsTable(env: Env, columns: map<string, Spec>, s: string)
    requires forall c :: c in columns ==> |c| >= 2
    ensures NormalizeByKind(env, Table(columns), Str(s)) == Some(Rows(seq(|s|, i requires 0 <= i < |s| => Row(map[]))))
  {
    var spec := Table(columns);
    var rows := RowsOf(env, Str(s)).value;
    forall i | 0 <= i < |s| ensures NormalizeRow(env, spec, rows[i]) == Some(Row(map[])) {
      assert forall c :: c in columns ==> !Occurs(c, [s[i]]);
    }
    hide NormalizeRow;
    ghost var empty: seq<Row> := seq(|s|, i requires 0 <= i < |s| => Row(map[]));
    assert NormalizeByKind(env, spec, Str(s)).value.rows == empty;
  }

  /**
    A row that is no object: one that cannot be searched fails wherever columns
    are declared, a list fails where it holds a column's name, and neither has cells.
   */
  lemma {:induction false} OddRows(env: Env, columns: map<string, Spec>, row: Json)
    requires !row.Obj? && !row.Str?
    ensures NormalizeByKind(env, Table(columns), Arr([row])) ==
      if (row.Arr? && exists c :: c in columns && Str(c) in row.items) || (!row.Arr? && columns != map[]) then None
      else Some(Rows([Row(map[])]))
  {
    var spec, value := Table(columns), Arr([row]);
    assert RowsOf(env, value).value == [row];
    var read := NormalizeRow(env, spec, row);
    assert read == (
      if (row.Arr? && exists c :: c in columns && Str(c) in row.items) || (!row.Arr? && columns != map[]) then None
      else Some(Row(map[])));
    hide NormalizeRow;
    assert [row][0] == row;
    if read.Some? {
      ghost var one: seq<Row> := [Row(map[])];
      assert NormalizeByKind(env, spec, value).value.rows == one;
    }
  }

  /** What is empty or zero has no rows; another number, or true, is no table at all. */
  lemma {:induction false} EmptyTables(env: Env, columns: map<string, Spec>, v: Json)
    ensures v in {Null, Bool(false), Int(0), Float(0.0), Str(""), Arr([])} ==>
      NormalizeByKind(env, Table(columns), v) == Some(Rows([]))
    ensures v == Bool(true) || (v.Int? && v.i != 0) || (v.Float? && v.x != 0.0) ==>
      NormalizeByKind(env, Table(columns), v) == None
  {
    if v in {Null, Bool(false), Int(0), Float(0.0), Str(""), Arr([])} {
      assert RowsOf(env, v) == Some([]) by {
        assert RowsOf(env, v).value == [];
      }
      ghost var none: seq<Row> := [];
      assert NormalizeByKind(env, Table(columns), v).value.rows == none;
    }
  }

  /** A normalized row has the declared columns its source has, and no others; a record has every declared field. */
  lemma {:induction false} RowsKeepDeclared(env: Env, spec: Spec, members: map<string, Json>, n: Row)
    requires spec.Table? && NormalizeRow(env, spec, Obj(members)) == Some(n)
    ensures forall c :: c in n.cells <==> c in spec.columns && c in members
    ensures forall c :: c in n.cells ==> NormalizeByKind(env, spec.columns[c], members[c]) == Some(n.cells[c])
  {
    hide NormalizeByKind;
  }

  lemma {:induction false} RecordsKeepDeclared(env: Env, fields: map<string, Spec>, record: map<string, Json>,
                                               n: map<string, Value>)
    requires NormalizeRecord(env, fields, record) == Some(n)
    ensures n.Keys == fields.Keys
    ensures forall f :: f in n ==> (f !in record || record[f] == Null ==> n[f] == Missing)
    ensures forall f :: f in n && f in record && record[f] != Null ==>
      NormalizeByKind(env, fields[f], record[f]) == Some(n[f])
  {
    hide NormalizeByKind;
    assert forall f :: f in fields ==> NormalizeField(env, fields[f], record, f) == Some(n[f]);
  }

  // --- and so are tables and records ---------------------------------------------------

  lemma {:induction false} RowNormalizes(env: Env, spec: Spec, row: Json, n: Row, c: string)
    requires spec.Table? && NormalizeRow(env, spec, row) == Some(n) && c in n.cells
    ensures c in spec.columns && row.Obj? && c in row.members
    ensures NormalizeByKind(env, spec.columns[c], row.members[c]) == Some(n.cells[c])
  {
  }

  /** A stored row is read back unchanged exactly when each of its cells is. */
  lemma {:induction false} StoredRow(env: Env, spec: Spec, n: Row)
    requires spec.Table? && forall c :: c in n.cells ==> c in spec.columns
    ensures NormalizeRow(env, spec, JsonOfRow(n)) == Some(n)
      <==> forall c :: c in n.cells ==> NormalizeByKind(env, spec.columns[c], JsonOf(n.cells[c])) == Some(n.cells[c])
  {
    hide NormalizeByKind, JsonOf;
    var stored := JsonOfRow(n);
    assert forall c :: c in stored.members <==> c in n.cells;
    if NormalizeRow(env, spec, stored) == Some(n) {
      forall c | c in n.cells ensures NormalizeByKind(env, spec.columns[c], JsonOf(n.cells[c])) == Some(n.cells[c]) {
        RowNormalizes(env, spec, stored, n, c);
      }
    }
    if forall c :: c in n.cells ==> NormalizeByKind(env, spec.columns[c], JsonOf(n.cells[c])) == Some(n.cells[c]) {
      assert NormalizeRow(env, spec, stored).value.cells == n.cells;
    }
  }

  lemma {:induction false} StoredRows(env: Env, spec: Spec, n: Value)
    requires spec.Table? && n.Rows?
    ensures NormalizeByKind(env, spec, JsonOf(n)) == Some(n)
      <==> forall i :: 0 <= i < |n.rows| ==> NormalizeRow(env, spec, JsonOfRow(n.rows[i])) == Some(n.rows[i])
  {
    hide NormalizeRow, JsonOfRow;
    var stored := JsonOf(n).items;
    assert forall i :: 0 <= i < |stored| ==> stored[i] == JsonOfRow(n.rows[i]);
    if forall i :: 0 <= i < |n.rows| ==> NormalizeRow(env, spec, JsonOfRow(n.rows[i])) == Some(n.rows[i]) {
      assert NormalizeByKind(env, spec, JsonOf(n)).value.rows == n.rows;
    }
  }

  /** What normalization produced is read back unchanged exactly when no rate in it is above one. */
  lemma {:induction false} StoredValue(env: Env, spec: Spec, v: Json, n: Value)
    requires NormalizeByKind(env, spec, v) == Some(n)
    ensures NormalizeByKind(env, spec, JsonOf(n)) == Some(n) <==> RatesAtMostOne(spec, n)
    decreases spec
  {
    if spec.Scalar? {
      hide JsonOf, NormalizeScalar;
      StoredScalar(env, spec.kind, v, n);
    } else {
      var rows := RowsOf(env, v).value;
      forall i, c | 0 <= i < |n.rows| && c in n.rows[i].cells
        ensures c in spec.columns
        ensures NormalizeByKind(env, spec.columns[c], JsonOf(n.rows[i].cells[c])) == Some(n.rows[i].cells[c])
          <==> RatesAtMostOne(spec.columns[c], n.rows[i].cells[c])
      {
        RowNormalizes(env, spec, rows[i], n.rows[i], c);
        StoredValue(env, spec.columns[c], rows[i].members[c], n.rows[i].cells[c]);
      }
      hide NormalizeByKind, NormalizeRow, JsonOf, JsonOfRow;
      forall i | 0 <= i < |n.rows|
        ensures NormalizeRow(env, spec, JsonOfRow(n.rows[i])) == Some(n.rows[i])
          <==> forall c :: c in n.rows[i].cells ==> RatesAtMostOne(spec.columns[c], n.rows[i].cells[c])
      {
        StoredRow(env, spec, n.rows[i]);
      }
      StoredRows(env, spec, n);
    }
  }

  /**
    Stored records are fixed points: for every definition and record, what was
    normalized and stored normalizes to itself exactly when every normalized
    rate is at most one.
   */
  lemma StoredRecord(env: Env, fields: map<string, Spec>, record: map<string, Json>,
                                        n: map<string, Value>)
    requires NormalizeRecord(env, fields, record) == Some(n)
    ensures NormalizeRecord(env, fields, JsonRecord(n)) == Some(n)
      <==> forall f :: f in fields && f in n ==> RatesAtMostOne(fields[f], n[f])
  {
    hide NormalizeByKind, JsonOf, RatesAtMostOne;
    forall f | f in fields
      ensures f in n
      ensures NormalizeField(env, fields[f], JsonRecord(n), f) == Some(n[f]) <==> RatesAtMostOne(fields[f], n[f])
    {
      StoredField(env, fields[f], record, n, f);
    }
    hide NormalizeField;
    if forall f :: f in fields ==> NormalizeField(env, fields[f], JsonRecord(n), f) == Some(n[f]) {
      assert NormalizeRecord(env, fields, JsonRecord(n)).value == n;
    }
  }

  lemma {:induction false} StoredField(env: Env, spec: Spec, record: map<string, Json>, n: map<string, Value>,
                                       f: string)
    requires f in n && NormalizeField(env, spec, record, f) == Some(n[f])
    ensures NormalizeField(env, spec, JsonRecord(n), f) == Some(n[f]) <==> RatesAtMostOne(spec, n[f])
  {
    var stored := JsonRecord(n);
    assert f in stored && stored[f] == JsonOf(n[f]);
    hide NormalizeByKind, JsonRecord;
    if !n[f].Missing? {
      StoredValue(env, spec, record[f], n[f]);
    }
  }

  lemma HundredThousandths(k: int)
    ensures Scaled(k, -5) > 1.0 <==> k > 100000
  {
    assert Scaled(k, 0) == k as real by {
      assert TenTo(0) == 1.0;
    }
    hide Scaled;
    ScaledNext(k, -1);
    ScaledNext(k, -2);
    ScaledNext(k, -3);
    ScaledNext(k, -4);
    ScaledNext(k, -5);
  }

  /** A printed percentage, once stored, stays what it was exactly up to one hundred percent. */
  lemma PrintedRateIsStable(m: nat)
    ensures NormalizeRate(Pct(false, m)).Some?
    ensures var d := NormalizeRate(Pct(false, m)).value;
      NormalizeRate(Decimals.Str(d)) == Some(d) <==> m <= 100000
  {
    assert Decimals.Value(Dec(false, m, -5)) == Scaled(m, -5);
    hide NormalizeRate, Pct, Decimals.Value, Scaled, Decimals.Str, Hundredth;
    PctRoundTrip(false, m);
    var d := NormalizeRate(Pct(false, m)).value;
    NumberReads(d);
    HundredThousandths(m);
    if AboveOne(d) {
      HundredthMoves(d);
    }
  }
}
