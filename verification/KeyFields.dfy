/** The two sections of `check` (data-generator/generate.py) that depend on the entity sets and key fields
    found by discovery (data-generator/discovery/properties.csv): every set has rows, and own keys do not
    repeat. A row is a map from column to text, and looking up a column it lacks stops the check. */
module KeyFields {
  import opened Wrappers
  import opened Sequences

  type Record = map<string, string>

  // --- own keys -------------------------------------------------------------------------------

  /** Every key field is a column of every row. */
  ghost predicate Evaluable(rows: seq<Record>, fields: seq<string>) {
    forall i, f | 0 <= i < |rows| && f in fields :: f in rows[i]
  }

  function KeyOf(row: Record, fields: seq<string>): seq<Option<string>> {
    seq(|fields|, i requires 0 <= i < |fields| => if fields[i] in row then Some(row[fields[i]]) else None)
  }

  function KeysOf(rows: seq<Record>, fields: seq<string>): seq<seq<Option<string>>> {
    seq(|rows|, i requires 0 <= i < |rows| => KeyOf(rows[i], fields))
  }

  /** The declared key, except for the two sets whose business key is wider. */
  function FieldsFor(entity: string, declared: seq<string>): seq<string> {
    if entity == "PurchaseRequisitionSet" then ["Banfn", "Bnfpo"]
    else if entity == "ChangeDocItemSet" then ["Objectclas", "Objectid", "Changenr", "Tabname", "Tabkey", "Fname"]
    else declared
  }

  method ProjectKey(row: Record, fields: seq<string>) returns (key: Option<seq<Option<string>>>)
    ensures key == if forall f | f in fields :: f in row then Some(KeyOf(row, fields)) else None
  {
    var values: seq<Option<string>> := [];
    for i := 0 to |fields|
      invariant |values| == i && forall k | 0 <= k < i :: fields[k] in row && values[k] == Some(row[fields[k]])
    {
      if fields[i] !in row {
        return None;
      }
      values := values + [Some(row[fields[i]])];
    }
    assert values == KeyOf(row, fields);
    key := Some(values);
  }

  /** One set: None when a row lacks a key field, else the number of repeated keys. */
  method CheckSet(rows: seq<Record>, fields: seq<string>) returns (problems: Option<nat>)
    ensures problems == None <==> !Evaluable(rows, fields)
    ensures problems.Some? ==> (problems.value == 0 <==> NoRepeats(KeysOf(rows, fields)))
  {
    var count: nat := 0;
    var keys: seq<seq<Option<string>>> := [];
    for i := 0 to |rows|
      invariant Evaluable(rows[..i], fields)
      invariant keys == KeysOf(rows[..i], fields)
      invariant count == 0 <==> NoRepeats(keys)
    {
      var key := ProjectKey(rows[i], fields);
      if key == None {
        return None;
      }
      assert KeysOf(rows[..i + 1], fields) == keys + [key.value];
      if key.value in keys {
        count := count + 1;
        RepeatsAppend(keys, key.value);
      } else {
        AppendRepeats(keys, key.value);
      }
      keys := keys + [key.value];
    }
    assert rows[..|rows|] == rows;
    problems := Some(count);
  }

  lemma RepeatsAppend<T>(s: seq<T>, x: T)
    requires x in s
    ensures !NoRepeats(s + [x])
  {
    var i :| 0 <= i < |s| && s[i] == x;
    assert (s + [x])[i] == (s + [x])[|s|];
  }

  lemma AppendRepeats<T>(s: seq<T>, x: T)
    requires x !in s
    ensures NoRepeats(s + [x]) <==> NoRepeats(s)
  {
    if NoRepeats(s + [x]) {
      forall i, j | 0 <= i < j < |s| ensures s[i] != s[j] {
        assert (s + [x])[i] != (s + [x])[j];
      }
    }
  }

  /** The whole section stops exactly when some set's rows lack one of its key fields, and otherwise counts
      no problem exactly when no set repeats a key. */
  method CheckOwnKeys(declared: seq<(string, seq<string>)>, tables: map<string, seq<Record>>) returns (problems: Option<nat>)
    requires forall d | d in declared :: d.0 in tables
    ensures problems == None <==> exists i :: 0 <= i < |declared| && !Evaluable(tables[declared[i].0], FieldsFor(declared[i].0, declared[i].1))
    ensures problems == Some(0) <==>
              forall i | 0 <= i < |declared| ::
                && Evaluable(tables[declared[i].0], FieldsFor(declared[i].0, declared[i].1))
                && NoRepeats(KeysOf(tables[declared[i].0], FieldsFor(declared[i].0, declared[i].1)))
  {
    hide Evaluable, FieldsFor, NoRepeats, KeysOf;
    var count: nat := 0;
    for i := 0 to |declared|
      invariant forall k | 0 <= k < i :: Evaluable(tables[declared[k].0], FieldsFor(declared[k].0, declared[k].1))
      invariant count == 0 <==>
                  forall k | 0 <= k < i :: NoRepeats(KeysOf(tables[declared[k].0], FieldsFor(declared[k].0, declared[k].1)))
    {
      assert declared[i] in declared;
      var found := CheckSet(tables[declared[i].0], FieldsFor(declared[i].0, declared[i].1));
      if found == None {
        return None;
      }
      count := count + found.value;
    }
    problems := Some(count);
  }

  // --- completeness ---------------------------------------------------------------------------

  function EmptySets(entities: seq<string>, expectedEmpty: set<string>, tables: map<string, seq<Record>>): seq<string>
    requires forall e | e in entities :: e in tables
  {
    if entities == [] then []
    else
      EmptySets(Front(entities), expectedEmpty, tables) +
      if Last(entities) !in expectedEmpty && tables[Last(entities)] == [] then [Last(entities)] else []
  }

  /** Reports every set that has no row and is not known to be empty. */
  method CheckComplete(entities: seq<string>, expectedEmpty: set<string>, tables: map<string,
                       seq<Record>>) returns (problems: seq<string>)
    requires forall e | e in entities :: e in tables
    ensures problems == EmptySets(entities, expectedEmpty, tables)
    ensures problems == [] <==> forall e | e in entities :: e in expectedEmpty || tables[e] != []
  {
    problems := [];
    for i := 0 to |entities|
      invariant problems == EmptySets(entities[..i], expectedEmpty, tables)
      invariant problems == [] <==> forall k | 0 <= k < i :: entities[k] in expectedEmpty || tables[entities[k]] != []
    {
      assert Front(entities[..i + 1]) == entities[..i];
      if entities[i] !in expectedEmpty && tables[entities[i]] == [] {
        problems := problems + [entities[i]];
      }
    }
    assert entities[..|entities|] == entities;
  }

  // --- the discovered sets ------------------------------------------------------------------------

  /** The sets and keys of the discovery file. */
  const DISCOVERED: seq<(string, seq<string>)> := [
    ("PurchaseRequisitionSet", ["Banfn", "Bnfpo"]),
    ("GoodsMovementItemSet", ["Mblnr", "Mjahr", "Zeile"]),
    ("InfoRecordSet", ["Infnr"]),
    ("InfoRecordOrgSet", ["Infnr", "Ekorg", "Esokz", "Werks"]),
    ("PurchaseOrderSet", ["Ebeln"]),
    ("PurchaseOrderItemSet", ["Ebeln", "Ebelp"]),
    ("VendorSet", ["Lifnr"]),
    ("MaterialDescriptionSet", ["Matnr", "Spras"]),
    ("MaterialSet", ["Matnr"]),
    ("MaterialPlantSet", ["Matnr", "Werks"]),
    ("StorageLocationStockSet", ["Matnr", "Werks", "Lgort"]),
    ("MaterialDocumentHeaderSet", ["Mblnr", "Mjahr"]),
    ("POScheduleLineSet", ["Ebeln", "Ebelp", "Etenr"]),
    ("POHistorySet", ["Ebeln", "Ebelp", "Zekkn", "Vgabe", "Gjahr", "Belnr", "Buzei"]),
    ("DepartmentCodeSet", ["Werks", "DeptCode"]),
    ("ReservationItemSet", ["Rsnum", "Rspos"]),
    ("MaterialValuationSet", ["Matnr", "Bwkey", "Bwtar"]),
    ("ChangeDocHeaderSet", ["Objectclas", "Objectid", "Changenr"]),
    ("ChangeDocItemSet", ["Objectclas", "Objectid", "Changenr", "Tabname", "Tabkey", "Fname", "Chngind"]),
    ("BatchStockSet", ["Matnr", "Werks", "Lgort", "Charg"]),
    ("MonthlyMovementStatisticSet", ["Spmon", "Werks", "Matnr", "Lgort", "Vrsio", "Ssour"]),
    ("StockMovementStatisticSet", ["Werks", "Lgort", "Matnr"]),
    ("GatePassHeaderSet", ["ZzgpNo", "Zzyear"]),
    ("GatePassItemSet", ["ZzgpNo", "Zzyear", "Zzposnr"]),
    ("GatePassReturnSet", ["ZzgpNo", "Zzyear", "Zzposnr", "Zcount"])]

  const VALUATION: nat := 16

  const EXPECTED_EMPTY: set<string> := {"MonthlyMovementStatisticSet"}

  /** Sets for which the generator has no writer. */
  const NEVER_WRITTEN: set<string> :=
    {"DepartmentCodeSet", "GatePassHeaderSet", "GatePassItemSet", "GatePassReturnSet", "MonthlyMovementStatisticSet"}

  const VALUATION_COLUMNS: set<string> :=
    {"Matnr", "Bwkey", "Lbkum", "Salk3", "Vprsv", "Verpr", "Stprs", "Peinh", "Bklas"}

  /** What any run leaves: nothing in the sets without a writer, valuation rows with the columns they are
      written with, and every key field filled in by the other writers. */
  ghost predicate Generated(tables: map<string, seq<Record>>) {
    && (forall i | 0 <= i < |DISCOVERED| :: DISCOVERED[i].0 in tables)
    && (forall e | e in NEVER_WRITTEN && e in tables :: tables[e] == [])
    && (forall i | 0 <= i < |DISCOVERED| && i != VALUATION ::
          Evaluable(tables[DISCOVERED[i].0], FieldsFor(DISCOVERED[i].0, DISCOVERED[i].1)))
    && "MaterialValuationSet" in tables
    && (forall row | row in tables["MaterialValuationSet"] :: row.Keys == VALUATION_COLUMNS)
  }

  /** The columns of the valuation rows lack `Bwtar`, one of their key fields. */
  lemma ValuationKeyMissing(tables: map<string, seq<Record>>)
    requires Generated(tables)
    ensures var fields := FieldsFor(DISCOVERED[VALUATION].0, DISCOVERED[VALUATION].1);
            DISCOVERED[VALUATION].0 == "MaterialValuationSet" &&
            (Evaluable(tables["MaterialValuationSet"], fields) <==> tables["MaterialValuationSet"] == [])
  {
    assert DISCOVERED[VALUATION] == ("MaterialValuationSet", ["Matnr", "Bwkey", "Bwtar"]);
    var rows, fields := tables["MaterialValuationSet"], ["Matnr", "Bwkey", "Bwtar"];
    if rows != [] {
      assert rows[0] in rows && "Bwtar" !in VALUATION_COLUMNS && fields[2] in fields;
      assert "Bwtar" !in rows[0].Keys;
    }
  }

  /** With the discovered key fields the own-key section stops exactly when there is a valuation row, that
      is, on every run with a material-plant. */
  lemma OwnKeysStop(tables: map<string, seq<Record>>)
    requires Generated(tables)
    ensures (exists i :: 0 <= i < |DISCOVERED| && !Evaluable(tables[DISCOVERED[i].0], FieldsFor(DISCOVERED[i].0, DISCOVERED[i].1)))
            <==> tables["MaterialValuationSet"] != []
  {
    ValuationKeyMissing(tables);
    hide Evaluable, FieldsFor;
    assert 0 <= VALUATION < |DISCOVERED|;
  }

  /** And on every run the completeness section reports the department codes and the three gate-pass sets. */
  lemma NeverComplete(tables: map<string, seq<Record>>, entities: seq<string>)
    requires Generated(tables) && (forall e | e in entities :: e in tables)
    requires forall e | e in NEVER_WRITTEN :: e in entities
    ensures forall e | e in NEVER_WRITTEN && e !in EXPECTED_EMPTY :: e in EmptySets(entities, EXPECTED_EMPTY, tables)
  {
    forall e | e in NEVER_WRITTEN && e !in EXPECTED_EMPTY ensures e in EmptySets(entities, EXPECTED_EMPTY, tables) {
      EmptyIsReported(entities, tables, e);
    }
  }

  lemma {:induction false} EmptyIsReported(entities: seq<string>, tables: map<string, seq<Record>>, e: string)
    requires (forall x | x in entities :: x in tables) && e in entities && e !in EXPECTED_EMPTY && tables[e] == []
    ensures e in EmptySets(entities, EXPECTED_EMPTY, tables)
  {
    if Last(entities) != e {
      EmptyIsReported(Front(entities), tables, e);
    }
  }
}
