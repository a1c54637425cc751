/**
  The customer registry of `restart_application` (actions.py): the rows of
  `customers.csv`, after CSV unquoting, become a dict from customer name to
  its code and environment list.
 */
module Customers {
  import opened Wrappers
  import opened Text

  /** One CSV record, as the list of its fields. */
  type Row = seq<string>

  datatype Customer = Customer(code: string, environments: seq<string>)

  /**
    The `customers` dict. Python dicts remember insertion order, which shows in
    the "Available customers" message, so the keys are kept as a sequence too.
   */
  datatype Table = Table(keys: seq<string>, entries: map<string, Customer>)

  const EmptyTable := Table([], map[])

  predicate Distinct(s: seq<string>) {
    forall i, j :: 0 <= i < j < |s| ==> s[i] != s[j]
  }

  /** Each key is listed once, and the listed keys are exactly the keys of the map. */
  predicate WellFormed(t: Table) {
    && Distinct(t.keys)
    && (forall k :: k in t.keys ==> k in t.entries)
    && (forall k :: k in t.entries ==> k in t.keys)
  }

  /** A record with at least three fields is read; shorter ones are skipped. */
  predicate Usable(row: Row) {
    |row| >= 3
  }

  function NameOf(row: Row): string
    requires Usable(row)
  {
    Strip(row[0])
  }

  function CustomerOf(row: Row): Customer
    requires Usable(row)
  {
    Customer(Strip(row[1]), StripAll(Split(row[2], ',')))
  }

  /** What every parsed entry looks like: stripped name and code, a non-empty list of clean environments. */
  predicate Clean(name: string, c: Customer) {
    && Stripped(name)
    && Stripped(c.code)
    && |c.environments| >= 1
    && CommaFreeWords(c.environments)
  }

  /** Every entry of the table is clean. */
  predicate AllClean(t: Table) {
    forall n :: n in t.entries ==> Clean(n, t.entries[n])
  }

  /** The pieces of a split, once stripped, are stripped and free of the separator. */
  lemma StripAllSplitClean(s: string)
    ensures CommaFreeWords(StripAll(Split(s, ',')))
  {
    var ps := Split(s, ',');
    forall k | 0 <= k < |ps|
      ensures ',' !in StripAll(ps)[k] && Stripped(StripAll(ps)[k])
    {
      StripAllAt(ps, k);
      StripChars(ps[k]);
    }
  }

  lemma CustomerOfClean(row: Row)
    requires Usable(row)
    ensures Clean(NameOf(row), CustomerOf(row))
  {
    StripAllSplitClean(row[2]);
  }

  /**
    `customers[name] = c`: a new name goes to the end of the key order, a known
    name keeps its place and only its value changes.
   */
  function Put(t: Table, name: string, c: Customer): (r: Table)
    requires WellFormed(t)
    ensures WellFormed(r)
    ensures r.entries == t.entries[name := c]
    ensures r.keys == if name in t.entries then t.keys else t.keys + [name]
  {
    if name in t.entries then Table(t.keys, t.entries[name := c])
    else Table(t.keys + [name], t.entries[name := c])
  }

  lemma PutClean(t: Table, name: string, c: Customer, row: Row)
    requires WellFormed(t) && AllClean(t)
    requires Usable(row) && name == NameOf(row) && c == CustomerOf(row)
    ensures AllClean(Put(t, name, c))
  {
    CustomerOfClean(row);
  }

  /** The dict after reading `rows` in order (the header already skipped). */
  function Build(rows: seq<Row>): (t: Table)
    ensures WellFormed(t) && AllClean(t)
  {
    if rows == [] then EmptyTable
    else
      var t := Build(rows[..|rows| - 1]);
      var row := rows[|rows| - 1];
      if Usable(row) then
        PutClean(t, NameOf(row), CustomerOf(row), row);
        Put(t, NameOf(row), CustomerOf(row))
      else t
  }

  /**
    The whole file: the first row is the header and is discarded; a file
    without any row makes `next(csv_reader)` raise `StopIteration`.
   */
  function Parse(rows: seq<Row>): (r: Option<Table>)
    ensures r.None? <==> rows == []
  {
    if rows == [] then None else Some(Build(rows[1..]))
  }

  /** The loop that fills `customers`, one row at a time. */
  method LoadCustomers(rows: seq<Row>) returns (r: Option<Table>)
    ensures r == Parse(rows)
  {
    if |rows| == 0 {
      return None;
    }
    var customers := EmptyTable;
    var i := 1;
    while i < |rows|
      invariant 1 <= i <= |rows|
      invariant customers == Build(rows[1..i])
    {
      var row := rows[i];
      assert rows[1..i + 1][..i - 1] == rows[1..i];
      if |row| >= 3 {
        var name := Strip(row[0]);
        var code := Strip(row[1]);
        var environments := StripAll(Split(row[2], ','));
        customers := Put(customers, name, Customer(code, environments));
      }
      i := i + 1;
    }
    assert rows[1..i] == rows[1..];
    return Some(customers);
  }

  /** The content of the header row plays no part. */
  lemma HeaderIgnored(h1: Row, h2: Row, rest: seq<Row>)
    ensures Parse([h1] + rest) == Parse([h2] + rest)
  {
    assert ([h1] + rest)[1..] == rest == ([h2] + rest)[1..];
  }

  /** Reading one more row: a usable row is put into the table, a short one changes nothing. */
  lemma BuildStep(rows: seq<Row>, row: Row)
    ensures Build(rows + [row]) == if Usable(row) then Put(Build(rows), NameOf(row), CustomerOf(row)) else Build(rows)
  {
    assert (rows + [row])[..|rows|] == rows;
  }

  /** Some usable row among `rows` carries the name `n`. */
  ghost predicate Named(rows: seq<Row>, n: string) {
    exists i :: 0 <= i < |rows| && Usable(rows[i]) && NameOf(rows[i]) == n
  }

  lemma NamedSnoc(rows: seq<Row>, row: Row, n: string)
    ensures Named(rows + [row], n) <==> Named(rows, n) || (Usable(row) && NameOf(row) == n)
  {
    NamedSnocOld(rows, row, n);
    NamedSnocNew(rows, row, n);
  }

  lemma NamedSnocOld(rows: seq<Row>, row: Row, n: string)
    ensures Named(rows, n) ==> Named(rows + [row], n)
    ensures Usable(row) && NameOf(row) == n ==> Named(rows + [row], n)
  {
    var all := rows + [row];
    if Named(rows, n) {
      var i :| 0 <= i < |rows| && Usable(rows[i]) && NameOf(rows[i]) == n;
      assert all[i] == rows[i];
    }
    assert all[|rows|] == row;
  }

  lemma NamedSnocNew(rows: seq<Row>, row: Row, n: string)
    ensures Named(rows + [row], n) ==> Named(rows, n) || (Usable(row) && NameOf(row) == n)
  {
    var all := rows + [row];
    if Named(all, n) {
      var i :| 0 <= i < |all| && Usable(all[i]) && NameOf(all[i]) == n;
      if i < |rows| {
        assert rows[i] == all[i];
      }
    }
  }

  /** A name is a key exactly when some usable row carries it. */
  lemma {:induction false} BuildKeys(rows: seq<Row>, n: string)
    ensures n in Build(rows).entries <==> Named(rows, n)
  {
    if rows != [] {
      var init, last := rows[..|rows| - 1], rows[|rows| - 1];
      assert rows == init + [last];
      BuildKeys(init, n);
      BuildStep(init, last);
      NamedSnoc(init, last, n);
    }
  }

  /** The last usable row with a given name decides that name's entry. */
  lemma {:induction false} LastRowWins(rows: seq<Row>, i: nat)
    requires i < |rows| && Usable(rows[i])
    requires forall j :: i < j < |rows| && Usable(rows[j]) ==> NameOf(rows[j]) != NameOf(rows[i])
    ensures NameOf(rows[i]) in Build(rows).entries
    ensures Build(rows).entries[NameOf(rows[i])] == CustomerOf(rows[i])
  {
    var init, last := rows[..|rows| - 1], rows[|rows| - 1];
    assert rows == init + [last];
    BuildStep(init, last);
    if i < |rows| - 1 {
      assert init[i] == rows[i];
      forall j | i < j < |init| && Usable(init[j])
        ensures NameOf(init[j]) != NameOf(init[i])
      {
        assert init[j] == rows[j];
      }
      LastRowWins(init, i);
    }
  }

  /** The names of the usable rows, in file order, repeats included. */
  function UsableNames(rows: seq<Row>): seq<string> {
    if rows == [] then []
    else
      var init, last := rows[..|rows| - 1], rows[|rows| - 1];
      if Usable(last) then UsableNames(init) + [NameOf(last)] else UsableNames(init)
  }

  /** `s` with every repeat dropped, each element kept where it first appears. */
  function FirstOccurrences(s: seq<string>): seq<string> {
    if s == [] then []
    else
      var d := FirstOccurrences(s[..|s| - 1]);
      if s[|s| - 1] in d then d else d + [s[|s| - 1]]
  }

  /**
    The keys, and so the "Available customers" list, name each customer once,
    in the order of the first usable row that carries the name.
   */
  lemma {:induction false} KeysInFirstAppearanceOrder(rows: seq<Row>)
    ensures Build(rows).keys == FirstOccurrences(UsableNames(rows))
  {
    if rows != [] {
      var init, last := rows[..|rows| - 1], rows[|rows| - 1];
      assert rows == init + [last];
      KeysInFirstAppearanceOrder(init);
      BuildStep(init, last);
      if Usable(last) {
        var names := UsableNames(init) + [NameOf(last)];
        assert names[..|names| - 1] == UsableNames(init);
      }
    }
  }
}
