/**
 * The CQL text the reconciliation pass sends to the column store: the summary
 * scan, the lookup of full rows by id, and the prepared INSERT and UPDATE
 * statements with their `?` placeholders.
 */
module Statements {

  /** Python's `sep.join(parts)`. */
  function Join(sep: string, parts: seq<string>): string {
    if parts == [] then ""
    else if |parts| == 1 then parts[0]
    else parts[0] + sep + Join(sep, parts[1..])
  }

  /** Python's `s.split(c)` for a one-character separator. */
  function Split(s: string, c: char): (parts: seq<string>)
    ensures |parts| > 0
    decreases |s|
  {
    if c !in s then [s]
    else
      var i := IndexOf(s, c);
      [s[..i]] + Split(s[i + 1..], c)
  }

  /** The first position of `c` in `s`. */
  function IndexOf(s: string, c: char): (i: nat)
    requires c in s
    ensures i < |s| && s[i] == c && c !in s[..i]
  {
    if s[0] == c then 0
    else
      assert c in s[1..] by { var k :| 0 <= k < |s| && s[k] == c; assert s[1..][k - 1] == c; }
      var j := IndexOf(s[1..], c);
      assert s[..j + 1] == [s[0]] + s[1..][..j];
      j + 1
  }

  /** How many times `c` occurs in `s`. */
  function Count(c: char, s: string): nat {
    if s == [] then 0 else (if s[0] == c then 1 else 0) + Count(c, s[1..])
  }

  /** How many times `c` occurs in all of `parts` together. */
  function CountAll(c: char, parts: seq<string>): nat {
    if parts == [] then 0 else Count(c, parts[0]) + CountAll(c, parts[1..])
  }

  /** `["?"] * n`. */
  function Marks(n: nat): (r: seq<string>)
    ensures |r| == n && forall i :: 0 <= i < n ==> r[i] == "?"
  {
    seq(n, i => "?")
  }

  /** `[field + " = ?" for field in fields]`. */
  function Assignments(fields: seq<string>): (r: seq<string>)
    ensures |r| == |fields| && forall i :: 0 <= i < |fields| ==> r[i] == fields[i] + " = ?"
  {
    seq(|fields|, i requires 0 <= i < |fields| => fields[i] + " = ?")
  }

  /** The summary scan: every row's id and timestamp. */
  function ScanQuery(cf: string, idColumn: string, timestampColumn: string): string {
    "SELECT " + idColumn + ", " + timestampColumn + " FROM " + cf
  }

  /** The lookup of full rows by id; the ids go into the IN list as they are. */
  function LookupQuery(cf: string, fields: seq<string>, idColumn: string, ids: seq<string>): string {
    "SELECT " + Join(",", fields) + " FROM " + cf + " WHERE " + idColumn + " IN (" + Join(",", ids) + ")"
  }

  function InsertStatement(cf: string, columns: seq<string>): string {
    "INSERT INTO " + cf + " (" + Join(",", columns) + ") VALUES (" + Join(",", Marks(|columns|)) + ")"
  }

  function UpdateStatement(cf: string, idColumn: string, fields: seq<string>): string {
    "UPDATE " + cf + " SET " + Join(",", Assignments(fields)) + " WHERE " + idColumn + " = ?"
  }

  /** No name contains a `?`, so every `?` in a statement is a placeholder. */
  predicate NoMarks(names: seq<string>) {
    forall i :: 0 <= i < |names| ==> '?' !in names[i]
  }

  lemma {:induction false} CountAppend(c: char, a: string, b: string)
    ensures Count(c, a + b) == Count(c, a) + Count(c, b)
  {
    if a == [] {
      assert a + b == b;
    } else {
      assert (a + b)[0] == a[0] && (a + b)[1..] == a[1..] + b;
      CountAppend(c, a[1..], b);
    }
  }

  lemma {:induction false} CountAbsent(c: char, s: string)
    requires c !in s
    ensures Count(c, s) == 0
  {
    if s != [] {
      assert s == [s[0]] + s[1..];
      CountAbsent(c, s[1..]);
    }
  }

  /** Joining with a separator that does not contain `c` adds no `c`. */
  lemma {:induction false} CountJoin(c: char, sep: string, parts: seq<string>)
    requires c !in sep
    ensures Count(c, Join(sep, parts)) == CountAll(c, parts)
  {
    if |parts| > 1 {
      CountJoin(c, sep, parts[1..]);
      CountAppend(c, parts[0], sep);
      CountAppend(c, parts[0] + sep, Join(sep, parts[1..]));
      CountAbsent(c, sep);
    } else if |parts| == 1 {
      assert parts[1..] == [];
    }
  }

  lemma {:induction false} CountAllNoMarks(names: seq<string>)
    requires NoMarks(names)
    ensures CountAll('?', names) == 0
  {
    if names != [] {
      CountAbsent('?', names[0]);
      CountAllNoMarks(names[1..]);
    }
  }

  lemma {:induction false} CountAllMarks(n: nat)
    ensures CountAll('?', Marks(n)) == n
  {
    if n > 0 {
      assert Marks(n)[1..] == Marks(n - 1);
      CountAllMarks(n - 1);
    }
  }

  lemma {:induction false} CountAllAssignments(fields: seq<string>)
    requires NoMarks(fields)
    ensures CountAll('?', Assignments(fields)) == |fields|
  {
    if fields != [] {
      assert Assignments(fields)[1..] == Assignments(fields[1..]);
      CountAppend('?', fields[0] + " = ", "?");
      CountAppend('?', fields[0], " = ");
      CountAppend('?', "?", []);
      CountAbsent('?', fields[0]);
      CountAbsent('?', " = ");
      assert fields[0] + " = ?" == fields[0] + " = " + "?";
      CountAllAssignments(fields[1..]);
    }
  }

  /** The INSERT statement has exactly one placeholder per column it names. */
  lemma InsertPlaceholders(cf: string, columns: seq<string>)
    requires '?' !in cf && NoMarks(columns)
    ensures Count('?', InsertStatement(cf, columns)) == |columns|
  {
    var cols, marks := Join(",", columns), Join(",", Marks(|columns|));
    CountJoin('?', ",", columns);
    CountAllNoMarks(columns);
    CountJoin('?', ",", Marks(|columns|));
    CountAllMarks(|columns|);
    var head := "INSERT INTO " + cf + " (";
    var middle := ") VALUES (";
    CountAbsent('?', head);
    CountAbsent('?', middle);
    CountAbsent('?', ")");
    CountAppend('?', head, cols);
    CountAppend('?', head + cols, middle);
    CountAppend('?', head + cols + middle, marks);
    CountAppend('?', head + cols + middle + marks, ")");
  }

  /** The UPDATE statement has one placeholder per assigned field and one for the id. */
  lemma UpdatePlaceholders(cf: string, idColumn: string, fields: seq<string>)
    requires '?' !in cf && '?' !in idColumn && NoMarks(fields)
    ensures Count('?', UpdateStatement(cf, idColumn, fields)) == |fields| + 1
  {
    var sets := Join(",", Assignments(fields));
    CountJoin('?', ",", Assignments(fields));
    CountAllAssignments(fields);
    var head := "UPDATE " + cf + " SET ";
    var middle := " WHERE " + idColumn + " = ";
    CountAbsent('?', head);
    CountAbsent('?', middle);
    CountAppend('?', "?", []);
    CountAppend('?', head, sets);
    CountAppend('?', head + sets, middle);
    CountAppend('?', head + sets + middle, "?");
    assert UpdateStatement(cf, idColumn, fields) == head + sets + middle + "?";
  }

  lemma IndexOfAt(s: string, c: char, k: nat)
    requires k < |s| && s[k] == c && c !in s[..k]
    ensures IndexOf(s, c) == k
  {
  }

  /**
   * Joining with `c` loses nothing: when no part contains `c`, splitting the
   * joined text at `c` gives the parts back.
   */
  lemma {:induction false} SplitJoin(parts: seq<string>, c: char)
    requires |parts| > 0
    requires forall i :: 0 <= i < |parts| ==> c !in parts[i]
    ensures Split(Join([c], parts), c) == parts
  {
    if |parts| > 1 {
      var rest := Join([c], parts[1..]);
      var s := parts[0] + [c] + rest;
      assert Join([c], parts) == s;
      assert s[..|parts[0]|] == parts[0];
      assert s[|parts[0]|] == c;
      IndexOfAt(s, c, |parts[0]|);
      assert s[|parts[0]| + 1..] == rest;
      SplitJoin(parts[1..], c);
    }
  }
}
