/** The bet365 record framing and the structural coupon decoder (list.parser.ts
    `records`, protocol.parser.ts `couponStructure`). */
module Bet365Records {
  import opened Domain
  import opened OrderedMaps
  import opened Texts

  type Fields = seq<(string, string)>

  datatype Record = Record(kind: string, fields: Fields)

  // --- Framing ---------------------------------------------------------------

  predicate KindOk(k: string) { |k| == 2 && 'A' <= k[0] <= 'Z' && 'A' <= k[1] <= 'Z' }

  /** Position of the first equals sign; the length if there is none. */
  function EqualsAt(s: string): (i: nat)
    ensures i <= |s| && '=' !in s[..i] && (i < |s| ==> s[i] == '=')
  {
    if s == [] || s[0] == '=' then 0 else
      var i := EqualsAt(s[1..]);
      assert s[..i + 1] == [s[0]] + s[1..][..i];
      i + 1
  }

  function ParseFields(parts: seq<string>): Option<Fields> {
    if parts == [] then Some([])
    else
      var n := |parts| - 1;
      var fields := ParseFields(parts[..n]);
      if fields.None? || parts[n] == "" then fields
      else
        var i := EqualsAt(parts[n]);
        if i == 0 || i == |parts[n]| then None else Some(Put(fields.value, parts[n][..i], parts[n][i + 1..]))
  }

  function ParseRow(row: string): Option<Record> {
    var parts := Split(row, ';');
    if !KindOk(parts[0]) then None
    else
      var fields := ParseFields(parts[1..]);
      if fields.None? then None else Some(Record(parts[0], fields.value))
  }

  function ParseRows(rows: seq<string>): Option<seq<Record>> {
    if rows == [] then Some([])
    else
      var n := |rows| - 1;
      var rs := ParseRows(rows[..n]);
      if rs.None? || rows[n] == "" then rs
      else
        var r := ParseRow(rows[n]);
        if r.None? then None else Some(rs.value + [r.value])
  }

  /** A full feed's records; None where the source throws. */
  function Records(body: string): Option<seq<Record>> {
    if |body| < 2 || body[..2] != "F|" then None else ParseRows(Split(body[2..], '|'))
  }

  method ReadRecords(body: string) returns (rs: Option<seq<Record>>)
    ensures rs == Records(body)
  {
    if |body| < 2 || body[..2] != "F|" { return None; }
    var rows := Split(body[2..], '|');
    var result: seq<Record> := [];
    for i := 0 to |rows|
      invariant ParseRows(rows[..i]) == Some(result)
    {
      assert rows[..i + 1][..i] == rows[..i];
      if rows[i] != "" {
        var r := ReadRow(rows[i]);
        if r.None? {
          RowsFail(rows, i + 1);
          return None;
        }
        result := result + [r.value];
      }
    }
    assert rows[..|rows|] == rows;
    rs := Some(result);
  }

  method ReadRow(row: string) returns (r: Option<Record>)
    ensures r == ParseRow(row)
  {
    var parts := Split(row, ';');
    if !KindOk(parts[0]) { return None; }
    var rest, fields := parts[1..], [];
    for i := 0 to |rest|
      invariant ParseFields(rest[..i]) == Some(fields)
    {
      assert rest[..i + 1][..i] == rest[..i];
      if rest[i] != "" {
        var at := EqualsAt(rest[i]);
        if at == 0 || at == |rest[i]| {
          FieldsFail(rest, i + 1);
          return None;
        }
        fields := Put(fields, rest[i][..at], rest[i][at + 1..]);
      }
    }
    assert rest[..|rest|] == rest;
    r := Some(Record(parts[0], fields));
  }

  lemma {:induction false} RowsFail(rows: seq<string>, n: nat)
    requires n <= |rows| && ParseRows(rows[..n]).None?
    ensures ParseRows(rows).None?
    decreases |rows| - n
  {
    if n == |rows| {
      assert rows[..n] == rows;
    } else {
      assert rows[..n + 1][..n] == rows[..n];
      RowsFail(rows, n + 1);
    }
  }

  lemma {:induction false} FieldsFail(parts: seq<string>, n: nat)
    requires n <= |parts| && ParseFields(parts[..n]).None?
    ensures ParseFields(parts).None?
    decreases |parts| - n
  {
    if n == |parts| {
      assert parts[..n] == parts;
    } else {
      assert parts[..n + 1][..n] == parts[..n];
      FieldsFail(parts, n + 1);
    }
  }

  // --- The printer -----------------------------------------------------------

  predicate NoSeparator(s: string) { ';' !in s && '|' !in s }

  predicate RecordOk(r: Record) {
    && KindOk(r.kind) && Distinct(r.fields)
    && forall f :: f in r.fields ==> f.0 != "" && '=' !in f.0 && NoSeparator(f.0) && NoSeparator(f.1)
  }

  function PrintFields(fs: Fields): seq<string> {
    if fs == [] then [] else PrintFields(fs[..|fs| - 1]) + [fs[|fs| - 1].0 + "=" + fs[|fs| - 1].1]
  }

  function PrintRow(r: Record): string { Join([r.kind] + PrintFields(r.fields) + [""], ';') }

  function PrintRows(rs: seq<Record>): seq<string> {
    if rs == [] then [] else PrintRows(rs[..|rs| - 1]) + [PrintRow(rs[|rs| - 1])]
  }

  function Print(rs: seq<Record>): string { "F|" + Join(PrintRows(rs) + [""], '|') }

  lemma {:induction false} EqualsAfter(k: string, v: string)
    requires '=' !in k
    ensures EqualsAt(k + "=" + v) == |k|
  {
    var s := k + "=" + v;
    if k == [] {
      assert s[0] == '=';
    } else {
      assert s[1..] == k[1..] + "=" + v;
      EqualsAfter(k[1..], v);
    }
  }

  lemma {:induction false} PutNew(fs: Fields, k: string, v: string)
    requires Get(fs, k).None?
    ensures Put(fs, k, v) == fs + [(k, v)]
  {
    if fs != [] {
      PutNew(fs[1..], k, v);
      assert [fs[0]] + (fs[1..] + [(k, v)]) == fs + [(k, v)];
    }
  }

  lemma {:induction false} FrontDistinct(fs: Fields)
    requires Distinct(fs) && fs != []
    ensures Distinct(fs[..|fs| - 1]) && Get(fs[..|fs| - 1], fs[|fs| - 1].0).None?
  {
    GetHas(fs[..|fs| - 1], fs[|fs| - 1].0);
  }

  lemma {:induction false} FieldStep(parts: seq<string>, k: string, v: string)
    requires ParseFields(parts).Some? && k != "" && '=' !in k
    ensures ParseFields(parts + [k + "=" + v]) == Some(Put(ParseFields(parts).value, k, v))
  {
    var part := k + "=" + v;
    assert (parts + [part])[..|parts|] == parts;
    EqualsAfter(k, v);
    assert part[..|k|] == k && part[|k| + 1..] == v;
  }

  lemma {:induction false} FieldsRoundTrip(fs: Fields)
    requires Distinct(fs) && forall f :: f in fs ==> f.0 != "" && '=' !in f.0
    ensures ParseFields(PrintFields(fs)) == Some(fs)
  {
    if fs != [] {
      var n := |fs| - 1;
      FrontDistinct(fs);
      FieldsRoundTrip(fs[..n]);
      FieldStep(PrintFields(fs[..n]), fs[n].0, fs[n].1);
      PutNew(fs[..n], fs[n].0, fs[n].1);
      assert fs[..n] + [(fs[n].0, fs[n].1)] == fs;
    }
  }

  lemma {:induction false} FieldsClean(fs: Fields)
    requires forall f :: f in fs ==> NoSeparator(f.0) && NoSeparator(f.1)
    ensures forall p :: p in PrintFields(fs) ==> NoSeparator(p)
  {
    if fs != [] { FieldsClean(fs[..|fs| - 1]); }
  }

  lemma {:induction false} RowRoundTrip(r: Record)
    requires RecordOk(r)
    ensures ParseRow(PrintRow(r)) == Some(r)
  {
    var parts := [r.kind] + PrintFields(r.fields) + [""];
    FieldsClean(r.fields);
    assert forall p :: p in parts ==> ';' !in p;
    SplitJoin(parts, ';');
    assert parts[1..] == PrintFields(r.fields) + [""];
    FieldsRoundTrip(r.fields);
  }

  lemma {:induction false} JoinClean(parts: seq<string>, c: char, d: char)
    requires c != d && forall p :: p in parts ==> d !in p
    ensures d !in Join(parts, c)
  {
    if |parts| > 1 { JoinClean(parts[1..], c, d); }
  }

  lemma {:induction false} RowClean(r: Record)
    requires RecordOk(r)
    ensures '|' !in PrintRow(r) && PrintRow(r) != ""
  {
    FieldsClean(r.fields);
    var parts := [r.kind] + PrintFields(r.fields) + [""];
    assert forall p :: p in parts ==> '|' !in p;
    JoinClean(parts, ';', '|');
    assert parts[0] == r.kind;
  }

  lemma {:induction false} RowsRoundTrip(rs: seq<Record>)
    requires forall r :: r in rs ==> RecordOk(r)
    ensures ParseRows(PrintRows(rs)) == Some(rs) && forall p :: p in PrintRows(rs) ==> '|' !in p
  {
    if rs != [] {
      var n := |rs| - 1;
      RowsRoundTrip(rs[..n]);
      RowClean(rs[n]);
      RowRoundTrip(rs[n]);
      assert PrintRows(rs)[..|PrintRows(rs)| - 1] == PrintRows(rs[..n]);
      assert rs[..n] + [rs[n]] == rs;
    }
  }

  /** The framing inverts the printer on all well-formed record lists. */
  lemma {:induction false} RecordsInvertPrint(rs: seq<Record>)
    requires forall r :: r in rs ==> RecordOk(r)
    ensures Records(Print(rs)) == Some(rs)
  {
    RowsRoundTrip(rs);
    var rows := PrintRows(rs) + [""];
    SplitJoin(rows, '|');
    assert Print(rs)[..2] == "F|" && Print(rs)[2..] == Join(rows, '|');
    assert rows[..|rows| - 1] == PrintRows(rs);
  }

  // --- Every reading is well formed ------------------------------------------

  lemma {:induction false} PutOk(fs: Fields, k: string, v: string)
    requires Distinct(fs) && forall f :: f in fs ==> f.0 != "" && '=' !in f.0 && NoSeparator(f.0) && NoSeparator(f.1)
    requires k != "" && '=' !in k && NoSeparator(k) && NoSeparator(v)
    ensures Distinct(Put(fs, k, v)) && forall f :: f in Put(fs, k, v) ==> f.0 != "" && '=' !in f.0 && NoSeparator(f.0) && NoSeparator(f.1)
  {
    PutDistinct(fs, k, v);
    PutElements(fs, k, v);
  }

  lemma {:induction false} PutElements(fs: Fields, k: string, v: string)
    ensures forall f :: f in Put(fs, k, v) ==> f == (k, v) || f in fs
  {
    if fs != [] && fs[0].0 != k { PutElements(fs[1..], k, v); }
  }

  lemma {:induction false} ParsedFieldsOk(parts: seq<string>)
    requires (forall p :: p in parts ==> NoSeparator(p)) && ParseFields(parts).Some?
    ensures var fs := ParseFields(parts).value;
            Distinct(fs) && forall f :: f in fs ==> f.0 != "" && '=' !in f.0 && NoSeparator(f.0) && NoSeparator(f.1)
  {
    if parts != [] {
      var n := |parts| - 1;
      ParsedFieldsOk(parts[..n]);
      if parts[n] != "" {
        assert NoSeparator(parts[n]);
        var i := EqualsAt(parts[n]);
        PutOk(ParseFields(parts[..n]).value, parts[n][..i], parts[n][i + 1..]);
      }
    }
  }

  lemma {:induction false} SplitSubset(s: string, c: char, d: char)
    requires d !in s
    ensures forall p :: p in Split(s, c) ==> d !in p
  {
    if s != [] {
      SplitSubset(s[1..], c, d);
      var rest := Split(s[1..], c);
      assert rest[0] in rest;
    }
  }

  lemma {:induction false} ParsedRowOk(row: string)
    requires '|' !in row && ParseRow(row).Some?
    ensures RecordOk(ParseRow(row).value)
  {
    var parts := Split(row, ';');
    SplitClean(row, ';');
    SplitSubset(row, ';', '|');
    forall p | p in parts[1..] ensures NoSeparator(p) { assert p in parts; }
    ParsedFieldsOk(parts[1..]);
  }

  lemma {:induction false} ParsedRowsOk(rows: seq<string>)
    requires (forall p :: p in rows ==> '|' !in p) && ParseRows(rows).Some?
    ensures forall r :: r in ParseRows(rows).value ==> RecordOk(r)
  {
    if rows != [] {
      var n := |rows| - 1;
      ParsedRowsOk(rows[..n]);
      if rows[n] != "" {
        assert rows[n] in rows;
        ParsedRowOk(rows[n]);
      }
    }
  }

  /** Whatever a feed looks like, what is read from it is well formed, and printing
      and reading it again gives the same records. */
  lemma {:induction false} RecordsNormalise(body: string)
    requires Records(body).Some?
    ensures (forall r :: r in Records(body).value ==> RecordOk(r)) && Records(Print(Records(body).value)) == Records(body)
  {
    SplitClean(body[2..], '|');
    ParsedRowsOk(Split(body[2..], '|'));
    RecordsInvertPrint(Records(body).value);
  }

  // --- What is read ----------------------------------------------------------

  /** The part states a value for the key. */
  predicate Names(part: string, k: string) {
    k != "" && '=' !in k && |k| < |part| && part[..|k|] == k && part[|k|] == '='
  }

  lemma {:induction false} NamesIff(part: string, k: string)
    ensures Names(part, k) <==> 0 < EqualsAt(part) < |part| && part[..EqualsAt(part)] == k
  {
    if Names(part, k) {
      assert part == k + "=" + part[|k| + 1..];
      EqualsAfter(k, part[|k| + 1..]);
    }
  }

  /** The last part that states a value for the key. */
  ghost predicate LastNaming(parts: seq<string>, k: string, i: int) {
    0 <= i < |parts| && Names(parts[i], k) && forall j :: i < j < |parts| ==> !Names(parts[j], k)
  }

  lemma {:induction false} FieldMeans(parts: seq<string>, k: string)
    requires ParseFields(parts).Some?
    ensures var v := Get(ParseFields(parts).value, k);
            && (v.None? ==> forall p :: p in parts ==> !Names(p, k))
            && (v.Some? ==> exists i :: LastNaming(parts, k, i) && v.value == parts[i][|k| + 1..])
  {
    if parts != [] {
      var n := |parts| - 1;
      var front, part := parts[..n], parts[n];
      FieldMeans(front, k);
      NamesIff(part, k);
      if part != "" { GetPut(ParseFields(front).value, part[..EqualsAt(part)], part[EqualsAt(part) + 1..], k); }
      if Names(part, k) {
        assert LastNaming(parts, k, n);
      } else {
        var v := Get(ParseFields(front).value, k);
        if v.Some? {
          var i :| LastNaming(front, k, i) && v.value == front[i][|k| + 1..];
          assert LastNaming(parts, k, i);
        }
      }
    }
  }

  /** Each part is empty or has a name before its first equals sign. */
  predicate FieldShaped(part: string) { part == "" || ('=' in part && part[0] != '=') }

  lemma {:induction false} FieldsReadIff(parts: seq<string>)
    ensures ParseFields(parts).Some? <==> forall p :: p in parts ==> FieldShaped(p)
  {
    if parts != [] {
      var n := |parts| - 1;
      FieldsReadIff(parts[..n]);
      forall p ensures p in parts <==> p in parts[..n] || p == parts[n] { assert parts == parts[..n] + [parts[n]]; }
      var i := EqualsAt(parts[n]);
      assert parts[n] == parts[n][..i] + parts[n][i..];
      assert FieldShaped(parts[n]) <==> parts[n] == "" || 0 < i < |parts[n]|;
    }
  }

  /** Two capital letters, then the fields. */
  predicate RowShaped(parts: seq<string>)
    requires parts != []
  {
    && |parts[0]| == 2 && 'A' <= parts[0][0] <= 'Z' && 'A' <= parts[0][1] <= 'Z'
    && forall p :: p in parts[1..] ==> FieldShaped(p)
  }

  lemma {:induction false} RowsReadIff(rows: seq<string>)
    ensures ParseRows(rows).Some? <==> forall row :: row in rows && row != "" ==> RowShaped(Split(row, ';'))
  {
    if rows != [] {
      var n := |rows| - 1;
      RowsReadIff(rows[..n]);
      FieldsReadIff(Split(rows[n], ';')[1..]);
      forall row ensures row in rows <==> row in rows[..n] || row == rows[n] { assert rows == rows[..n] + [rows[n]]; }
    }
  }

  /** A body is read iff it is a full feed whose rows are empty or well shaped. */
  lemma {:induction false} RecordsReadIff(body: string)
    ensures Records(body).Some? <==>
              && |body| >= 2 && body[0] == 'F' && body[1] == '|'
              && forall row :: row in Split(body[2..], '|') && row != "" ==> RowShaped(Split(row, ';'))
  {
    if |body| >= 2 {
      assert body[..2] == [body[0], body[1]];
      RowsReadIff(Split(body[2..], '|'));
    }
  }

  /** A row's record has the row's kind, and for each key the last value stated for it. */
  lemma {:induction false} RowMeans(row: string, k: string)
    requires ParseRow(row).Some?
    ensures var parts, r := Split(row, ';'), ParseRow(row).value;
            && r.kind == parts[0]
            && (Get(r.fields, k).None? ==> forall p :: p in parts[1..] ==> !Names(p, k))
            && (Get(r.fields, k).Some? ==> exists i :: LastNaming(parts[1..], k, i) && Get(r.fields, k).value == parts[1..][i][|k| + 1..])
  {
    FieldMeans(Split(row, ';')[1..], k);
  }
}
