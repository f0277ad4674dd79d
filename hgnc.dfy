/**
 * The HGNC symbol table: approved symbols and their aliases mapped to the
 * numeric HGNC identifier. Reading the tab-separated file is not modelled;
 * the table is built from rows that are already parsed.
 */
module Hgnc {
  import opened Wrappers
  import opened Text
  import opened Patterns

  /** One row of the HGNC file, with the three columns that are read. */
  datatype Definition = Definition(hgncId: string, symbol: string, aliasSymbol: string)

  /** The keys an accepted row inserts, in insertion order: the symbol, then each `|`-separated alias. */
  function RowKeys(d: Definition): (keys: seq<string>)
    ensures |keys| >= 1 && keys[0] == d.symbol
  {
    match AliasGroup(d.aliasSymbol)
    case None => [d.symbol]
    case Some(g) => [d.symbol] + Split(g, '|')
  }

  /** Inserting `keys` one after another, all with the value `v`. */
  function InsertAll(m: map<string, string>, keys: seq<string>, v: string): (r: map<string, string>)
    ensures forall k :: k in r <==> k in m || k in keys
    ensures forall k :: k in keys ==> r[k] == v
    ensures forall k :: k in m && k !in keys ==> r[k] == m[k]
    decreases keys
  {
    if keys == [] then m else InsertAll(m[keys[0] := v], keys[1..], v)
  }

  lemma {:induction false} InsertAllSnoc(m: map<string, string>, keys: seq<string>, k: string, v: string)
    ensures InsertAll(m, keys + [k], v) == InsertAll(m, keys, v)[k := v]
    decreases keys
  {
    if keys != [] {
      assert (keys + [k])[1..] == keys[1..] + [k];
      InsertAllSnoc(m[keys[0] := v], keys[1..], k, v);
    } else {
      assert [] + [k] == [k];
      assert [k][1..] == [];
    }
  }

  /**
   * The table after reading `rows` in order: a row without `HGNC:<digits>`
   * adds nothing; otherwise its keys map to the captured digits, over
   * whatever an earlier row stored under them.
   */
  function Definitions(rows: seq<Definition>): map<string, string>
  {
    if rows == [] then map[]
    else
      var m := Definitions(rows[..|rows| - 1]);
      var d := rows[|rows| - 1];
      match HgncNumber(d.hgncId)
      case None => m
      case Some(id) => InsertAll(m, RowKeys(d), id)
  }

  /** The loaded table. */
  datatype HGNC = HGNC(definitions: map<string, string>)
  {
    /** `HGNC::find`: the stored identifier for the symbol, or nothing. */
    function Find(symbol: string): (r: Option<string>)
      ensures r.Some? <==> symbol in definitions
      ensures r.Some? ==> r.value == definitions[symbol]
    {
      if symbol in definitions then Some(definitions[symbol]) else None
    }
  }

  /** The table-building loop of `HGNC::from_path`, over rows that are already parsed. */
  method FromRows(rows: seq<Definition>) returns (h: HGNC)
    ensures h.definitions == Definitions(rows)
  {
    var definitions: map<string, string> := map[];
    for i := 0 to |rows|
      invariant definitions == Definitions(rows[..i])
    {
      var row := rows[i];
      assert rows[..i + 1][..i] == rows[..i];
      var caps := HgncNumber(row.hgncId);
      if caps.Some? {
        var id := caps.value;
        ghost var before := definitions;
        definitions := definitions[row.symbol := id];
        assert definitions == InsertAll(before, [row.symbol], id) by {
          assert [row.symbol][1..] == [];
        }
        var alias := AliasGroup(row.aliasSymbol);
        if alias.Some? {
          var pieces := Split(alias.value, '|');
          for j := 0 to |pieces|
            invariant definitions == InsertAll(before, [row.symbol] + pieces[..j], id)
          {
            InsertAllSnoc(before, [row.symbol] + pieces[..j], pieces[j], id);
            assert [row.symbol] + pieces[..j + 1] == [row.symbol] + pieces[..j] + [pieces[j]];
            definitions := definitions[pieces[j] := id];
          }
          assert pieces[..|pieces|] == pieces;
        }
      }
    }
    assert rows[..|rows|] == rows;
    h := HGNC(definitions);
  }

  /** A row without `HGNC:<digits>` in its identifier column leaves the table as it was. */
  lemma RejectedRow(rows: seq<Definition>, d: Definition)
    requires HgncNumber(d.hgncId).None?
    ensures Definitions(rows + [d]) == Definitions(rows)
  {
    assert (rows + [d])[..|rows|] == rows;
  }

  /**
   * After an accepted row, its symbol and every alias piece map to the
   * row's digits, whatever they mapped to before, and every other key
   * keeps its earlier value.
   */
  lemma AcceptedRow(rows: seq<Definition>, d: Definition, id: string)
    requires HgncNumber(d.hgncId) == Some(id)
    ensures var m := Definitions(rows + [d]);
      d.symbol in m && m[d.symbol] == id
    ensures var m := Definitions(rows + [d]);
      forall g :: AliasGroup(d.aliasSymbol) == Some(g) ==>
        forall p :: p in Split(g, '|') ==> p in m && m[p] == id
    ensures var m := Definitions(rows + [d]); var old_ := Definitions(rows);
      forall k :: k in old_ && k !in RowKeys(d) ==> k in m && m[k] == old_[k]
  {
    assert (rows + [d])[..|rows|] == rows;
  }
}
