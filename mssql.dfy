/** The logic of the MSSQL client adapter that does not depend on the server
    (vectordb_bench/backend/clients/mssql/mssql.py): how the table is named,
    how a batch insert builds its parameters and reports `(count, error)`,
    and how fetched rows become ids. The server is abstract: what the driver
    does is a parameter of each operation. */
module Mssql {
  import opened Wrappers
  import MssqlConfig

  const DEFAULT_COLLECTION := "vector"
  const SCHEMA_NAME := "benchmark"

  // ----- Python's str(int) -----

  predicate IsDigit(c: char) {
    '0' <= c <= '9'
  }

  predicate AllDigits(s: string) {
    forall i :: 0 <= i < |s| ==> IsDigit(s[i])
  }

  function DigitChar(d: int): (c: char)
    requires 0 <= d < 10
  {
    ('0' as int + d) as char
  }

  function DigitValue(c: char): (d: int)
    requires IsDigit(c)
  {
    c as int - '0' as int
  }

  /** Decimal digits of a natural number, most significant first, no leading zero. */
  function NatText(n: nat): (s: string)
    ensures |s| > 0 && AllDigits(s)
    ensures n == 0 ==> s == "0"
    ensures n > 0 ==> s[0] != '0'
    decreases n
  {
    if n < 10 then [DigitChar(n)] else NatText(n / 10) + [DigitChar(n % 10)]
  }

  function ParseDigits(s: string): (n: nat)
    requires AllDigits(s)
  {
    if s == [] then 0 else 10 * ParseDigits(s[..|s| - 1]) + DigitValue(s[|s| - 1])
  }

  /** `str(n)` for an int: a minus sign for negative values, then the digits. */
  function IntText(n: int): (s: string)
  {
    if n < 0 then "-" + NatText(-n) else NatText(n)
  }

  /** Reads back an optional minus sign followed by at least one digit. */
  function ParseIntText(s: string): (r: Option<int>)
  {
    if |s| > 1 && s[0] == '-' && AllDigits(s[1..]) then Some(-(ParseDigits(s[1..]) as int))
    else if |s| > 0 && AllDigits(s) then Some(ParseDigits(s))
    else None
  }

  /** Digits without a leading zero ("0" itself aside). */
  predicate CanonicalDigits(s: string) {
    |s| > 0 && AllDigits(s) && (|s| == 1 || s[0] != '0')
  }

  /** The shape of `str(n)` for an int: canonical digits, optionally after a
      minus sign, and never "-0". */
  predicate CanonicalIntText(s: string) {
    CanonicalDigits(s) || (|s| > 1 && s[0] == '-' && CanonicalDigits(s[1..]) && s[1] != '0')
  }

  lemma {:induction false} NatTextRoundTrip(n: nat)
    ensures ParseDigits(NatText(n)) == n
    decreases n
  {
    if n >= 10 {
      var s := NatText(n);
      assert s[..|s| - 1] == NatText(n / 10);
      NatTextRoundTrip(n / 10);
    }
  }

  lemma {:induction false} ParseDigitsPositive(s: string)
    requires CanonicalDigits(s) && s[0] != '0'
    ensures ParseDigits(s) > 0
  {
    if |s| > 1 {
      ParseDigitsPositive(s[..|s| - 1]);
    }
  }

  /** Canonical digits are the text of the number they read as. */
  lemma {:induction false} CanonicalDigitsUnique(s: string)
    requires CanonicalDigits(s)
    ensures NatText(ParseDigits(s)) == s
  {
    if |s| > 1 {
      var init := s[..|s| - 1];
      ParseDigitsPositive(init);
      CanonicalDigitsUnique(init);
      var n := ParseDigits(s);
      assert n / 10 == ParseDigits(init) && n % 10 == DigitValue(s[|s| - 1]);
      assert s == init + [s[|s| - 1]];
    }
  }

  /** `str(n)` has the canonical shape ... */
  lemma IntTextCanonical(n: int)
    ensures CanonicalIntText(IntText(n))
  {
    if n < 0 {
      assert IntText(n)[1..] == NatText(-n);
    }
  }

  /** ... and the canonical shape pins the text: a canonical string that reads
      as `n` is `str(n)`. */
  lemma CanonicalIntTextUnique(s: string, n: int)
    requires CanonicalIntText(s) && ParseIntText(s) == Some(n)
    ensures s == IntText(n)
  {
    if CanonicalDigits(s) {
      CanonicalDigitsUnique(s);
    } else {
      ParseDigitsPositive(s[1..]);
      CanonicalDigitsUnique(s[1..]);
      assert s == "-" + s[1..];
    }
  }

  lemma IntTextRoundTrip(n: int)
    ensures ParseIntText(IntText(n)) == Some(n)
  {
    if n < 0 {
      var s := IntText(n);
      assert s[1..] == NatText(-n);
      NatTextRoundTrip(-n);
    } else {
      NatTextRoundTrip(n);
    }
  }

  // ----- naming (MSSQL.__init__) -----

  /** `collection_name + "_" + str(dim)`: the collection name, an underscore,
      and text that reads back as `dim`. */
  function TableName(collection: string, dim: int): (r: string)
    ensures |r| > |collection| + 1
    ensures r[..|collection| + 1] == collection + "_"
    ensures ParseIntText(r[|collection| + 1..]) == Some(dim)
    ensures CanonicalIntText(r[|collection| + 1..])
  {
    IntTextRoundTrip(dim);
    IntTextCanonical(dim);
    var r := collection + "_" + IntText(dim);
    assert r[|collection| + 1..] == IntText(dim);
    r
  }

  /** Within one collection, different dimensions give different tables. */
  lemma TableNameInjective(collection: string, dim1: int, dim2: int)
    ensures TableName(collection, dim1) == TableName(collection, dim2) <==> dim1 == dim2
  {
  }

  /** With the default collection the table is "vector_" followed by `str(dim)`. */
  lemma DefaultTableName(dim: int)
    ensures TableName(DEFAULT_COLLECTION, dim) == "vector_" + IntText(dim)
  {
    var r := TableName(DEFAULT_COLLECTION, dim);
    CanonicalIntTextUnique(r[7..], dim);
    assert r == r[..7] + r[7..];
  }

  // ----- insert_embeddings -----

  /** The exceptions the adapter's code paths can raise. */
  datatype Exception =
    | IndexError              // embeddings[i] past the end of embeddings
    | AttributeError          // self.cnxn read before init, or row.id on a row without an id column
    | ClosedConnection        // a cursor asked of a closed connection
    | DriverError(message: string)  // whatever the driver or the server reports

  /** The second field of `insert_embeddings`' result is Python's `None` or the exception. */
  datatype InsertResult = InsertResult(count: nat, error: Option<Exception>)

  /** The parameter list of mssql.py:120: for each index of `metadata`, the id
      paired with the text of the embedding at the same index, with `str` of
      a vector given as `render`. */
  function InsertParams<V>(embeddings: seq<V>, metadata: seq<int>, render: V -> string): (r: Result<seq<(int, string)>, Exception>)
    ensures r.Ok? <==> |metadata| <= |embeddings|
    ensures r.Err? ==> r.error == IndexError
    ensures r.Ok? ==> |r.value| == |metadata|
    ensures r.Ok? ==> forall i :: 0 <= i < |metadata| ==> r.value[i] == (metadata[i], render(embeddings[i]))
    decreases |metadata|
  {
    if metadata == [] then Ok([])
    else if embeddings == [] then Err(IndexError)
    else
      match InsertParams(embeddings[1..], metadata[1..], render)
      case Ok(rest) => Ok([(metadata[0], render(embeddings[0]))] + rest)
      case Err(e) => Err(e)
  }

  /** Embeddings beyond the number of ids play no part in the insert. */
  lemma InsertParamsIgnoresExtra<V>(embeddings: seq<V>, extra: seq<V>, metadata: seq<int>, render: V -> string)
    requires |metadata| <= |embeddings|
    ensures InsertParams(embeddings + extra, metadata, render) == InsertParams(embeddings, metadata, render)
  {
    var a := InsertParams(embeddings + extra, metadata, render).value;
    var b := InsertParams(embeddings, metadata, render).value;
    assert forall i :: 0 <= i < |metadata| ==> (embeddings + extra)[i] == embeddings[i];
    assert a == b;
  }

  /** The `(count, error)` pair `insert_embeddings` returns: the parameter list
      is built first, then the connection is used, then the driver runs the
      insert and the commit (`driverFailure` is what it raises, if anything).
      Every exception is caught and reported as `(0, e)`. */
  function InsertOutcome<V>(cnxn: Option<Connection>, embeddings: seq<V>, metadata: seq<int>,
                            render: V -> string, driverFailure: Option<string>): (r: InsertResult)
    ensures r.error.None? <==>
      |metadata| <= |embeddings| && cnxn.Some? && cnxn.value.open && driverFailure.None?
    ensures r.error.None? ==> r.count == |metadata|
    ensures r.error.Some? ==> r.count == 0
    ensures |metadata| > |embeddings| ==> r.error == Some(IndexError)
    ensures |metadata| <= |embeddings| && cnxn.None? ==> r.error == Some(AttributeError)
    ensures |metadata| <= |embeddings| && cnxn.Some? && !cnxn.value.open ==> r.error == Some(ClosedConnection)
    ensures |metadata| <= |embeddings| && cnxn.Some? && cnxn.value.open && driverFailure.Some? ==>
      r.error == Some(DriverError(driverFailure.value))
  {
    match InsertParams(embeddings, metadata, render)
    case Err(e) => InsertResult(0, Some(e))
    case Ok(_) =>
      if cnxn.None? then InsertResult(0, Some(AttributeError))
      else if !cnxn.value.open then InsertResult(0, Some(ClosedConnection))
      else if driverFailure.Some? then InsertResult(0, Some(DriverError(driverFailure.value)))
      else InsertResult(|metadata|, None)
  }

  /** An empty batch still goes to the driver: it reports `(0, None)` only when
      the driver accepts the empty parameter list. */
  lemma EmptyBatch<V>(cnxn: Option<Connection>, embeddings: seq<V>, render: V -> string, driverFailure: Option<string>)
    requires cnxn.Some? && cnxn.value.open
    ensures InsertOutcome(cnxn, embeddings, [], render, driverFailure).count == 0
    ensures InsertOutcome(cnxn, embeddings, [], render, driverFailure).error.None? <==> driverFailure.None?
  {
  }

  // ----- search_embedding -----

  /** A fetched row, as its column values by name. */
  datatype Record<V> = Record(columns: map<string, V>)

  /** The mapping of mssql.py:185: the value of the column named "id" of each
      fetched row, in order. */
  function RowIds<V>(rows: seq<Record<V>>): (r: Result<seq<V>, Exception>)
    ensures r.Ok? <==> forall i :: 0 <= i < |rows| ==> "id" in rows[i].columns
    ensures r.Err? ==> r.error == AttributeError
    ensures r.Ok? ==> |r.value| == |rows|
    ensures r.Ok? ==> forall i :: 0 <= i < |rows| ==> r.value[i] == rows[i].columns["id"]
    decreases |rows|
  {
    if rows == [] then Ok([])
    else if "id" !in rows[0].columns then Err(AttributeError)
    else
      match RowIds(rows[1..])
      case Ok(rest) => Ok([rows[0].columns["id"]] + rest)
      case Err(e) => Err(e)
  }

  /** The similarity query selects the columns `vector_id` and
      `cosine_similarity`; rows of that shape have no `id` column, so the
      mapping fails on any non-empty result. */
  lemma QueryShapedRowsLackId<V>(rows: seq<Record<V>>)
    requires |rows| > 0
    requires forall i :: 0 <= i < |rows| ==> rows[i].columns.Keys == {"vector_id", "cosine_similarity"}
    ensures RowIds(rows) == Err(AttributeError)
  {
  }

  // ----- the adapter object -----

  /** A driver connection: an opaque handle, its autocommit flag and whether
      it has been closed. */
  datatype Connection = Connection(handle: nat, autocommit: bool, open: bool)

  class MSSQL {
    const dbConfig: map<string, string>
    const caseConfig: MssqlConfig.IndexConfig
    const tableName: string
    const dim: int
    const schemaName: string

    /** `self.cnxn`: absent until `init` runs. */
    var cnxn: Option<Connection>

    /** Abstract state of the server: the rows committed to the vector table. */
    var committed: seq<(int, string)>

    /** The naming part of `__init__`. `existing` is what the vector table
        already holds; with `dropOld` the table is dropped and recreated empty. */
    constructor(dim: int, dbConfig: map<string, string>, caseConfig: MssqlConfig.IndexConfig,
                existing: seq<(int, string)>, collectionName: string := DEFAULT_COLLECTION, dropOld: bool := false)
      ensures this.tableName == TableName(collectionName, dim)
      ensures this.schemaName == SCHEMA_NAME
      ensures this.dim == dim && this.dbConfig == dbConfig && this.caseConfig == caseConfig
      ensures cnxn == None
      ensures committed == if dropOld then [] else existing
    {
      this.dbConfig := dbConfig;
      this.caseConfig := caseConfig;
      this.tableName := TableName(collectionName, dim);
      this.dim := dim;
      this.schemaName := SCHEMA_NAME;
      cnxn := None;
      committed := if dropOld then [] else existing;
    }

    /** Entering `init`: the new connection is kept, with autocommit off. */
    method Init(handle: nat)
      modifies this`cnxn
      ensures cnxn == Some(Connection(handle, false, true))
    {
      cnxn := Some(Connection(handle, false, true));
    }

    /** Leaving `init`: the kept connection is closed. */
    method Close()
      requires cnxn.Some?
      modifies this`cnxn
      ensures cnxn == Some(old(cnxn).value.(open := false))
    {
      cnxn := Some(cnxn.value.(open := false));
    }

    /** `insert_embeddings`: never raises; on success the batch is appended to
        the committed rows, on failure they are left as they were. */
    method InsertEmbeddings<V>(embeddings: seq<V>, metadata: seq<int>, render: V -> string,
                               driverFailure: Option<string>) returns (res: InsertResult)
      modifies this`committed
      ensures res == InsertOutcome(cnxn, embeddings, metadata, render, driverFailure)
      ensures committed ==
        if res.error.None? then old(committed) + InsertParams(embeddings, metadata, render).value
        else old(committed)
    {
      var params := InsertParams(embeddings, metadata, render);
      if params.Err? {
        return InsertResult(0, Some(params.error));
      }
      if cnxn.None? {
        return InsertResult(0, Some(AttributeError));
      }
      if !cnxn.value.open {
        return InsertResult(0, Some(ClosedConnection));
      }
      if driverFailure.Some? {
        return InsertResult(0, Some(DriverError(driverFailure.value)));
      }
      committed := committed + params.value;
      return InsertResult(|metadata|, None);
    }

    /** `search_embedding`: `fetched` is what the server returns for the
        query. Exceptions are not caught here; they are the `Err` results. */
    method SearchEmbedding<V>(fetched: seq<Record<V>>, driverFailure: Option<string>) returns (r: Result<seq<V>, Exception>)
      ensures cnxn.None? ==> r == Err(AttributeError)
      ensures cnxn.Some? && !cnxn.value.open ==> r == Err(ClosedConnection)
      ensures cnxn.Some? && cnxn.value.open && driverFailure.Some? ==> r == Err(DriverError(driverFailure.value))
      ensures cnxn.Some? && cnxn.value.open && driverFailure.None? ==> r == RowIds(fetched)
    {
      if cnxn.None? {
        return Err(AttributeError);
      }
      if !cnxn.value.open {
        return Err(ClosedConnection);
      }
      if driverFailure.Some? {
        return Err(DriverError(driverFailure.value));
      }
      r := RowIds(fetched);
    }
  }
}
