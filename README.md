# MSSQL vector client: payload layout, configuration mappings and adapter logic

This project models, in Dafny, the parts of the VectorDBBench MSSQL client that
can be stated without a database server:

- **Binary vector payload** (`binary_payload.dfy`, module `BinaryPayload`,
  from `binary-test.py`): the byte buffer built as a 2-byte marker
  `0xA9 0xAA`, a signed 32-bit element count (`struct.pack("i", …)`,
  little-endian on the assumed host), two zero filler bytes, and one 4-byte
  slot per element in input order. Elements are opaque 32-bit words (the
  little-endian reading of the bytes `struct.pack("f", …)` produces). The
  builder is an imperative method growing the buffer in a loop, proved equal
  to the specification function `Payload`; lemmas prove the offsets, the
  length `8 + 4·n`, the count field, the 2^31 − 1 limit on the count, that
  the buffer only grows, and, through a decoder written as a specification
  device, that a payload decodes to exactly its elements and that only the
  canonical encoding of a sequence decodes to it.
- **Configuration mappings** (`mssql_config.dfy`, module `MssqlConfig`, from
  `config.py`): metric → index operator class, metric → distance function,
  the `index_param` / `search_param` dictionaries, and `to_dict`'s ODBC
  connection string. Python's `%` with `%s` conversions is modelled as a
  function over the template; the connection string is proved to be the
  template with server, database, uid and pwd substituted verbatim in that
  order.
- **Adapter logic** (`mssql.dfy`, module `Mssql`, from `mssql.py`): the table
  name `collection + "_" + str(dim)` (with `str` of an int modelled and proved
  to read back), the `insert_embeddings` parameter list and its
  `(count, error)` result, the row → id mapping of `search_embedding`, and a
  class `MSSQL` holding the naming fields, the connection kept by `init`, and
  an abstract view of the server (the rows committed to the vector table).
- `wrappers.dfy` (module `Wrappers`) holds `Option` and `Result`.

The server and driver are abstract: each operation that would reach pyodbc
takes what the driver does as a parameter (`driverFailure`, the `fetched`
rows, the connection `handle`). `str()` of a float vector is the function
parameter `render`.

Facts about the code that shape the model:
- The marker is the fixed pair `0xA9 0xAA` (binary-test.py:15).
- The code has no payload decoder; `BinaryPayload.Decode` is a specification
  device that states that the layout determines its elements.
- An empty insert batch still reaches `executemany` and `commit`
  (mssql.py:120-129), so `(0, None)` results only when the driver accepts the
  empty list (`Mssql.EmptyBatch`).
- The modelled files hold no token cache, credential provider, inter-process
  lock or authentication mode selection, so none is modelled.

## Model

| member | source | states |
|---|---|---|
| `BinaryPayload.BuildPayload` | binary-test.py:14-24 | the in-place builder returns exactly `Payload(items)`: the marker, count, filler and slots, or the struct error for an oversized count |
| `BinaryPayload.Payload` | binary-test.py:14-24 | succeeds exactly when `len(items) <= 2^31 - 1`; otherwise fails with the struct error; on success the length is `8 + 4·len(items)` |
| `BinaryPayload.PayloadLayout` | binary-test.py:14-24 | bytes 0–1 are 169, 170; bytes 2–5 are the signed little-endian count and read back as `len(items)`; bytes 6–7 are zero; element `i` is at bytes `8+4i .. 8+4i+3`; total length `8 + 4·len(items)` |
| `BinaryPayload.SevenElementCountField` | binary-test.py:17-21 | for the script's seven-element list the first eight bytes are `A9 AA 07 00 00 00 00 00` |
| `BinaryPayload.Int32RoundTrip` | binary-test.py:19 | the count field is 4 bytes and reads back as the signed count for every 32-bit value |
| `BinaryPayload.Int32Canonical` | binary-test.py:19 | every 4-byte field is the encoding of the signed value it reads as |
| `BinaryPayload.FromLittleEndianOfLittleEndian` | binary-test.py:19-24 | the `n` little-endian bytes of a value below `256^n` read back as that value |
| `BinaryPayload.LittleEndianOfFromLittleEndian` | binary-test.py:19-24 | any byte string is the little-endian encoding of the value it reads as |
| `BinaryPayload.FromLittleEndian` | binary-test.py:19-24 | the value read from `k` bytes is below `256^k` |
| `BinaryPayload.LittleEndian` | binary-test.py:19-24 | the encoding of a value into `n` bytes has exactly `n` bytes |
| `BinaryPayload.WordRoundTrip` | binary-test.py:24 | an element slot is 4 bytes and reads back as the element |
| `BinaryPayload.WordCanonical` | binary-test.py:24 | every 4-byte slot is the encoding of the word it reads as |
| `BinaryPayload.Slots` | binary-test.py:23-24 | the element loop appends exactly 4 bytes per element |
| `BinaryPayload.SlotsAppend` | binary-test.py:23-24 | the slots of `a + b` are the slots of `a` followed by those of `b`: later elements never rewrite earlier bytes |
| `BinaryPayload.SlotAt` | binary-test.py:23-24 | element `i` occupies bytes `4i .. 4i+3` of the slot area, in input order |
| `BinaryPayload.DecodeSlots` | binary-test.py:23-24 | the slot reader yields one element per 4 bytes |
| `BinaryPayload.DecodeSlotsOfSlots` | binary-test.py:23-24 | reading the slots back gives the original elements |
| `BinaryPayload.SlotsOfDecodeSlots` | binary-test.py:23-24 | re-encoding what was read gives the original slot bytes |
| `BinaryPayload.DecodePayload` | binary-test.py:14-24 | a payload decodes to its own element sequence: the count field matches the number of slots that follow |
| `BinaryPayload.PayloadOfDecode` | binary-test.py:14-24 | any byte string that decodes is exactly the payload of the decoded elements |
| `BinaryPayload.PayloadDecodeIff` | binary-test.py:14-24 | `Decode(b) == Some(items)` if and only if `Payload(items) == Ok(b)` |
| `BinaryPayload.PayloadPrefixStable` | binary-test.py:14-24 | every intermediate buffer of the builder is a prefix of the final payload |
| `BinaryPayload.ByteArrayAppend` | binary-test.py:15 | `bytearray.append` succeeds only on an int in `range(256)`, adding that one byte; a list argument raises TypeError |
| `BinaryPayload.AsWrittenRaisesTypeError` | binary-test.py:15 | the script as written raises TypeError for every input list |
| `MssqlConfig.ParseMetric` | vectordb_bench/backend/clients/mssql/config.py:24-29 | `"vector_l2_ops"` exactly for L2, `"vector_ip_ops"` exactly for IP, `"vector_cosine_ops"` for every other metric and for no metric |
| `MssqlConfig.ParseMetricFunStr` | vectordb_bench/backend/clients/mssql/config.py:31-36 | `"l2_distance"` exactly for L2, `"max_inner_product"` exactly for IP, `"cosine_distance"` otherwise |
| `MssqlConfig.MetricNamesAgree` | vectordb_bench/backend/clients/mssql/config.py:24-36 | both names come from the same three-way classification of the metric |
| `MssqlConfig.MetricNamesDetermineEachOther` | vectordb_bench/backend/clients/mssql/config.py:24-36 | two configs get the same operator class if and only if they get the same distance function: the pair is never mixed |
| `MssqlConfig.IndexParam` | vectordb_bench/backend/clients/mssql/config.py:38-42 | exactly the keys `lists` and `metric`, holding the configured lists and the operator class |
| `MssqlConfig.SearchParam` | vectordb_bench/backend/clients/mssql/config.py:44-48 | exactly the keys `probes` and `metric_fun`, holding the configured probes and the distance function |
| `MssqlConfig.DefaultParams` | vectordb_bench/backend/clients/mssql/config.py:20-22 | with the defaults: `{lists: 1000, metric: "vector_cosine_ops"}` and `{probes: 10, metric_fun: "cosine_distance"}` |
| `MssqlConfig.FormatLiteral` | vectordb_bench/backend/clients/mssql/config.py:15 | `%` formatting copies text without `%` unchanged |
| `MssqlConfig.FormatPlaceholder` | vectordb_bench/backend/clients/mssql/config.py:15 | a `%s` is replaced verbatim by the next argument |
| `MssqlConfig.TemplateTail` | vectordb_bench/backend/clients/mssql/config.py:4-15 | the uid and pwd placeholders of the template take the last two arguments verbatim |
| `MssqlConfig.TemplateMiddle` | vectordb_bench/backend/clients/mssql/config.py:4-15 | the server and database placeholders take the first two arguments verbatim |
| `MssqlConfig.TemplateSubstitution` | vectordb_bench/backend/clients/mssql/config.py:4-15 | formatting the template with the four fields succeeds and substitutes server, database, uid, pwd verbatim, in that order, without escaping |
| `MssqlConfig.ToDict` | vectordb_bench/backend/clients/mssql/config.py:12-16 | a one-key dictionary whose `connection_string` is the template with the four fields substituted |
| `MssqlConfig.ConnectionStringFrame` | vectordb_bench/backend/clients/mssql/config.py:4 | the connection string starts with `DRIVER={ODBC Driver 18 for SQL Server};SERVER=` and ends with `;Connect Timeout=30;` whatever the fields hold |
| `Mssql.NatText` | vectordb_bench/backend/clients/mssql/mssql.py:26 | the decimal text of a natural number is non-empty and all digits, is `"0"` for zero and has no leading zero otherwise |
| `Mssql.ParseDigitsPositive` | vectordb_bench/backend/clients/mssql/mssql.py:26 | digits without a leading zero read as a positive number |
| `Mssql.CanonicalDigitsUnique` | vectordb_bench/backend/clients/mssql/mssql.py:26 | digits without a leading zero are exactly the decimal text of the number they read as |
| `Mssql.IntTextCanonical` | vectordb_bench/backend/clients/mssql/mssql.py:26 | `str(n)` is canonical: optional minus sign, digits without a leading zero, never `-0` |
| `Mssql.CanonicalIntTextUnique` | vectordb_bench/backend/clients/mssql/mssql.py:26 | a canonical text that reads as `n` is `str(n)` |
| `Mssql.NatTextRoundTrip` | vectordb_bench/backend/clients/mssql/mssql.py:26 | the digits of `n` read back as `n` |
| `Mssql.IntTextRoundTrip` | vectordb_bench/backend/clients/mssql/mssql.py:26 | `str(dim)` reads back as `dim`, negative values included |
| `Mssql.TableName` | vectordb_bench/backend/clients/mssql/mssql.py:26 | the table name is the collection name, `_`, then canonical text that reads back as `dim` (which, by `CanonicalIntTextUnique`, is exactly `str(dim)`) |
| `Mssql.TableNameInjective` | vectordb_bench/backend/clients/mssql/mssql.py:26 | within one collection, two dimensions give the same table name if and only if they are equal |
| `Mssql.DefaultTableName` | vectordb_bench/backend/clients/mssql/mssql.py:20-26 | with the default collection the name is exactly `"vector_" + str(dim)` |
| `Mssql.InsertParams` | vectordb_bench/backend/clients/mssql/mssql.py:120 | succeeds exactly when there are at least as many embeddings as ids, else IndexError; entry `i` is `(metadata[i], str(embeddings[i]))`, one per id, in order |
| `Mssql.InsertParamsIgnoresExtra` | vectordb_bench/backend/clients/mssql/mssql.py:120 | embeddings beyond `len(metadata)` do not change the parameter list |
| `Mssql.InsertOutcome` | vectordb_bench/backend/clients/mssql/mssql.py:109-150 | the error is `None` exactly when the list builds, the connection is open and the driver succeeds; then the count is `len(metadata)`; on any error the count is 0; the error is the exception raised: too few embeddings gives IndexError, a missing connection AttributeError, a closed connection ClosedConnection, a driver failure that DriverError |
| `Mssql.EmptyBatch` | vectordb_bench/backend/clients/mssql/mssql.py:120-146 | an empty batch reports count 0, and no error exactly when the driver accepts it |
| `Mssql.RowIds` | vectordb_bench/backend/clients/mssql/mssql.py:185-186 | succeeds exactly when every row has an `id` column, else AttributeError; then one id per row, in fetch order |
| `Mssql.QueryShapedRowsLackId` | vectordb_bench/backend/clients/mssql/mssql.py:172-185 | rows shaped like the query's select list (`vector_id`, `cosine_similarity`) make a non-empty mapping fail |
| `Mssql.MSSQL.constructor` | vectordb_bench/backend/clients/mssql/mssql.py:24-28 | sets the configs, `dim`, the table name from the collection and `dim`, the schema `benchmark`; no connection kept; with `drop_old` the vector table starts empty |
| `Mssql.MSSQL.Init` | vectordb_bench/backend/clients/mssql/mssql.py:84-87 | keeps the new connection, open, with autocommit off |
| `Mssql.MSSQL.Close` | vectordb_bench/backend/clients/mssql/mssql.py:89 | closes the kept connection and changes nothing else about it |
| `Mssql.MSSQL.InsertEmbeddings` | vectordb_bench/backend/clients/mssql/mssql.py:103-150 | returns the `(count, error)` pair of `InsertOutcome`, never raising; on success the committed rows grow by the parameter list, otherwise they are unchanged |
| `Mssql.MSSQL.SearchEmbedding` | vectordb_bench/backend/clients/mssql/mssql.py:152-186 | without a connection AttributeError, on a closed one or a driver failure that error; otherwise the row → id mapping of the fetched rows |

## Left out

- The pyodbc work (connect, cursor, execute, executemany, commit, close) and the SQL text it runs (schema, table and index DDL, the insert statement, the similarity query): it is I/O against an external server. Each operation takes what the driver does as a parameter instead.
- The `cosine_similarity` ranking and `top(k)`: they run inside the server, in floating point. `k` enters the SQL text and `query` is bound as the text `str(query)` (mssql.py:172, 183); what the server returns for them is the parameter `fetched`.
- `search_embedding`'s `filters` and `timeout` are only logged (mssql.py:159) and otherwise ignored, so a filtered search is not filtered; the model takes neither.
- Float-to-bytes conversion by `struct.pack("f", …)` (IEEE-754 rounding): elements are opaque 32-bit words. The errors this abstraction drops are OverflowError for a value outside the float32 range and struct.error for a non-number (binary-test.py:24).
- `BinaryPayload.Payload`: "succeeds exactly when the count fits in 32 bits" holds only under the word abstraction; with real Python values the element loop can also raise the two errors above.
- Python's `str()` of a float list: it is the uninterpreted parameter `render`.
- Native byte order: `struct.pack("i", …)` is modelled as little-endian, the assumed host's order.
- `Mssql.MSSQL.InsertEmbeddings`: after a failed `executemany` or `commit` the committed rows are taken to be unchanged; rows a failed call may leave pending on the connection (there is no rollback) and a later commit of them are not modelled.
- `Mssql.MSSQL.constructor`: without `drop_old` the table's prior contents are the parameter `existing`; the schema creation and the connection opened and closed inside `__init__` are I/O.
- `ready_to_load`, `optimize` and `ready_to_search` only log; logging is not modelled.
- The database-insert tail of `binary-test.py` (lines 27-30), `tvp-test.py` (one driver call) and `cli.py` (option wiring; it passes an `entraid` field that `MSSQLConfig` does not declare, whose handling belongs to the configuration library).
- `SecretStr`: the password is a plain string, already unwrapped.
- The metric enumeration itself is not part of this model: only L2 and IP are distinguished, other enumerators are `Cosine` or `OtherMetric(name)`.
- Python's `%` operator is modelled only for the `%s` and `%%` conversions, which cover the template.
- The `row.id` versus `vector_id` mismatch of `search_embedding` is shown by `Mssql.QueryShapedRowsLackId` and not resolved: which column a driver row exposes is driver behaviour.
- Token caching, credential acquisition and inter-process locking: no such code is among the modelled files.

## Findings

| source | as written | input that shows it | evidently intended | confidence | as-written member | corrected member |
|---|---|---|---|---|---|---|
| binary-test.py:15 | `b.append([169, 170])` (and `b.append([0,0])` at line 21) passes a list to `bytearray.append`, which accepts one int and raises TypeError | any `items`, e.g. the script's own `[100, 2000, 1, 0, -1, 0.3, 200]` | extend the buffer by the two bytes `0xA9 0xAA` (and by two zero bytes at line 21) | not executed | `BinaryPayload.AsWrittenRaisesTypeError` | `BinaryPayload.BuildPayload` |
