/** The pure configuration mappings of the MSSQL client
    (vectordb_bench/backend/clients/mssql/config.py). */
module MssqlConfig {
  import opened Wrappers

  /** The benchmark's metric enumeration. Only L2 and IP are told apart by
      this client; every other enumerator falls through to the cosine names. */
  datatype MetricType = L2 | IP | Cosine | OtherMetric(name: string)

  /** MSSQLVectorIndexConfig: every field is optional in Python. */
  datatype IndexConfig = IndexConfig(metricType: Option<MetricType>, lists: Option<int>, probes: Option<int>)

  /** The field defaults: no metric, 1000 lists, 10 probes. */
  const DEFAULT_INDEX_CONFIG: IndexConfig := IndexConfig(None, Some(1000), Some(10))

  const L2_OPS := "vector_l2_ops"
  const IP_OPS := "vector_ip_ops"
  const COSINE_OPS := "vector_cosine_ops"
  const L2_DISTANCE := "l2_distance"
  const MAX_INNER_PRODUCT := "max_inner_product"
  const COSINE_DISTANCE := "cosine_distance"

  /** The index operator class name for the configured metric. */
  function ParseMetric(c: IndexConfig): (r: string)
    ensures r == L2_OPS <==> c.metricType == Some(L2)
    ensures r == IP_OPS <==> c.metricType == Some(IP)
    ensures r == COSINE_OPS <==> c.metricType != Some(L2) && c.metricType != Some(IP)
  {
    if c.metricType == Some(L2) then L2_OPS
    else if c.metricType == Some(IP) then IP_OPS
    else COSINE_OPS
  }

  /** The distance function name for the configured metric. */
  function ParseMetricFunStr(c: IndexConfig): (r: string)
    ensures r == L2_DISTANCE <==> c.metricType == Some(L2)
    ensures r == MAX_INNER_PRODUCT <==> c.metricType == Some(IP)
    ensures r == COSINE_DISTANCE <==> c.metricType != Some(L2) && c.metricType != Some(IP)
  {
    if c.metricType == Some(L2) then L2_DISTANCE
    else if c.metricType == Some(IP) then MAX_INNER_PRODUCT
    else COSINE_DISTANCE
  }

  /** An independent classification of a metric into the three cases the
      client distinguishes, and the pair of names each case stands for. */
  datatype MetricFamily = L2Family | IPFamily | CosineFamily

  function FamilyOf(m: Option<MetricType>): MetricFamily {
    match m
    case Some(L2) => L2Family
    case Some(IP) => IPFamily
    case _ => CosineFamily
  }

  function OperatorClass(f: MetricFamily): string {
    match f
    case L2Family => L2_OPS
    case IPFamily => IP_OPS
    case CosineFamily => COSINE_OPS
  }

  function DistanceFunction(f: MetricFamily): string {
    match f
    case L2Family => L2_DISTANCE
    case IPFamily => MAX_INNER_PRODUCT
    case CosineFamily => COSINE_DISTANCE
  }

  /** Both mappings classify a metric the same way, so the operator class and
      the distance function always belong to the same family. */
  lemma MetricNamesAgree(c: IndexConfig)
    ensures ParseMetric(c) == OperatorClass(FamilyOf(c.metricType))
    ensures ParseMetricFunStr(c) == DistanceFunction(FamilyOf(c.metricType))
  {
  }

  /** The operator class and the distance function determine each other. */
  lemma MetricNamesDetermineEachOther(c1: IndexConfig, c2: IndexConfig)
    ensures ParseMetric(c1) == ParseMetric(c2) <==> ParseMetricFunStr(c1) == ParseMetricFunStr(c2)
  {
  }

  /** A value in one of the parameter dictionaries. */
  datatype ParamValue = IntParam(n: Option<int>) | StrParam(s: string)

  /** index_param: exactly the keys "lists" and "metric". */
  function IndexParam(c: IndexConfig): (r: map<string, ParamValue>)
    ensures r.Keys == {"lists", "metric"}
    ensures r["lists"] == IntParam(c.lists)
    ensures r["metric"].StrParam? && r["metric"].s == ParseMetric(c)
  {
    map["lists" := IntParam(c.lists), "metric" := StrParam(ParseMetric(c))]
  }

  /** search_param: exactly the keys "probes" and "metric_fun". */
  function SearchParam(c: IndexConfig): (r: map<string, ParamValue>)
    ensures r.Keys == {"probes", "metric_fun"}
    ensures r["probes"] == IntParam(c.probes)
    ensures r["metric_fun"].StrParam? && r["metric_fun"].s == ParseMetricFunStr(c)
  {
    map["probes" := IntParam(c.probes), "metric_fun" := StrParam(ParseMetricFunStr(c))]
  }

  /** With the defaults the index uses 1000 lists and the cosine operator
      class, and the search 10 probes and the cosine distance. */
  lemma DefaultParams()
    ensures IndexParam(DEFAULT_INDEX_CONFIG) == map["lists" := IntParam(Some(1000)), "metric" := StrParam(COSINE_OPS)]
    ensures SearchParam(DEFAULT_INDEX_CONFIG) == map["probes" := IntParam(Some(10)), "metric_fun" := StrParam(COSINE_DISTANCE)]
  {
  }

  // ----- the connection string -----

  /** The errors Python's `str % tuple` raises. */
  datatype FormatError =
    | NotEnoughArguments        // TypeError: not enough arguments for format string
    | NotAllArgumentsConverted  // TypeError: not all arguments converted during string formatting
    | UnsupportedFormat         // ValueError: unsupported format character / incomplete format

  function Prepend(s: string, r: Result<string, FormatError>): Result<string, FormatError> {
    match r
    case Ok(v) => Ok(s + v)
    case Err(e) => Err(e)
  }

  /** Python's `template % args` for string arguments, restricted to the
      `%s` and `%%` conversions: each `%s` is replaced verbatim by the next
      argument, left to right. */
  function Format(template: string, args: seq<string>): Result<string, FormatError>
    decreases |template|
  {
    if template == [] then
      if args == [] then Ok([]) else Err(NotAllArgumentsConverted)
    else if template[0] != '%' then
      Prepend([template[0]], Format(template[1..], args))
    else if |template| >= 2 && template[1] == 's' then
      if args == [] then Err(NotEnoughArguments) else Prepend(args[0], Format(template[2..], args[1..]))
    else if |template| >= 2 && template[1] == '%' then
      Prepend("%", Format(template[2..], args))
    else
      Err(UnsupportedFormat)
  }

  lemma PrependTwice(s1: string, s2: string, r: Result<string, FormatError>)
    ensures Prepend(s1, Prepend(s2, r)) == Prepend(s1 + s2, r)
  {
    match r
    case Ok(v) => assert s1 + (s2 + v) == (s1 + s2) + v;
    case Err(_) =>
  }

  /** Text without a `%` is copied unchanged. */
  lemma {:induction false} FormatLiteral(lit: string, rest: string, args: seq<string>)
    requires '%' !in lit
    ensures Format(lit + rest, args) == Prepend(lit, Format(rest, args))
  {
    if lit != [] {
      var t := lit + rest;
      assert t[0] == lit[0] && t[1..] == lit[1..] + rest;
      FormatLiteral(lit[1..], rest, args);
      assert Format(t, args) == Prepend([lit[0]], Format(lit[1..] + rest, args));
      PrependTwice([lit[0]], lit[1..], Format(rest, args));
      assert [lit[0]] + lit[1..] == lit;
    } else {
      assert lit + rest == rest;
      match Format(rest, args)
      case Ok(v) => assert lit + v == v;
      case Err(_) =>
    }
  }

  /** A `%s` consumes the next argument verbatim. */
  lemma FormatPlaceholder(rest: string, arg: string, args: seq<string>)
    ensures Format("%s" + rest, [arg] + args) == Prepend(arg, Format(rest, args))
  {
  }

  const CONNECTION_STRING_PREFIX := "DRIVER={ODBC Driver 18 for SQL Server};SERVER="
  const CONNECTION_STRING_SUFFIX := ";Connect Timeout=30;"

  /** The connection string template of config.py:4, written as its literal
      pieces with a `%s` placeholder for each of the four fields. */
  const CONNECTION_STRING_TEMPLATE :=
    CONNECTION_STRING_PREFIX + ("%s" + (";DATABASE=" + ("%s" + (";UID=" + ("%s" + (";PWD=" + ("%s" + CONNECTION_STRING_SUFFIX)))))))

  /** MSSQLConfig, with the secret password already unwrapped. */
  datatype ServerConfig = ServerConfig(server: string, database: string, uid: string, pwd: string)

  /** The connection string the template is meant to produce. */
  function ConnectionString(c: ServerConfig): string {
    CONNECTION_STRING_PREFIX + (c.server + (";DATABASE=" + (c.database + (";UID=" + (c.uid + (";PWD=" + (c.pwd + CONNECTION_STRING_SUFFIX)))))))
  }

  /** The driver and server key contain no `%`, so formatting copies them. */
  lemma PrefixHasNoPercent()
    ensures '%' !in CONNECTION_STRING_PREFIX
  {
    assert CONNECTION_STRING_PREFIX == "DRIVER={ODBC Driver " + "18 for SQL Server};" + "SERVER=";
  }

  /** The last two placeholders of the template, with what follows them. */
  lemma TemplateTail(uid: string, pwd: string)
    ensures Format("%s" + (";PWD=" + ("%s" + CONNECTION_STRING_SUFFIX)), [uid, pwd]) ==
      Ok(uid + (";PWD=" + (pwd + CONNECTION_STRING_SUFFIX)))
  {
    var t8 := CONNECTION_STRING_SUFFIX;
    assert Format(t8, []) == Ok(t8) by {
      FormatLiteral(t8, [], []);
      assert t8 + [] == t8;
    }
    assert Format("%s" + t8, [pwd]) == Ok(pwd + t8) by {
      FormatPlaceholder(t8, pwd, []);
      assert [pwd] + [] == [pwd];
    }
    assert Format(";PWD=" + ("%s" + t8), [pwd]) == Ok(";PWD=" + (pwd + t8)) by {
      FormatLiteral(";PWD=", "%s" + t8, [pwd]);
    }
    FormatPlaceholder(";PWD=" + ("%s" + t8), uid, [pwd]);
    assert [uid] + [pwd] == [uid, pwd];
  }

  /** The first two placeholders of the template, with what follows them. */
  lemma TemplateMiddle(server: string, database: string, rest: string, args: seq<string>, r: string)
    requires Format(rest, args) == Ok(r)
    ensures Format("%s" + (";DATABASE=" + ("%s" + (";UID=" + rest))), [server, database] + args) ==
      Ok(server + (";DATABASE=" + (database + (";UID=" + r))))
  {
    assert Format(";UID=" + rest, args) == Ok(";UID=" + r) by {
      FormatLiteral(";UID=", rest, args);
    }
    assert Format("%s" + (";UID=" + rest), [database] + args) == Ok(database + (";UID=" + r)) by {
      FormatPlaceholder(";UID=" + rest, database, args);
    }
    assert Format(";DATABASE=" + ("%s" + (";UID=" + rest)), [database] + args) ==
      Ok(";DATABASE=" + (database + (";UID=" + r))) by {
      FormatLiteral(";DATABASE=", "%s" + (";UID=" + rest), [database] + args);
    }
    FormatPlaceholder(";DATABASE=" + ("%s" + (";UID=" + rest)), server, [database] + args);
    assert [server] + ([database] + args) == [server, database] + args;
  }

  /** Formatting the template with the four fields substitutes them verbatim,
      in the order server, database, uid, pwd. */
  lemma TemplateSubstitution(c: ServerConfig)
    ensures Format(CONNECTION_STRING_TEMPLATE, [c.server, c.database, c.uid, c.pwd]) == Ok(ConnectionString(c))
  {
    var rest := "%s" + (";PWD=" + ("%s" + CONNECTION_STRING_SUFFIX));
    var r := c.uid + (";PWD=" + (c.pwd + CONNECTION_STRING_SUFFIX));
    TemplateTail(c.uid, c.pwd);
    TemplateMiddle(c.server, c.database, rest, [c.uid, c.pwd], r);
    assert [c.server, c.database] + [c.uid, c.pwd] == [c.server, c.database, c.uid, c.pwd];
    var t1 := "%s" + (";DATABASE=" + ("%s" + (";UID=" + rest)));
    assert CONNECTION_STRING_TEMPLATE == CONNECTION_STRING_PREFIX + t1;
    PrefixHasNoPercent();
    FormatLiteral(CONNECTION_STRING_PREFIX, t1, [c.server, c.database, c.uid, c.pwd]);
  }

  /** to_dict: a one-key dictionary holding the formatted connection string. */
  function ToDict(c: ServerConfig): (r: map<string, string>)
    ensures r.Keys == {"connection_string"}
    ensures r["connection_string"] == ConnectionString(c)
  {
    TemplateSubstitution(c);
    map["connection_string" := Format(CONNECTION_STRING_TEMPLATE, [c.server, c.database, c.uid, c.pwd]).value]
  }

  /** Whatever the fields hold, the connection string starts with the driver
      and server key and ends with the connect timeout. */
  lemma ConnectionStringFrame(c: ServerConfig)
    ensures var s := ToDict(c)["connection_string"];
      |s| >= |CONNECTION_STRING_PREFIX| + |CONNECTION_STRING_SUFFIX| &&
      s[..|CONNECTION_STRING_PREFIX|] == CONNECTION_STRING_PREFIX &&
      s[|s| - |CONNECTION_STRING_SUFFIX|..] == CONNECTION_STRING_SUFFIX
  {
  }
}
