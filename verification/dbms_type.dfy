/**
 * The table of database systems supported for shared libraries: three variants,
 * each with a display name, a JDBC driver class, a connection-URL pattern and a
 * default port, together with the case-insensitive parse from a name.
 */
module DatabaseShared {
  import opened Wrappers

  /** A Java `int`: the type of the port arguments and of the default ports. */
  newtype int32 = x: int | -0x8000_0000 <= x < 0x8000_0000

  datatype DBMSType = MySQL | Oracle | PostgreSQL

  /** The variants in declaration order, as `values()` lists them. */
  function Values(): seq<DBMSType>
  {
    [MySQL, Oracle, PostgreSQL]
  }

  /** The identifier of the enum constant, which is what `Enum.valueOf` matches. */
  function ConstantName(t: DBMSType): string
  {
    match t
    case MySQL => "MYSQL"
    case Oracle => "ORACLE"
    case PostgreSQL => "POSTGRESQL"
  }

  /** The display name. */
  function ToString(t: DBMSType): string
  {
    match t
    case MySQL => "MySQL"
    case Oracle => "Oracle"
    case PostgreSQL => "PostgreSQL"
  }

  /** The JDBC driver class loaded to connect to this system. */
  function DriverClassPath(t: DBMSType): string
  {
    match t
    case MySQL => "org.mariadb.jdbc.Driver"
    case Oracle => "oracle.jdbc.driver.OracleDriver"
    case PostgreSQL => "org.postgresql.Driver"
  }

  /** The pattern handed to `String.format`, with slots for host, port and database. */
  function UrlPattern(t: DBMSType): (r: string)
    ensures r == UrlPrefix(t) + "%s:%d" + DatabaseSeparator(t) + "%s"
  {
    match t
    case MySQL => "jdbc:mariadb://%s:%d/%s"
    case Oracle => "jdbc:oracle:thin:@%s:%d:%s"
    case PostgreSQL => "jdbc:postgresql://%s:%d/%s"
  }

  /** The port the server listens on unless configured otherwise: a valid TCP port. */
  function DefaultPort(t: DBMSType): (r: int32)
    ensures 0 < r < 65536
  {
    match t
    case MySQL => 3306
    case Oracle => 1521
    case PostgreSQL => 5432
  }

  lemma DriverClassPathsDistinct(t: DBMSType, u: DBMSType)
    requires t != u
    ensures DriverClassPath(t) != DriverClassPath(u)
  {
  }

  lemma DefaultPortsDistinct(t: DBMSType, u: DBMSType)
    requires t != u
    ensures DefaultPort(t) != DefaultPort(u)
  {
  }

  // ---------------------------------------------------------------------------
  // Upper-casing with `Locale.ENGLISH`, restricted to ASCII letters.

  function UpperChar(c: char): char
  {
    if 'a' <= c <= 'z' then (c as int - 32) as char else c
  }

  /** The upper-case form of `s`: it has no lower-case letter and equals `s` ignoring case. */
  function ToUpper(s: string): (r: string)
    ensures EqualsIgnoreCase(r, s)
    ensures forall i :: 0 <= i < |r| ==> !('a' <= r[i] <= 'z')
  {
    seq(|s|, i requires 0 <= i < |s| => UpperChar(s[i]))
  }

  /** Upper-cased, the display name is the constant's identifier. */
  lemma ToStringUpperCase(t: DBMSType)
    ensures ToUpper(ToString(t)) == ConstantName(t)
  {
    match t
    case MySQL =>
      assert ToUpper("MySQL") == "MYSQL";
    case Oracle =>
      assert ToUpper("Oracle") == "ORACLE";
    case PostgreSQL =>
      assert ToUpper("PostgreSQL") == "POSTGRESQL";
  }

  /** `a.equalsIgnoreCase(b)` over ASCII: equal once both are upper-cased. */
  predicate EqualsIgnoreCase(a: string, b: string)
  {
    |a| == |b| && forall i :: 0 <= i < |a| ==> UpperChar(a[i]) == UpperChar(b[i])
  }

  // ---------------------------------------------------------------------------
  // Parsing a name.

  /** `Enum.valueOf`: the constant of `vs` whose identifier is exactly `name`, if any. */
  function ValueOf(vs: seq<DBMSType>, name: string): (r: Option<DBMSType>)
    ensures r.Some? ==> r.value in vs && ConstantName(r.value) == name
    ensures r.None? ==> forall t :: t in vs ==> ConstantName(t) != name
  {
    if vs == [] then None
    else if ConstantName(vs[0]) == name then Some(vs[0])
    else ValueOf(vs[1..], name)
  }

  lemma ConstantNamesDistinct(t: DBMSType, u: DBMSType)
    requires t != u
    ensures ConstantName(t) != ConstantName(u)
  {
  }

  /** Looking a name up among all variants finds exactly the variant with that identifier. */
  lemma ValueOfAllValues(name: string)
    ensures forall t :: ValueOf(Values(), name) == Some(t) <==> name == ConstantName(t)
  {
  }

  /**
   * `fromString`: `None` (Java's `null`) and every name whose upper-case form is
   * not a constant's identifier give `None`; otherwise the matching variant.
   */
  function FromString(typeName: Option<string>): (r: Option<DBMSType>)
    ensures typeName.None? ==> r.None?
    ensures typeName.Some? ==>
      forall t :: r == Some(t) <==> ToUpper(typeName.value) == ConstantName(t)
  {
    match typeName
    case None => None
    case Some(name) =>
      ValueOfAllValues(ToUpper(name));
      ValueOf(Values(), ToUpper(name))
  }

  /** Parsing the display name gives the variant back. */
  lemma FromStringToString(t: DBMSType)
    ensures FromString(Some(ToString(t))) == Some(t)
  {
    ToStringUpperCase(t);
  }

  /** Any casing of a variant's name parses to that variant, and only such names do. */
  lemma FromStringIgnoresCase(s: string, t: DBMSType)
    ensures FromString(Some(s)) == Some(t) <==> EqualsIgnoreCase(s, ToString(t))
  {
    ToStringUpperCase(t);
    var n := ToString(t);
    if EqualsIgnoreCase(s, n) {
      assert ToUpper(s) == ToUpper(n);
    }
    if FromString(Some(s)) == Some(t) {
      assert ToUpper(s) == ToUpper(n);
      forall i | 0 <= i < |s| ensures UpperChar(s[i]) == UpperChar(n[i]) {
        assert ToUpper(s)[i] == ToUpper(n)[i];
      }
    }
  }

  /** Names that are no variant's name in any casing are rejected. */
  lemma FromStringRejectsOthers(s: string)
    requires forall t :: !EqualsIgnoreCase(s, ToString(t))
    ensures FromString(Some(s)) == None
  {
    var r := FromString(Some(s));
    if r.Some? {
      FromStringIgnoresCase(s, r.value);
    }
  }

  // ---------------------------------------------------------------------------
  // `String.format` restricted to the `%s` and `%d` conversions of the patterns.

  datatype Arg = StrArg(s: string) | IntArg(i: int)

  function DigitChar(d: nat): char
    requires d < 10
  {
    ('0' as int + d) as char
  }

  predicate AllDigits(s: string)
  {
    forall i :: 0 <= i < |s| ==> '0' <= s[i] <= '9'
  }

  /** The number a string of decimal digits denotes, most significant digit first. */
  function DigitsValue(s: string): nat
    requires AllDigits(s)
  {
    if s == [] then 0 else 10 * DigitsValue(s[..|s| - 1]) + (s[|s| - 1] as int - '0' as int)
  }

  /** The decimal digits of `n`: they denote `n` and have no leading zero. */
  function Digits(n: nat): (r: string)
    ensures r != [] && AllDigits(r)
    ensures DigitsValue(r) == n
    ensures |r| > 1 ==> r[0] != '0'
  {
    if n < 10 then [DigitChar(n)]
    else
      var r := Digits(n / 10) + [DigitChar(n % 10)];
      assert r[..|r| - 1] == Digits(n / 10);
      r
  }

  /** The integer a `%d` rendering denotes: an optional minus sign, then digits. */
  function DecimalValue(s: string): int
    requires s != [] && (s[0] == '-' ==> AllDigits(s[1..])) && (s[0] != '-' ==> AllDigits(s))
  {
    if s[0] == '-' then -(DigitsValue(s[1..]) as int) else DigitsValue(s)
  }

  /**
   * `%d` of an integer: a minus sign exactly for negative numbers, followed by
   * the digits of its magnitude without leading zeros; it reads back as `i`.
   */
  function Decimal(i: int): (r: string)
    ensures r != []
    ensures r[0] == '-' <==> i < 0
    ensures r[0] == '-' ==> AllDigits(r[1..]) && r[1..] == Digits(-i)
    ensures r[0] != '-' ==> AllDigits(r) && r == Digits(i)
    ensures DecimalValue(r) == i
  {
    if i < 0 then
      var r := "-" + Digits(-i);
      assert r[1..] == Digits(-i);
      r
    else Digits(i)
  }

  /** `%s` of an argument: a string as it is, an integer in decimal. */
  function Render(a: Arg): string
  {
    match a
    case StrArg(s) => s
    case IntArg(i) => Decimal(i)
  }

  function Prepend(s: string, r: Option<string>): Option<string>
  {
    match r
    case None => None
    case Some(t) => Some(s + t)
  }

  /**
   * Fills the slots of `pattern` with `args` in order. `None` stands for the
   * exceptions Java throws: a missing argument, a non-integer for `%d`, a
   * trailing `%`, or a conversion other than `%s` and `%d`, which is outside
   * this model. Arguments left over are ignored, as in Java.
   */
  function Format(pattern: string, args: seq<Arg>): Option<string>
    decreases |pattern|
  {
    if pattern == [] then Some("")
    else if pattern[0] != '%' then Prepend([pattern[0]], Format(pattern[1..], args))
    else if |pattern| < 2 || args == [] then None
    else if pattern[1] == 's' then Prepend(Render(args[0]), Format(pattern[2..], args[1..]))
    else if pattern[1] == 'd' && args[0].IntArg? then Prepend(Decimal(args[0].i), Format(pattern[2..], args[1..]))
    else None
  }

  /** Text without a `%` is copied to the output unchanged. */
  lemma {:induction false} FormatText(text: string, rest: string, args: seq<Arg>)
    requires forall i :: 0 <= i < |text| ==> text[i] != '%'
    ensures Format(text + rest, args) == Prepend(text, Format(rest, args))
  {
    if text == [] {
      assert text + rest == rest;
      match Format(rest, args)
      case None =>
      case Some(t) => assert text + t == t;
    } else {
      assert (text + rest)[0] == text[0];
      assert (text + rest)[1..] == text[1..] + rest;
      FormatText(text[1..], rest, args);
      assert [text[0]] + text[1..] == text;
      match Format(rest, args)
      case None =>
      case Some(t) => assert [text[0]] + (text[1..] + t) == text + t;
    }
  }

  /** A `%s` slot takes the next argument. */
  lemma FormatString(rest: string, a: string, args: seq<Arg>)
    ensures Format("%s" + rest, [StrArg(a)] + args) == Prepend(a, Format(rest, args))
  {
    assert ("%s" + rest)[2..] == rest;
    assert ([StrArg(a)] + args)[1..] == args;
  }

  /** A `%d` slot takes the next argument, which is an integer. */
  lemma FormatInt(rest: string, n: int, args: seq<Arg>)
    ensures Format("%d" + rest, [IntArg(n)] + args) == Prepend(Decimal(n), Format(rest, args))
  {
    assert ("%d" + rest)[2..] == rest;
    assert ([IntArg(n)] + args)[1..] == args;
  }

  /** The text before the host: it names the variant. */
  function UrlPrefix(t: DBMSType): string
  {
    match t
    case MySQL => "jdbc:mariadb://"
    case Oracle => "jdbc:oracle:thin:@"
    case PostgreSQL => "jdbc:postgresql://"
  }

  /** The text between the port and the database name. */
  function DatabaseSeparator(t: DBMSType): string
  {
    match t
    case MySQL => "/"
    case Oracle => ":"
    case PostgreSQL => "/"
  }

  /** The last slot: a one-character separator followed by `%s`. */
  lemma FormatDatabaseSlot(sep: string, database: string)
    requires |sep| == 1 && sep[0] != '%'
    ensures Format(sep + "%s", [StrArg(database)]) == Some(sep + database)
  {
    FormatText(sep, "%s", [StrArg(database)]);
    assert "%s" == "%s" + "" && [StrArg(database)] == [StrArg(database)] + [];
    FormatString("", database, []);
    assert database + "" == database;
  }

  /** The slots after the host: `:%d<sep>%s`. */
  lemma FormatPortSlots(sep: string, port: int, database: string)
    requires |sep| == 1 && sep[0] != '%'
    ensures Format(":" + ("%d" + (sep + "%s")), [IntArg(port), StrArg(database)])
         == Some(":" + (Decimal(port) + (sep + database)))
  {
    var args := [IntArg(port), StrArg(database)];
    FormatText(":", "%d" + (sep + "%s"), args);
    assert args == [IntArg(port)] + [StrArg(database)];
    FormatInt(sep + "%s", port, [StrArg(database)]);
    FormatDatabaseSlot(sep, database);
  }

  /** Formatting a pattern `prefix%s:%d<sep>%s` with host, port and database. */
  lemma FormatUrlShape(prefix: string, sep: string, host: string, port: int, database: string)
    requires forall i :: 0 <= i < |prefix| ==> prefix[i] != '%'
    requires |sep| == 1 && sep[0] != '%'
    ensures Format(prefix + "%s:%d" + sep + "%s", [StrArg(host), IntArg(port), StrArg(database)])
         == Some(prefix + host + ":" + Decimal(port) + sep + database)
  {
    var args := [StrArg(host), IntArg(port), StrArg(database)];
    var slots := ":" + ("%d" + (sep + "%s"));
    assert prefix + "%s:%d" + sep + "%s" == prefix + ("%s" + slots);
    FormatText(prefix, "%s" + slots, args);
    assert args == [StrArg(host)] + [IntArg(port), StrArg(database)];
    FormatString(slots, host, [IntArg(port), StrArg(database)]);
    FormatPortSlots(sep, port, database);
    ConcatenationAssociates(prefix, host, ":", Decimal(port), sep, database);
  }

  lemma ConcatenationAssociates(a: string, b: string, c: string, d: string, e: string, f: string)
    ensures a + (b + (c + (d + (e + f)))) == a + b + c + d + e + f
  {
  }

  /**
   * `getUrl`: the connection URL for `host`, `port` and `database`. For MySQL it
   * is `jdbc:mariadb://host:port/database`, for Oracle
   * `jdbc:oracle:thin:@host:port:database`, for PostgreSQL
   * `jdbc:postgresql://host:port/database`.
   */
  function GetUrl(t: DBMSType, host: string, port: int32, database: string): (r: string)
    ensures Format(UrlPattern(t), [StrArg(host), IntArg(port as int), StrArg(database)]) == Some(r)
    ensures r == UrlPrefix(t) + host + ":" + Decimal(port as int) + DatabaseSeparator(t) + database
  {
    var prefix, sep := UrlPrefix(t), DatabaseSeparator(t);
    assert UrlPattern(t) == prefix + "%s:%d" + sep + "%s";
    FormatUrlShape(prefix, sep, host, port as int, database);
    Format(UrlPattern(t), [StrArg(host), IntArg(port as int), StrArg(database)]).value
  }

  /** The positions of the parts of a concatenation like the URL's. */
  lemma ConcatenationParts(a: string, b: string, c: string, d: string, e: string, f: string)
    ensures var r := a + b + c + d + e + f;
      && (forall i :: 0 <= i < |a| ==> r[i] == a[i])
      && r[..|a|] == a && r[|a|..|a| + |b|] == b && r[|r| - |f|..] == f
  {
    var r := a + b + c + d + e + f;
    assert r == a + (b + (c + d + e + f));
    assert r[|a|..] == b + (c + d + e + f);
    assert r == (a + b + c + d + e) + f;
  }

  /** The URL holds the host right after the prefix and ends with the database name. */
  lemma UrlContainsHostAndDatabase(t: DBMSType, host: string, port: int32, database: string)
    ensures var r := GetUrl(t, host, port, database);
      && r[..|UrlPrefix(t)|] == UrlPrefix(t)
      && r[|UrlPrefix(t)|..|UrlPrefix(t)| + |host|] == host
      && r[|r| - |database|..] == database
  {
    ConcatenationParts(UrlPrefix(t), host, ":", Decimal(port as int), DatabaseSeparator(t), database);
  }

  /** The default MySQL port renders as "3306". */
  lemma DecimalExample()
    ensures Decimal(3306) == "3306"
  {
    assert Digits(3) == "3";
    assert Digits(33) == Digits(3) + "3";
    assert Digits(330) == Digits(33) + "0";
    assert Digits(3306) == Digits(330) + "6";
  }

  lemma ConcatenationRegroups(a: string, b: string, c: string, d: string, e: string, f: string)
    ensures a + b + c + d + e + f == a + b + (c + d + e) + f
  {
  }

  /** A MySQL connection on the default port. */
  lemma GetUrlDefaultMySql(host: string, database: string)
    ensures GetUrl(MySQL, host, DefaultPort(MySQL), database) == "jdbc:mariadb://" + host + ":3306/" + database
  {
    DecimalExample();
    ConcatenationRegroups("jdbc:mariadb://", host, ":", Decimal(3306), "/", database);
    assert ":" + "3306" + "/" == ":3306/";
  }

  /** Distinct variants never produce the same URL, whatever the arguments. */
  lemma UrlsOfDistinctVariantsDiffer(t: DBMSType, u: DBMSType,
                                     host: string, port: int32, database: string,
                                     host': string, port': int32, database': string)
    requires t != u
    ensures GetUrl(t, host, port, database) != GetUrl(u, host', port', database')
  {
    ConcatenationParts(UrlPrefix(t), host, ":", Decimal(port as int), DatabaseSeparator(t), database);
    ConcatenationParts(UrlPrefix(u), host', ":", Decimal(port' as int), DatabaseSeparator(u), database');
    assert UrlPrefix(t)[5] != UrlPrefix(u)[5];
  }
}
