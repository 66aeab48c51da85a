/**
 * The MySQL connection configuration: defaults first, then the options in order, then the
 * DSN. Opening the database is not modelled; its failure is a parameter, and the pool is
 * the value `Pool` holding the limits `DB` passes on.
 */
module Mysql {
  import opened Wrappers

  const DefaultMaxOpen: int := 10
  const DefaultMaxIdle: int := 10
  /** `time.Duration` counts nanoseconds: three minutes. */
  const DefaultMaxLifetime: int := 3 * 60 * 1_000_000_000
  const DriverMySQL: string := "mysql"
  /** The location `defaults` puts into the DSN. */
  const DefaultLocation: string := "Asia/Jakarta"

  // ------------------------------------------------------------------ query escaping

  function HexDigit(d: int): char
    requires 0 <= d < 16
  {
    if d < 10 then ('0' as int + d) as char else ('A' as int + d - 10) as char
  }

  type Byte = x: int | 0 <= x < 256

  /** The UTF-8 bytes of one character. */
  function Utf8(c: char): (bytes: seq<Byte>)
  {
    var n := c as int;
    if n < 0x80 then [n]
    else if n < 0x800 then [0xC0 + n / 64, 0x80 + n % 64]
    else if n < 0x10000 then [0xE0 + n / 4096, 0x80 + (n / 64) % 64, 0x80 + n % 64]
    else [0xF0 + (n / 262144) % 8, 0x80 + (n / 4096) % 64, 0x80 + (n / 64) % 64, 0x80 + n % 64]
  }

  /** Characters a query component keeps as they are. */
  predicate Unreserved(c: char)
  {
    ('a' <= c <= 'z') || ('A' <= c <= 'Z') || ('0' <= c <= '9') || c == '-' || c == '_' || c == '.' || c == '~'
  }

  function PercentBytes(bytes: seq<Byte>): (s: string)
    ensures |s| == 3 * |bytes|
  {
    if bytes == [] then ""
    else ['%', HexDigit(bytes[0] / 16), HexDigit(bytes[0] % 16)] + PercentBytes(bytes[1..])
  }

  function EscapeChar(c: char): string
  {
    if Unreserved(c) then [c] else if c == ' ' then "+" else PercentBytes(Utf8(c))
  }

  /** The pieces one after another. */
  function Concat(parts: seq<string>): string
  {
    if parts == [] then "" else Concat(parts[..|parts| - 1]) + parts[|parts| - 1]
  }

  /** `url.QueryEscape`: unreserved characters kept, a space as '+', every other byte as %XX. */
  function QueryEscape(s: string): (e: string)
  {
    Concat(seq(|s|, i requires 0 <= i < |s| => EscapeChar(s[i])))
  }

  /**
   * `url.Values.Encode` of a list already in key order: "k=v" pairs joined by '&'. Only the
   * values are escaped here: the keys used below are unreserved, so escaping leaves them as
   * they are (`KeysUnreserved`).
   */
  function Encode(pairs: seq<(string, string)>): string
  {
    if pairs == [] then ""
    else if |pairs| == 1 then pairs[0].0 + "=" + QueryEscape(pairs[0].1)
    else pairs[0].0 + "=" + QueryEscape(pairs[0].1) + "&" + Encode(pairs[1..])
  }

  // ------------------------------------------------------------------ configuration

  /** The fields the caller sets. */
  datatype Connection = Connection(host: string, port: string, user: string, password: string, name: string)

  /** "user:password@tcp(host:port)/name". */
  function ConnectionString(c: Connection): string
  {
    c.user + ":" + c.password + "@tcp(" + c.host + ":" + c.port + ")/" + c.name
  }

  /**
   * `mysqlDSN`: the connection string, then '?' and the encoded query when there is one. The
   * query holds "parseTime=1" when asked for and "loc" when a location is given; `Encode`
   * sorts keys, so "loc" comes first.
   */
  function MysqlDSN(c: Connection, parseTime: bool, location: string): (dsn: string)
    ensures ConnectionString(c) <= dsn
    ensures dsn == ConnectionString(c) <==> !parseTime && location == ""
    ensures (parseTime || location != "") ==> |dsn| > |ConnectionString(c)| && dsn[|ConnectionString(c)|] == '?'
  {
    var val := (if |location| > 0 then [("loc", location)] else []) + (if parseTime then [("parseTime", "1")] else []);
    if |val| == 0 then ConnectionString(c) else ConnectionString(c) + "?" + Encode(val)
  }

  /** The whole configuration; `err` is never set by the options of this package. */
  datatype Settings = Settings(conn: Connection, maxOpen: int, maxIdle: int, maxLifetime: int, maxIdleTime: int,
                               dsn: string, driverName: string, err: Option<string>)

  /** An `Option`. */
  datatype MysqlOption =
    | WithConnection(optMaxOpen: int, optMaxIdle: int, optMaxLifetime: int, optMaxIdleTime: int)
    | WithMysql(serverName: string, parseTime: bool, location: string)

  /** `defaults`. */
  function Defaults(s: Settings): Settings
  {
    s.(maxOpen := DefaultMaxOpen, maxIdle := DefaultMaxIdle, maxLifetime := DefaultMaxLifetime,
       driverName := DriverMySQL, dsn := MysqlDSN(s.conn, true, DefaultLocation))
  }

  /** One option applied to the configuration. */
  function ApplyOption(s: Settings, o: MysqlOption): Settings
  {
    match o
    case WithConnection(mo, mi, ml, mt) =>
      s.(maxOpen := if mo > 0 then mo else s.maxOpen,
         maxIdle := if mi > 0 then mi else s.maxIdle,
         maxLifetime := if ml > 0 then ml else s.maxLifetime,
         maxIdleTime := if mt > 0 then mt else s.maxIdleTime)
    case WithMysql(_, pt, loc) =>
      s.(driverName := DriverMySQL, dsn := MysqlDSN(s.conn, pt, loc))
  }

  /** The options applied in order. */
  function ApplyAll(s: Settings, options: seq<MysqlOption>): Settings
  {
    if options == [] then s else ApplyOption(ApplyAll(s, options[..|options| - 1]), options[|options| - 1])
  }

  /** What `DB` configures its pool with: the idle time is not among them. */
  datatype Pool = Pool(driverName: string, dsn: string, maxOpen: int, maxIdle: int, maxLifetime: int)

  /** `DB`'s outcome on a configuration after defaults and options. */
  function Opened(s: Settings, openError: Option<string>): (r: (Option<Pool>, Option<string>))
  {
    if s.err.Some? then (None, s.err)
    else if openError.Some? then (None, openError)
    else (Some(Pool(s.driverName, s.dsn, s.maxOpen, s.maxIdle, s.maxLifetime)), None)
  }

  class Config {
    var host: string
    var port: string
    var user: string
    var password: string
    var name: string
    var maxOpen: int
    var maxIdle: int
    var maxLifetime: int
    var maxIdleTime: int
    var dsn: string
    var driverName: string
    var err: Option<string>

    function Conn(): Connection
      reads this
    {
      Connection(host, port, user, password, name)
    }

    function State(): Settings
      reads this
    {
      Settings(Conn(), maxOpen, maxIdle, maxLifetime, maxIdleTime, dsn, driverName, err)
    }

    /** A configuration with the caller's connection fields and every other field zero. */
    constructor (c: Connection)
      ensures State() == Settings(c, 0, 0, 0, 0, "", "", None)
    {
      host, port, user, password, name := c.host, c.port, c.user, c.password, c.name;
      maxOpen, maxIdle, maxLifetime, maxIdleTime := 0, 0, 0, 0;
      dsn, driverName, err := "", "", None;
    }

    /** `defaults`. */
    method SetDefaults()
      modifies this
      ensures State() == Defaults(old(State()))
    {
      maxOpen := DefaultMaxOpen;
      maxIdle := DefaultMaxIdle;
      maxLifetime := DefaultMaxLifetime;
      driverName := DriverMySQL;
      dsn := MysqlDSN(Conn(), true, DefaultLocation);
    }

    /** Run one option on this configuration. */
    method Apply(o: MysqlOption)
      modifies this
      ensures State() == ApplyOption(old(State()), o)
    {
      match o
      case WithConnection(mo, mi, ml, mt) =>
        if mo > 0 {
          maxOpen := mo;
        }
        if mi > 0 {
          maxIdle := mi;
        }
        if ml > 0 {
          maxLifetime := ml;
        }
        if mt > 0 {
          maxIdleTime := mt;
        }
      case WithMysql(_, pt, loc) =>
        driverName := DriverMySQL;
        dsn := MysqlDSN(Conn(), pt, loc);
    }
  }

  /** `DB`: defaults, then each option in order, then the error check, then the pool. */
  method DB(config: Config, options: seq<MysqlOption>, openError: Option<string>)
    returns (db: Option<Pool>, err: Option<string>)
    modifies config
    ensures config.State() == ApplyAll(Defaults(old(config.State())), options)
    ensures (db, err) == Opened(config.State(), openError)
  {
    config.SetDefaults();
    ghost var start := config.State();
    var i := 0;
    while i < |options|
      invariant 0 <= i <= |options|
      invariant config.State() == ApplyAll(start, options[..i])
    {
      assert options[..i + 1][..i] == options[..i];
      config.Apply(options[i]);
      i := i + 1;
    }
    assert options[..i] == options;
    if config.err.Some? {
      return None, config.err;
    }
    if openError.Some? {
      return None, openError;
    }
    db := Some(Pool(config.driverName, config.dsn, config.maxOpen, config.maxIdle, config.maxLifetime));
    err := None;
  }

  // ------------------------------------------------------------------ properties

  lemma {:induction false} ConcatAppend(a: seq<string>, b: seq<string>)
    ensures Concat(a + b) == Concat(a) + Concat(b)
    decreases |b|
  {
    if b == [] {
      assert a + b == a;
    } else {
      var init, last := b[..|b| - 1], b[|b| - 1];
      assert (a + b)[..|a + b| - 1] == a + init;
      assert (a + b)[|a + b| - 1] == last;
      assert Concat(a + b) == Concat(a + init) + last;
      ConcatAppend(a, init);
      assert Concat(a) + Concat(init) + last == Concat(a) + (Concat(init) + last);
    }
  }

  /** Escaping works character by character. */
  lemma QueryEscapeAppend(a: string, b: string)
    ensures QueryEscape(a + b) == QueryEscape(a) + QueryEscape(b)
  {
    var pa := seq(|a|, i requires 0 <= i < |a| => EscapeChar(a[i]));
    var pb := seq(|b|, i requires 0 <= i < |b| => EscapeChar(b[i]));
    assert seq(|a + b|, i requires 0 <= i < |a + b| => EscapeChar((a + b)[i])) == pa + pb;
    ConcatAppend(pa, pb);
  }

  /** Unreserved text is its own escape. */
  lemma {:induction false} EscapeUnreserved(s: string)
    requires forall i :: 0 <= i < |s| ==> Unreserved(s[i])
    ensures QueryEscape(s) == s
    decreases |s|
  {
    if s != [] {
      var init := s[..|s| - 1];
      assert s == init + [s[|s| - 1]];
      EscapeUnreserved(init);
      QueryEscapeAppend(init, [s[|s| - 1]]);
      assert seq(1, i requires 0 <= i < 1 => EscapeChar([s[|s| - 1]][i])) == [[s[|s| - 1]]];
      assert Concat([[s[|s| - 1]]]) == [s[|s| - 1]];
    }
  }

  /** A '/' is the single byte 0x2F. */
  lemma SlashEscaped()
    ensures QueryEscape("/") == "%2F"
  {
    assert Utf8('/') == [0x2F];
    assert PercentBytes([0x2F]) == "%2F";
    assert EscapeChar('/') == "%2F";
    assert seq(1, i requires 0 <= i < 1 => EscapeChar("/"[i])) == ["%2F"];
    assert Concat(["%2F"]) == "%2F";
  }

  /** The default location is written "Asia%2FJakarta" in the DSN. */
  lemma DefaultLocationEscaped()
    ensures QueryEscape(DefaultLocation) == "Asia%2FJakarta"
  {
    AsiaEscaped();
    EscapeUnreserved("Jakarta");
    QueryEscapeAppend("Asia/", "Jakarta");
    assert DefaultLocation == "Asia/" + "Jakarta";
    assert "Asia%2FJakarta" == "Asia%2F" + "Jakarta";
  }

  lemma AsiaEscaped()
    ensures QueryEscape("Asia/") == "Asia%2F"
  {
    EscapeUnreserved("Asia");
    SlashEscaped();
    assert "Asia/" == "Asia" + "/";
    QueryEscapeAppend("Asia", "/");
    assert "Asia%2F" == "Asia" + "%2F";
  }

  /** Only parseTime asked for: "?parseTime=1". */
  lemma DSNParseTimeOnly(c: Connection)
    ensures MysqlDSN(c, true, "") == ConnectionString(c) + "?parseTime=1"
  {
    EscapeUnreserved("1");
    assert Encode([("parseTime", "1")]) == "parseTime=1";
  }

  /** Only a location: "?loc=" and its escape. */
  lemma DSNLocationOnly(c: Connection, location: string)
    requires location != ""
    ensures MysqlDSN(c, false, location) == ConnectionString(c) + "?loc=" + QueryEscape(location)
  {
    var val := [("loc", location)] + [];
    assert val == [("loc", location)];
    assert Encode(val) == "loc=" + QueryEscape(location);
  }

  /** Both: the location first, then parseTime. */
  lemma DSNBoth(c: Connection, location: string)
    requires location != ""
    ensures MysqlDSN(c, true, location) == ConnectionString(c) + "?loc=" + QueryEscape(location) + "&parseTime=1"
  {
    var val := [("loc", location)] + [("parseTime", "1")];
    assert val == [("loc", location), ("parseTime", "1")];
    EncodeBoth(location);
    assert MysqlDSN(c, true, location) == ConnectionString(c) + "?" + Encode(val);
  }

  lemma EncodeBoth(location: string)
    ensures Encode([("loc", location), ("parseTime", "1")]) == "loc=" + QueryEscape(location) + "&parseTime=1"
  {
    var val := [("loc", location), ("parseTime", "1")];
    EscapeUnreserved("1");
    assert val[1..] == [("parseTime", "1")];
    assert Encode(val[1..]) == "parseTime=1";
  }

  /** The four shapes of a DSN. */
  lemma DSNShapes(c: Connection, parseTime: bool, location: string)
    ensures !parseTime && location == "" ==> MysqlDSN(c, parseTime, location) == ConnectionString(c)
    ensures parseTime && location == "" ==> MysqlDSN(c, parseTime, location) == ConnectionString(c) + "?parseTime=1"
    ensures !parseTime && location != "" ==>
      MysqlDSN(c, parseTime, location) == ConnectionString(c) + "?loc=" + QueryEscape(location)
    ensures parseTime && location != "" ==>
      MysqlDSN(c, parseTime, location) == ConnectionString(c) + "?loc=" + QueryEscape(location) + "&parseTime=1"
  {
    if parseTime && location == "" {
      DSNParseTimeOnly(c);
    } else if !parseTime && location != "" {
      DSNLocationOnly(c, location);
    } else if parseTime {
      DSNBoth(c, location);
    }
  }

  /** The query keys and the parseTime value are their own escapes. */
  lemma KeysUnreserved()
    ensures QueryEscape("loc") == "loc" && QueryEscape("parseTime") == "parseTime" && QueryEscape("1") == "1"
  {
    EscapeUnreserved("loc");
    EscapeUnreserved("parseTime");
    EscapeUnreserved("1");
  }

  /** After `defaults`: limits 10, 10 and three minutes, the mysql driver, parseTime and Asia/Jakarta. */
  lemma DefaultsSet(s: Settings)
    ensures Defaults(s).maxOpen == 10 && Defaults(s).maxIdle == 10
    ensures Defaults(s).maxLifetime == 180_000_000_000 && Defaults(s).driverName == "mysql"
    ensures Defaults(s).dsn == ConnectionString(s.conn) + "?loc=Asia%2FJakarta&parseTime=1"
    ensures Defaults(s).conn == s.conn && Defaults(s).maxIdleTime == s.maxIdleTime && Defaults(s).err == s.err
  {
    DefaultDSN(s.conn);
  }

  /** The DSN `defaults` writes. */
  lemma DefaultDSN(c: Connection)
    ensures MysqlDSN(c, true, DefaultLocation) == ConnectionString(c) + "?loc=Asia%2FJakarta&parseTime=1"
  {
    DSNBoth(c, DefaultLocation);
    DefaultLocationEscaped();
    var cs := ConnectionString(c);
    assert cs + "?loc=" + "Asia%2FJakarta" + "&parseTime=1" == cs + ("?loc=" + "Asia%2FJakarta" + "&parseTime=1");
    DefaultQuery();
  }

  lemma DefaultQuery()
    ensures "?loc=" + "Asia%2FJakarta" + "&parseTime=1" == "?loc=Asia%2FJakarta&parseTime=1"
  {
    assert "?loc=" + "Asia%2FJakarta" == "?loc=Asia%2FJakarta";
  }

  /** `WithConnection` overrides exactly the limits given as positive numbers. */
  lemma ConnectionOverridesPositive(s: Settings, mo: int, mi: int, ml: int, mt: int)
    ensures var r := ApplyOption(s, WithConnection(mo, mi, ml, mt));
      && (r.maxOpen == if mo > 0 then mo else s.maxOpen)
      && (r.maxIdle == if mi > 0 then mi else s.maxIdle)
      && (r.maxLifetime == if ml > 0 then ml else s.maxLifetime)
      && (r.maxIdleTime == if mt > 0 then mt else s.maxIdleTime)
      && r.conn == s.conn && r.dsn == s.dsn && r.driverName == s.driverName && r.err == s.err
  {
  }

  /** `WithMysql` ignores its server name and rebuilds the DSN from the connection fields. */
  lemma MysqlIgnoresServerName(s: Settings, a: string, b: string, parseTime: bool, location: string)
    ensures ApplyOption(s, WithMysql(a, parseTime, location)) == ApplyOption(s, WithMysql(b, parseTime, location))
    ensures ApplyOption(s, WithMysql(a, parseTime, location)).dsn == MysqlDSN(s.conn, parseTime, location)
  {
  }

  /** No option of this package sets the error or changes the connection fields. */
  lemma {:induction false} OptionsKeepErrAndConnection(s: Settings, options: seq<MysqlOption>)
    ensures ApplyAll(s, options).err == s.err && ApplyAll(s, options).conn == s.conn
    decreases |options|
  {
    if options != [] {
      OptionsKeepErrAndConnection(s, options[..|options| - 1]);
    }
  }

  /** Starting without an error, `DB` fails only when opening does, and the pool has the final limits. */
  lemma OpenWithoutError(s: Settings, options: seq<MysqlOption>, openError: Option<string>)
    requires s.err.None?
    ensures var f := ApplyAll(Defaults(s), options);
      Opened(f, openError) == if openError.Some? then (None, openError)
        else (Some(Pool(f.driverName, f.dsn, f.maxOpen, f.maxIdle, f.maxLifetime)), None)
  {
    OptionsKeepErrAndConnection(Defaults(s), options);
  }

  /** A later `WithMysql` decides the DSN, whatever came before it. */
  lemma LastMysqlWins(s: Settings, options: seq<MysqlOption>, name: string, parseTime: bool, location: string)
    ensures ApplyAll(s, options + [WithMysql(name, parseTime, location)]).dsn == MysqlDSN(s.conn, parseTime, location)
  {
    assert (options + [WithMysql(name, parseTime, location)])[..|options|] == options;
    OptionsKeepErrAndConnection(s, options);
  }
}
